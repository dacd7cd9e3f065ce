/**
  edge-functions/move_set.ts: a player puts a card face down. The chosen
  hand's card count must be positive; it is decremented and a `set` row is
  appended. Neither the match nor the player's part in it is checked.
 */
module MoveSet {
  import opened Common
  import opened Engine
  import opened Store

  /** Rock, paper and scissors cards held. */
  function CardTotal(a: Assets): int
  {
    a.rock + a.paper + a.scissors
  }

  /** The asset row after playing one card of hand `h`. */
  function SpendCard(a: Assets, h: Hand): (r: Assets)
    requires a.Get(CardKey(h)) > 0
    ensures r.Get(CardKey(h)) == a.Get(CardKey(h)) - 1
    ensures forall k :: k != CardKey(h) ==> r.Get(k) == a.Get(k)
    ensures r.loan == a.loan && r.stars == a.stars && r.cash == a.cash
    ensures a.NonNegative() ==> r.NonNegative()
  {
    a.With(CardKey(h), a.Get(CardKey(h)) - 1)
  }

  /** Playing a card costs exactly one card in total, and such a card must have been held. */
  lemma SpendCardCostsOne(a: Assets, h: Hand)
    requires a.Get(CardKey(h)) > 0
    ensures CardTotal(SpendCard(a, h)) == CardTotal(a) - 1
  {
    var r := SpendCard(a, h);
    assert r.Get(RockKey) == r.rock && r.Get(PaperKey) == r.paper && r.Get(ScissorsKey) == r.scissors;
    assert a.Get(RockKey) == a.rock && a.Get(PaperKey) == a.paper && a.Get(ScissorsKey) == a.scissors;
  }

  /** After a set move the player has a set row for that match, whatever was there before. */
  lemma SetRowAfterAppend(moves: seq<MoveRow>, matchId: Id, playerId: Id, h: Hand)
    ensures HasSetRow(moves + [MoveRow(matchId, playerId, Set(h))], matchId, playerId)
    ensures forall mv :: mv in moves ==> mv in moves + [MoveRow(matchId, playerId, Set(h))]
  {
    assert MoveRow(matchId, playerId, Set(h)) in moves + [MoveRow(matchId, playerId, Set(h))];
  }

  /**
    The move-set edge function: 404 without an asset row, 400 without a card
    of that hand, otherwise the decrement and the appended `set` row.
   */
  method MoveSet(s: Store, matchId: Id, playerId: Id, h: Hand) returns (code: int)
    modifies s
    ensures playerId !in old(s.assets) ==> code == 404
    ensures playerId in old(s.assets) ==> code == (if old(s.assets[playerId]).Get(CardKey(h)) > 0 then 200 else 400)
    ensures code != 200 ==> unchanged(s)
    ensures code == 200 ==>
      playerId in old(s.assets) && old(s.assets[playerId]).Get(CardKey(h)) > 0 &&
      s.assets == old(s.assets)[playerId := SpendCard(old(s.assets[playerId]), h)] &&
      s.moves == old(s.moves) + [MoveRow(matchId, playerId, Set(h))]
    ensures AllNonNegative(old(s.assets)) ==> AllNonNegative(s.assets)
    ensures unchanged(s`players, s`matches, s`offers, s`rooms, s`starTransfers, s`usedCards, s`penalties, s`events)
  {
    var asset := Lookup(s.assets, playerId);
    if asset.None? {
      return 404;
    }
    var column := CardKey(h);
    if asset.value.Get(column) <= 0 {
      return 400;
    }
    s.assets := s.assets[playerId := asset.value.With(column, asset.value.Get(column) - 1)];
    s.moves := s.moves + [MoveRow(matchId, playerId, Set(h))];
    code := 200;
  }
}
