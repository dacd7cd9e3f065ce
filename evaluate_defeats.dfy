/**
  edge-functions/evaluate_defeats.ts: walks the players of a room in table
  order and records a penalty for every player out of stars and another for
  every player whose cash is below the loan; players without an asset row
  are skipped. Penalties and one event per penalty are appended together.
 */
module EvaluateDefeats {
  import opened Common
  import opened Store

  /** The penalties one player's asset row earns, stars first. */
  function PlayerPenalties(roomId: Id, playerId: Id, a: Assets): seq<Penalty>
  {
    (if a.stars <= 0 then [Penalty(roomId, playerId, StarsExhausted)] else []) +
    (if a.cash < a.loan then [Penalty(roomId, playerId, LoanUnpaid)] else [])
  }

  /**
    A row earns the stars penalty exactly when its stars are not positive and,
    independently, the loan penalty exactly when cash is below the loan; when
    both fire the stars penalty comes first.
   */
  lemma PlayerPenaltiesMeaning(roomId: Id, playerId: Id, a: Assets)
    ensures var r := PlayerPenalties(roomId, playerId, a);
      (Penalty(roomId, playerId, StarsExhausted) in r <==> a.stars <= 0) &&
      (Penalty(roomId, playerId, LoanUnpaid) in r <==> a.cash < a.loan) &&
      (forall p :: p in r ==> p.room == roomId && p.playerId == playerId) &&
      |r| <= 2 &&
      (|r| == 2 ==> r[0].reason == StarsExhausted && r[1].reason == LoanUnpaid)
  {
  }

  /** The penalties of one player of the room: none without an asset row. */
  function OwnPenalties(roomId: Id, p: Player, assets: map<Id, Assets>): (r: seq<Penalty>)
    ensures |r| <= 2
    ensures forall q :: q in r ==> q.room == roomId && q.playerId == p.id
  {
    if p.id in assets then PlayerPenalties(roomId, p.id, assets[p.id]) else []
  }

  /** The penalties of a list of players, in player order. */
  function Penalties(roomId: Id, players: seq<Player>, assets: map<Id, Assets>): (r: seq<Penalty>)
    ensures |r| <= 2 * |players|
    ensures forall p :: p in r ==> p.room == roomId && exists q :: q in players && q.id == p.playerId
  {
    if players == [] then []
    else
      var init, last := players[..|players| - 1], players[|players| - 1];
      assert forall q :: q in init ==> q in players;
      Penalties(roomId, init, assets) + OwnPenalties(roomId, last, assets)
  }

  /**
    A player is penalised for exhausted stars exactly when it is in the list
    and has an asset row with stars <= 0, and for the loan exactly when it is
    in the list and has a row with cash < loan.
   */
  lemma {:induction false} PenaltiesMembership(roomId: Id, players: seq<Player>, assets: map<Id, Assets>, playerId: Id)
    ensures Penalty(roomId, playerId, StarsExhausted) in Penalties(roomId, players, assets) <==>
      playerId in assets && assets[playerId].stars <= 0 && exists q :: q in players && q.id == playerId
    ensures Penalty(roomId, playerId, LoanUnpaid) in Penalties(roomId, players, assets) <==>
      playerId in assets && assets[playerId].cash < assets[playerId].loan && exists q :: q in players && q.id == playerId
  {
    if players != [] {
      var init, last := players[..|players| - 1], players[|players| - 1];
      assert players == init + [last];
      PenaltiesMembership(roomId, init, assets, playerId);
      if last.id in assets {
        PlayerPenaltiesMeaning(roomId, last.id, assets[last.id]);
      }
      forall q | q in players ensures q == last || q in init {
      }
    }
  }

  /** Players whose stars are positive and whose cash covers the loan earn no penalty. */
  lemma {:induction false} NoPenaltiesForSolventPlayers(roomId: Id, players: seq<Player>, assets: map<Id, Assets>)
    requires forall q :: q in players && q.id in assets ==> assets[q.id].stars > 0 && assets[q.id].cash >= assets[q.id].loan
    ensures Penalties(roomId, players, assets) == []
  {
    if players != [] {
      var init, last := players[..|players| - 1], players[|players| - 1];
      assert last in players;
      forall q | q in init ensures q in players {
      }
      NoPenaltiesForSolventPlayers(roomId, init, assets);
    }
  }

  /** The event announcing a penalty. */
  function PenaltyEvent(p: Penalty): Event
  {
    Event(p.room, PenaltyNotice(p.playerId, p.reason))
  }

  /** One event per penalty, in the same order. */
  function PenaltyEvents(ps: seq<Penalty>): (r: seq<Event>)
    ensures |r| == |ps|
    ensures forall i :: 0 <= i < |ps| ==> r[i] == PenaltyEvent(ps[i])
  {
    if ps == [] then [] else [PenaltyEvent(ps[0])] + PenaltyEvents(ps[1..])
  }

  /** Taking one more player of the list adds that player's penalties at the end. */
  lemma PenaltiesPrefixStep(roomId: Id, players: seq<Player>, assets: map<Id, Assets>, i: nat)
    requires i < |players|
    ensures Penalties(roomId, players[..i + 1], assets) == Penalties(roomId, players[..i], assets) + OwnPenalties(roomId, players[i], assets)
  {
    assert players[..i + 1][..i] == players[..i];
  }

  /**
    The body of the handler's `for` loop (evaluate_defeats.ts:41-48) as its
    statements run: skip a player without a row, then push the stars penalty
    and the loan penalty in turn. `OwnPenalties` is what one iteration adds.
   */
  method PushPenalties(penalties: seq<Penalty>, roomId: Id, player: Player, assets: map<Id, Assets>) returns (next: seq<Penalty>)
    ensures next == penalties + OwnPenalties(roomId, player, assets)
  {
    next := penalties;
    if player.id !in assets {
      return;
    }
    var a := assets[player.id];
    if a.stars <= 0 {
      next := next + [Penalty(roomId, player.id, StarsExhausted)];
    }
    if a.cash < a.loan {
      next := next + [Penalty(roomId, player.id, LoanUnpaid)];
    }
  }

  /** The handler's loop over the room's players. */
  method CollectPenalties(roomId: Id, players: seq<Player>, assets: map<Id, Assets>) returns (penalties: seq<Penalty>)
    ensures penalties == Penalties(roomId, players, assets)
  {
    penalties := [];
    for i := 0 to |players|
      invariant penalties == Penalties(roomId, players[..i], assets)
    {
      penalties := PushPenalties(penalties, roomId, players[i], assets);
      PenaltiesPrefixStep(roomId, players, assets, i);
    }
    assert players[..|players|] == players;
  }

  /**
    The evaluate-defeats edge function: returns 200 and the number of
    penalties; appends the penalties and their events, and nothing when there
    are none. Asset rows are read, never written.
   */
  method EvaluateDefeats(s: Store, roomId: Id) returns (code: int, count: nat)
    modifies s
    ensures code == 200
    ensures var ps := Penalties(roomId, RoomPlayers(old(s.players), roomId), old(s.assets));
      count == |ps| &&
      s.penalties == old(s.penalties) + ps &&
      s.events == old(s.events) + PenaltyEvents(ps)
    ensures count <= 2 * |RoomPlayers(old(s.players), roomId)|
    ensures count == 0 ==> unchanged(s)
    ensures unchanged(s`players, s`assets, s`matches, s`moves, s`offers, s`rooms, s`starTransfers, s`usedCards)
  {
    var players := RoomPlayers(s.players, roomId);
    var penalties := CollectPenalties(roomId, players, s.assets);
    if |penalties| > 0 {
      s.penalties, s.events := s.penalties + penalties, s.events + PenaltyEvents(penalties);
    }
    return 200, |penalties|;
  }
}
