/**
  edge-functions/propose_match.ts: a player challenges another. Both must
  exist and share a room; the new match is "proposed" in the challenger's
  room. Nothing forbids a player from challenging itself.
 */
module ProposeMatch {
  import opened Common
  import opened Store

  /** Both players exist and are in the same room. */
  predicate SameRoom(players: seq<Player>, challengerId: Id, opponentId: Id)
  {
    var challenger, opponent := FindPlayer(players, challengerId), FindPlayer(players, opponentId);
    challenger.Some? && opponent.Some? && challenger.value.room == opponent.value.room
  }

  /**
    The propose-match edge function. `newMatchId` is the id the store assigns
    to the inserted row.
   */
  method ProposeMatch(s: Store, challengerId: Id, opponentId: Id, newMatchId: Id) returns (code: int)
    requires newMatchId !in s.matches
    modifies s
    ensures code == (if SameRoom(old(s.players), challengerId, opponentId) then 200 else 400)
    ensures code != 200 ==> unchanged(s)
    ensures code == 200 ==>
      var room := FindPlayer(old(s.players), challengerId).value.room;
      s.matches == old(s.matches)[newMatchId := Match(room, challengerId, opponentId, Proposed)] &&
      s.events == old(s.events) + [Event(room, ChallengeSent)]
    ensures unchanged(s`players, s`assets, s`moves, s`offers, s`rooms, s`starTransfers, s`usedCards, s`penalties)
  {
    var challenger := FindPlayer(s.players, challengerId);
    var opponent := FindPlayer(s.players, opponentId);
    if challenger.None? || opponent.None? || challenger.value.room != opponent.value.room {
      return 400;
    }
    s.matches := s.matches[newMatchId := Match(challenger.value.room, challengerId, opponentId, Proposed)];
    s.events := s.events + [Event(challenger.value.room, ChallengeSent)];
    code := 200;
  }

  /**
    A proposed match lies in the room of both its players, and inserting it
    leaves every existing match as it was.
   */
  lemma ProposedMatchInPlayersRoom(players: seq<Player>, matches: map<Id, Match>, challengerId: Id, opponentId: Id, newMatchId: Id)
    requires SameRoom(players, challengerId, opponentId) && newMatchId !in matches
    ensures var room := FindPlayer(players, challengerId).value.room;
      var matches' := matches[newMatchId := Match(room, challengerId, opponentId, Proposed)];
      (exists p :: p in players && p.id == challengerId && p.room == room) &&
      (exists p :: p in players && p.id == opponentId && p.room == room) &&
      (forall id :: id in matches ==> id in matches' && matches'[id] == matches[id])
  {
    var c, o := FindPlayer(players, challengerId).value, FindPlayer(players, opponentId).value;
    assert c in players && o in players;
  }

  /** Self-challenges pass the guard: a player is always in its own room. */
  lemma SelfChallengeAllowed(players: seq<Player>, playerId: Id)
    requires exists p :: p in players && p.id == playerId
    ensures SameRoom(players, playerId, playerId)
  {
  }
}
