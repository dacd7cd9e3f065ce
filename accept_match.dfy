/**
  edge-functions/accept_match.ts: the invited opponent accepts a challenge.
  The status becomes "accepted" whatever it was before.
 */
module AcceptMatch {
  import opened Common
  import opened Store

  /** The accept-match edge function: 404 for no match, 403 for anyone but the invited opponent. */
  method AcceptMatch(s: Store, matchId: Id, opponentId: Id) returns (code: int)
    modifies s
    ensures matchId !in old(s.matches) ==> code == 404
    ensures matchId in old(s.matches) ==> code == (if old(s.matches[matchId]).opponent == opponentId then 200 else 403)
    ensures code != 200 ==> unchanged(s)
    ensures code == 200 ==>
      var m := old(s.matches[matchId]);
      s.matches == old(s.matches)[matchId := m.(status := Accepted)] &&
      s.events == old(s.events) + [Event(m.room, ChallengeAccepted)]
    ensures unchanged(s`players, s`assets, s`moves, s`offers, s`rooms, s`starTransfers, s`usedCards, s`penalties)
  {
    if matchId !in s.matches {
      return 404;
    }
    var m := s.matches[matchId];
    if m.opponent != opponentId {
      return 403;
    }
    s.matches := s.matches[matchId := m.(status := Accepted)];
    s.events := s.events + [Event(m.room, ChallengeAccepted)];
    code := 200;
  }
}
