/**
  edge-functions/move_open.ts: a player reveals a card already set. At least
  one `set` row of the same match and player must exist; an `open` row is
  appended, with no de-duplication.
 */
module MoveOpen {
  import opened Common
  import opened Store

  /**
    The move-open edge function: 400 unless the player has set in this match,
    otherwise one more `open` row.
   */
  method MoveOpen(s: Store, matchId: Id, playerId: Id) returns (code: int)
    modifies s
    ensures code == (if HasSetRow(old(s.moves), matchId, playerId) then 200 else 400)
    ensures code != 200 ==> unchanged(s)
    ensures code == 200 ==> s.moves == old(s.moves) + [MoveRow(matchId, playerId, Open)]
    ensures unchanged(s`players, s`assets, s`matches, s`offers, s`rooms, s`starTransfers, s`usedCards, s`penalties, s`events)
  {
    var hasSet := FindSetRow(s.moves, matchId, playerId);
    if hasSet.None? {
      return 400;
    }
    s.moves := s.moves + [MoveRow(matchId, playerId, Open)];
    code := 200;
  }

  /** The existence query: the position of some `set` row of this match and player. */
  method FindSetRow(moves: seq<MoveRow>, matchId: Id, playerId: Id) returns (found: Option<nat>)
    ensures found.Some? ==> found.value < |moves| && moves[found.value].matchId == matchId &&
                            moves[found.value].playerId == playerId && moves[found.value].phase.Set?
    ensures found.None? <==> !HasSetRow(moves, matchId, playerId)
  {
    var i := 0;
    while i < |moves|
      invariant 0 <= i <= |moves|
      invariant forall j :: 0 <= j < i ==> !(moves[j].matchId == matchId && moves[j].playerId == playerId && moves[j].phase.Set?)
    {
      if moves[i].matchId == matchId && moves[i].playerId == playerId && moves[i].phase.Set? {
        return Some(i);
      }
      i := i + 1;
    }
    return None;
  }

  /** Appending an open row changes no match's set rows, so it never enables or disables a later open or resolve. */
  lemma OpenKeepsSetRows(moves: seq<MoveRow>, matchId: Id, playerId: Id, other: Id)
    ensures SetRows(moves + [MoveRow(matchId, playerId, Open)], other) == SetRows(moves, other)
    ensures HasSetRow(moves + [MoveRow(matchId, playerId, Open)], other, playerId) == HasSetRow(moves, other, playerId)
  {
    SetRowsIgnoresOpen(moves, MoveRow(matchId, playerId, Open), other);
    var moves' := moves + [MoveRow(matchId, playerId, Open)];
    if HasSetRow(moves', other, playerId) {
      var mv :| mv in moves' && mv.matchId == other && mv.playerId == playerId && mv.phase.Set?;
      assert mv in moves;
    }
  }

  lemma {:induction false} SetRowsIgnoresOpen(moves: seq<MoveRow>, row: MoveRow, matchId: Id)
    requires row.phase.Open?
    ensures SetRows(moves + [row], matchId) == SetRows(moves, matchId)
  {
    if moves == [] {
      assert SetRows([row], matchId) == SetRows([row][1..], matchId);
    } else {
      assert (moves + [row])[1..] == moves[1..] + [row];
      SetRowsIgnoresOpen(moves[1..], row, matchId);
    }
  }
}
