/**
  edge-functions/resolve_match.ts: checks that both players have set and
  opened, judges the round, moves a star from loser to winner when it can,
  marks the match resolved and logs the used cards and one event.
 */
module ResolveMatch {
  import opened Common
  import opened Engine
  import opened Store
  import ResolvePlan

  /** Resolution may proceed: two set rows exist, and both players have an open row and a set row. */
  predicate RoundComplete(moves: seq<MoveRow>, matchId: Id, m: Match)
  {
    var setMoves := SetRows(moves, matchId);
    |setMoves| >= 2 &&
    m.challenger in OpenPlayerIds(moves, matchId) && m.opponent in OpenPlayerIds(moves, matchId) &&
    FirstSetHand(setMoves, m.challenger).Some? && FirstSetHand(setMoves, m.opponent).Some?
  }

  /** The hand a player played in a complete round: that of the player's first set row. */
  function PlayedHand(moves: seq<MoveRow>, matchId: Id, playerId: Id): Hand
    requires FirstSetHand(SetRows(moves, matchId), playerId).Some?
  {
    FirstSetHand(SetRows(moves, matchId), playerId).value
  }

  /** The judged round of a complete match, challenger first. */
  function RoundResult(moves: seq<MoveRow>, matchId: Id, m: Match): MatchResult
    requires RoundComplete(moves, matchId, m)
  {
    JudgeRound(MatchMove(m.challenger, PlayedHand(moves, matchId, m.challenger)),
               MatchMove(m.opponent, PlayedHand(moves, matchId, m.opponent)))
  }

  /** The handler's own transfer rule: a winner, both asset rows, and a loser with a star. */
  predicate TransferApplies(assets: map<Id, Assets>, r: MatchResult)
  {
    r.winner.Some? && r.loser.Some? && r.winner.value in assets && r.loser.value in assets &&
    assets[r.loser.value].stars > 0
  }

  /** `Math.max(0, x)`. */
  function Max0(x: int): int
  {
    if x < 0 then 0 else x
  }

  /** The asset table after the star transfer: winner + 1, loser max(0, s - 1), stars column only. */
  function MoveStar(assets: map<Id, Assets>, winner: Id, loser: Id): map<Id, Assets>
    requires winner in assets && loser in assets
  {
    assets[winner := assets[winner].(stars := assets[winner].stars + 1)]
          [loser := assets[loser].(stars := Max0(assets[loser].stars - 1))]
  }

  /**
    When the transfer applies between two players, the winner gains exactly one
    star, the loser loses exactly one (the `max` never clamps), their total is
    conserved and nothing else changes.
   */
  lemma MoveStarProperties(assets: map<Id, Assets>, winner: Id, loser: Id)
    requires winner in assets && loser in assets && winner != loser
    requires assets[loser].stars > 0
    ensures var after := MoveStar(assets, winner, loser);
      after.Keys == assets.Keys &&
      after[winner] == assets[winner].(stars := assets[winner].stars + 1) &&
      after[loser] == assets[loser].(stars := assets[loser].stars - 1) &&
      after[winner].stars + after[loser].stars == assets[winner].stars + assets[loser].stars &&
      (forall id :: id in assets && id != winner && id != loser ==> after[id] == assets[id])
  {
  }

  /** The transfer never makes a row negative, even when winner and loser are the same player. */
  lemma MoveStarKeepsNonNegative(assets: map<Id, Assets>, winner: Id, loser: Id)
    requires winner in assets && loser in assets
    requires AllNonNegative(assets)
    ensures AllNonNegative(MoveStar(assets, winner, loser))
  {
    var after := MoveStar(assets, winner, loser);
    forall id | id in after ensures after[id].NonNegative() {
      assert assets[id].NonNegative();
      forall k ensures after[id].Get(k) >= 0 {
        assert assets[id].Get(k) >= 0;
      }
    }
  }

  /** A winner always differs from the loser when the two moves come from different players. */
  lemma WinnerIsNotLoser(a: MatchMove, b: MatchMove)
    requires a.playerId != b.playerId
    requires JudgeRound(a, b).winner.Some?
    ensures JudgeRound(a, b).winner != JudgeRound(a, b).loser
  {
  }

  function StarsOf(assets: map<Id, Assets>, id: Id): Option<ResolvePlan.StarBalance>
  {
    if id in assets then Some(ResolvePlan.StarBalance(id, assets[id].stars)) else None
  }

  /**
    The inline transfer rule of this handler agrees with `planResolution`
    given the same moves and the two players' star balances, and so do
    outcome, winner and loser.
   */
  lemma TransferRuleAgreesWithPlanner(assets: map<Id, Assets>, m: Match, ch: Hand, oh: Hand,
                                      challengerName: Option<string>, opponentName: Option<string>)
    ensures var r := JudgeRound(MatchMove(m.challenger, ch), MatchMove(m.opponent, oh));
      var ctx := ResolvePlan.MatchContext(m.challenger, m.opponent, m.room, challengerName, opponentName);
      var p := ResolvePlan.PlanResolution(ctx, ResolvePlan.Move(m.challenger, ch), ResolvePlan.Move(m.opponent, oh),
                                          StarsOf(assets, m.challenger), StarsOf(assets, m.opponent));
      p.shouldTransferStar == TransferApplies(assets, r) &&
      p.outcome == r.outcome && p.winnerId == r.winner && p.loserId == r.loser
  {
  }

  /** The asset table, transfer rows and event notice a judged round leads to. */
  datatype StarStep = StarStep(assets: map<Id, Assets>, transfers: seq<StarTransfer>, notice: Notice)

  /**
    A star moves exactly when the transfer rule applies; the event keeps the
    draw text whenever no star moved, even if the round had a winner.
   */
  function StarStepFor(assets: map<Id, Assets>, room: Id, r: MatchResult, ch: Hand, oh: Hand): StarStep
  {
    if TransferApplies(assets, r) then
      StarStep(MoveStar(assets, r.winner.value, r.loser.value),
               [StarTransfer(room, r.loser.value, r.winner.value, 1)], RoundWon(ch, oh, r.winner.value))
    else StarStep(assets, [], RoundDrawn(ch, oh))
  }

  /**
    A drawn round never moves a star; a transfer always goes from the loser to
    the winner, one star, and keeps every row non-negative.
   */
  lemma StarStepProperties(assets: map<Id, Assets>, room: Id, r: MatchResult, ch: Hand, oh: Hand)
    ensures var step := StarStepFor(assets, room, r, ch, oh);
      (r.winner.None? ==> step.assets == assets && step.transfers == []) &&
      |step.transfers| <= 1 &&
      (step.transfers != [] <==> TransferApplies(assets, r)) &&
      (step.transfers != [] ==>
         step.transfers[0].from == r.loser.value && step.transfers[0].to == r.winner.value &&
         step.transfers[0].amount == 1 && step.notice.RoundWon?)
    ensures AllNonNegative(assets) ==> AllNonNegative(StarStepFor(assets, room, r, ch, oh).assets)
  {
    if TransferApplies(assets, r) && AllNonNegative(assets) {
      MoveStarKeepsNonNegative(assets, r.winner.value, r.loser.value);
    }
  }

  /**
    The statements of resolve_match.ts:96-133 in their order: start from the
    draw message, and with a winner read both asset rows and, if the loser has
    a star, update both, push one transfer and replace the message.
    `StarStepFor` states the outcome; this method is the code that reaches it.
   */
  method TransferStar(assets: map<Id, Assets>, room: Id, r: MatchResult, ch: Hand, oh: Hand) returns (step: StarStep)
    ensures step == StarStepFor(assets, room, r, ch, oh)
  {
    step := StarStep(assets, [], RoundDrawn(ch, oh));
    if r.winner.Some? && r.loser.Some? {
      var winnerId, loserId := r.winner.value, r.loser.value;
      var winnerAsset := Lookup(assets, winnerId);
      var loserAsset := Lookup(assets, loserId);
      if winnerAsset.Some? && loserAsset.Some? && loserAsset.value.stars > 0 {
        var next := assets[winnerId := winnerAsset.value.(stars := winnerAsset.value.stars + 1)];
        next := next[loserId := loserAsset.value.(stars := Max0(loserAsset.value.stars - 1))];
        step := StarStep(next, [StarTransfer(room, loserId, winnerId, 1)], RoundWon(ch, oh, winnerId));
      }
    }
  }

  /** Everything a complete round leads to: the judged result, the star step and the two used-card rows. */
  datatype Resolution = Resolution(result: MatchResult, step: StarStep, used: seq<UsedCardLog>)

  function ResolutionFor(moves: seq<MoveRow>, assets: map<Id, Assets>, matchId: Id, m: Match): Resolution
    requires RoundComplete(moves, matchId, m)
  {
    var ch, oh := PlayedHand(moves, matchId, m.challenger), PlayedHand(moves, matchId, m.opponent);
    var r := RoundResult(moves, matchId, m);
    Resolution(r, StarStepFor(assets, m.room, r, ch, oh),
               [UsedCardLog(m.challenger, matchId, ch), UsedCardLog(m.opponent, matchId, oh)])
  }

  /** Resolving a round keeps every asset row non-negative. */
  lemma ResolutionKeepsNonNegative(moves: seq<MoveRow>, assets: map<Id, Assets>, matchId: Id, m: Match)
    requires RoundComplete(moves, matchId, m)
    requires AllNonNegative(assets)
    ensures AllNonNegative(ResolutionFor(moves, assets, matchId, m).step.assets)
  {
    var ch, oh := PlayedHand(moves, matchId, m.challenger), PlayedHand(moves, matchId, m.opponent);
    StarStepProperties(assets, m.room, RoundResult(moves, matchId, m), ch, oh);
  }

  /**
    A resolved round conserves the two players' total stars (counted once
    when a player challenged itself), leaves every other row alone, and moves a star exactly when the
    round has a winner whose opponent holds one.
   */
  lemma ResolutionConservesStars(moves: seq<MoveRow>, assets: map<Id, Assets>, matchId: Id, m: Match)
    requires RoundComplete(moves, matchId, m)
    requires m.challenger in assets && m.opponent in assets
    ensures var res := ResolutionFor(moves, assets, matchId, m); var after := res.step.assets;
      after.Keys == assets.Keys &&
      (m.challenger != m.opponent ==>
         after[m.challenger].stars + after[m.opponent].stars == assets[m.challenger].stars + assets[m.opponent].stars) &&
      (m.challenger == m.opponent ==> after == assets) &&
      (forall id :: id in assets && id != m.challenger && id != m.opponent ==> after[id] == assets[id]) &&
      (res.step.transfers != [] <==> res.result.outcome != Draw && assets[res.result.loser.value].stars > 0)
  {
    var ch, oh := PlayedHand(moves, matchId, m.challenger), PlayedHand(moves, matchId, m.opponent);
    var a, b := MatchMove(m.challenger, ch), MatchMove(m.opponent, oh);
    var r := JudgeRound(a, b);
    StarStepProperties(assets, m.room, r, ch, oh);
    if m.challenger == m.opponent {
      SelfMatchIsDrawn(moves, matchId, m);
    } else if TransferApplies(assets, r) {
      WinnerIsNotLoser(a, b);
      MoveStarProperties(assets, r.winner.value, r.loser.value);
    }
  }

  /**
    A player who challenged itself plays the same first set row on both
    sides, so the round is always drawn and no star moves.
   */
  lemma SelfMatchIsDrawn(moves: seq<MoveRow>, matchId: Id, m: Match)
    requires RoundComplete(moves, matchId, m) && m.challenger == m.opponent
    ensures RoundResult(moves, matchId, m) == MatchResult(None, None, Draw)
  {
  }

  /**
    Resolution never looks at the match status, so a resolved match stays
    resolvable and resolving it again repeats the same transfer.
   */
  lemma ResolvedMatchResolvesAgain(moves: seq<MoveRow>, assets: map<Id, Assets>, matchId: Id, m: Match)
    requires RoundComplete(moves, matchId, m)
    ensures RoundComplete(moves, matchId, m.(status := Resolved))
    ensures ResolutionFor(moves, assets, matchId, m.(status := Resolved)) == ResolutionFor(moves, assets, matchId, m)
  {
  }

  /**
    The consequence of the unchecked status: after a won round resolves with
    a transfer, the resolved match passes the guards again and a second
    resolution moves a second star, so the loser ends two stars down and the
    winner two up.
   */
  lemma ResolvedMatchMovesSecondStar(moves: seq<MoveRow>, assets: map<Id, Assets>, matchId: Id, m: Match)
    requires RoundComplete(moves, matchId, m) && m.challenger != m.opponent
    requires RoundResult(moves, matchId, m).outcome != Draw
    requires m.challenger in assets && m.opponent in assets
    requires assets[m.challenger].stars >= 2 && assets[m.opponent].stars >= 2
    ensures var first := ResolutionFor(moves, assets, matchId, m);
      var resolved := m.(status := Resolved);
      first.step.transfers != [] &&
      RoundComplete(moves, matchId, resolved) &&
      var second := ResolutionFor(moves, first.step.assets, matchId, resolved);
      var r := first.result;
      second.step.transfers != [] &&
      second.step.assets[r.loser.value].stars == assets[r.loser.value].stars - 2 &&
      second.step.assets[r.winner.value].stars == assets[r.winner.value].stars + 2
  {
    var ch, oh := PlayedHand(moves, matchId, m.challenger), PlayedHand(moves, matchId, m.opponent);
    var a, b := MatchMove(m.challenger, ch), MatchMove(m.opponent, oh);
    var r := JudgeRound(a, b);
    JudgeRoundWinnerLoserPresence(a, b);
    WinnerIsNotLoser(a, b);
    var once := MoveStar(assets, r.winner.value, r.loser.value);
    MoveStarProperties(assets, r.winner.value, r.loser.value);
    ResolvedMatchResolvesAgain(moves, once, matchId, m);
    MoveStarProperties(once, r.winner.value, r.loser.value);
  }

  /**
    The reads and guards of resolve_match.ts:40-93 in their order (set rows,
    open rows, the count, the open check, the two `find`s, `judgeRound`),
    followed by the transfer step. `ResolutionFor` states the outcome; this
    method is the code that reaches it.
   */
  method ResolveRound(moves: seq<MoveRow>, assets: map<Id, Assets>, matchId: Id, m: Match) returns (res: Option<Resolution>)
    ensures res.Some? <==> RoundComplete(moves, matchId, m)
    ensures res.Some? ==> RoundComplete(moves, matchId, m) && res.value == ResolutionFor(moves, assets, matchId, m)
  {
    var setMoves := SetRows(moves, matchId);
    var openPlayerIds := OpenPlayerIds(moves, matchId);
    if |setMoves| < 2 {
      return None;
    }
    if m.challenger !in openPlayerIds || m.opponent !in openPlayerIds {
      return None;
    }
    var challengerMove := FirstSetHand(setMoves, m.challenger);
    var opponentMove := FirstSetHand(setMoves, m.opponent);
    if challengerMove.None? || opponentMove.None? {
      return None;
    }
    var ch, oh := challengerMove.value, opponentMove.value;
    var r := JudgeRound(MatchMove(m.challenger, ch), MatchMove(m.opponent, oh));
    var step := TransferStar(assets, m.room, r, ch, oh);
    return Some(Resolution(r, step, [UsedCardLog(m.challenger, matchId, ch), UsedCardLog(m.opponent, matchId, oh)]));
  }

  /** The writes of a resolved round, issued together: stars, transfer row, match status, used cards, event. */
  method ApplyResolution(s: Store, matchId: Id, m: Match, res: Resolution)
    requires AllNonNegative(s.assets) ==> AllNonNegative(res.step.assets)
    modifies s
    ensures s.matches == old(s.matches)[matchId := m.(status := Resolved)]
    ensures s.usedCards == old(s.usedCards) + res.used
    ensures s.assets == res.step.assets
    ensures s.starTransfers == old(s.starTransfers) + res.step.transfers
    ensures s.events == old(s.events) + [Event(m.room, res.step.notice)]
    ensures AllNonNegative(old(s.assets)) ==> AllNonNegative(s.assets)
    ensures unchanged(s`players, s`moves, s`offers, s`rooms, s`penalties)
  {
    // all writes are issued together (`Promise.all`)
    s.assets, s.starTransfers, s.matches, s.usedCards, s.events :=
      res.step.assets,
      s.starTransfers + res.step.transfers,
      s.matches[matchId := m.(status := Resolved)],
      s.usedCards + res.used,
      s.events + [Event(m.room, res.step.notice)];
  }

  /**
    The resolve-match edge function. The match's current status is not
    checked, so resolving again re-applies the transfer.
   */
  method ResolveMatch(s: Store, matchId: Id) returns (code: int, result: Option<MatchResult>)
    modifies s
    ensures matchId !in old(s.matches) ==> code == 404
    ensures matchId in old(s.matches) ==>
      code == (if RoundComplete(old(s.moves), matchId, old(s.matches[matchId])) then 200 else 400)
    ensures code != 200 ==> unchanged(s) && result.None?
    ensures code == 200 ==>
      matchId in old(s.matches) && RoundComplete(old(s.moves), matchId, old(s.matches[matchId])) &&
      var m := old(s.matches[matchId]);
      var res := ResolutionFor(old(s.moves), old(s.assets), matchId, m);
      result == Some(res.result) &&
      s.matches == old(s.matches)[matchId := m.(status := Resolved)] &&
      s.usedCards == old(s.usedCards) + res.used &&
      s.assets == res.step.assets &&
      s.starTransfers == old(s.starTransfers) + res.step.transfers &&
      s.events == old(s.events) + [Event(m.room, res.step.notice)]
    ensures AllNonNegative(old(s.assets)) ==> AllNonNegative(s.assets)
    ensures unchanged(s`players, s`moves, s`offers, s`rooms, s`penalties)
  {
    if matchId !in s.matches {
      return 404, None;
    }
    var m := s.matches[matchId];
    var res := ResolveRound(s.moves, s.assets, matchId, m);
    if res.None? {
      return 400, None;
    }
    if AllNonNegative(s.assets) {
      ResolutionKeepsNonNegative(s.moves, s.assets, matchId, m);
    }
    ApplyResolution(s, matchId, m, res.value);
    return 200, Some(res.value.result);
  }
}
