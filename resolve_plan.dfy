/**
  The resolution planner of edge-functions/_shared/logic/resolveMatch.ts:
  `planResolution` and the `ResolutionPlan` it returns.
 */
module ResolvePlan {
  import opened Common
  import opened Engine

  datatype MatchContext = MatchContext(
    challengerId: Id,
    opponentId: Id,
    roomId: Id,
    challengerName: Option<string>,
    opponentName: Option<string>)

  /** A submitted move (`player_id`, `hand`). */
  datatype Move = Move(playerId: Id, hand: Hand)

  /** The part of a player's asset row the planner reads. */
  datatype StarBalance = StarBalance(playerId: Id, stars: int)

  /** Why a won round moves no star, or that it does. */
  datatype WinDetail = NoAssetRecord | NoStarToLose | StarCaptured

  /**
    The narrative message, kept as a tag: which template is used and the
    values it is filled with (a missing name falls back to a fixed word).
   */
  datatype PlanMessage =
    | DrawMessage(challengerName: Option<string>, challengerHand: Hand, opponentName: Option<string>, opponentHand: Hand)
    | WinMessage(winnerName: Option<string>, detail: WinDetail)

  datatype ResolutionPlan = ResolutionPlan(
    message: PlanMessage,
    winnerId: Option<Id>,
    loserId: Option<Id>,
    outcome: Outcome,
    shouldTransferStar: bool)

  /** The asset record the planner picks for a player id: the challenger's if the id is the challenger's. */
  function AssetFor(ctx: MatchContext, id: Id, challengerAsset: Option<StarBalance>, opponentAsset: Option<StarBalance>): Option<StarBalance>
  {
    if id == ctx.challengerId then challengerAsset else opponentAsset
  }

  function NameFor(ctx: MatchContext, id: Id): Option<string>
  {
    if id == ctx.challengerId then ctx.challengerName else ctx.opponentName
  }

  function JudgeMoves(challengerMove: Move, opponentMove: Move): MatchResult
  {
    JudgeRound(MatchMove(challengerMove.playerId, challengerMove.hand), MatchMove(opponentMove.playerId, opponentMove.hand))
  }

  /** `planResolution`. */
  function PlanResolution(
    ctx: MatchContext,
    challengerMove: Move,
    opponentMove: Move,
    challengerAsset: Option<StarBalance>,
    opponentAsset: Option<StarBalance>): (p: ResolutionPlan)
    ensures p.shouldTransferStar ==> p.winnerId.Some? && p.loserId.Some?
    ensures p.winnerId.None? <==> p.outcome == Draw
    ensures p.loserId.None? <==> p.outcome == Draw
  {
    var result := JudgeMoves(challengerMove, opponentMove);
    if result.outcome == Draw || result.winner.None? || result.loser.None? then
      ResolutionPlan(
        DrawMessage(ctx.challengerName, challengerMove.hand, ctx.opponentName, opponentMove.hand),
        None, None, Draw, false)
    else
      var winnerAsset := AssetFor(ctx, result.winner.value, challengerAsset, opponentAsset);
      var loserAsset := AssetFor(ctx, result.loser.value, challengerAsset, opponentAsset);
      var winnerName := NameFor(ctx, result.winner.value);
      if winnerAsset.None? || loserAsset.None? then
        ResolutionPlan(WinMessage(winnerName, NoAssetRecord), result.winner, result.loser, result.outcome, false)
      else if loserAsset.value.stars <= 0 then
        ResolutionPlan(WinMessage(winnerName, NoStarToLose), result.winner, result.loser, result.outcome, false)
      else
        ResolutionPlan(WinMessage(winnerName, StarCaptured), result.winner, result.loser, result.outcome, true)
  }

  /** Equal hands: a draw, no winner or loser, no transfer. */
  lemma PlanDraw(ctx: MatchContext, cm: Move, om: Move, ca: Option<StarBalance>, oa: Option<StarBalance>)
    requires cm.hand == om.hand
    ensures var p := PlanResolution(ctx, cm, om, ca, oa);
      p.outcome == Draw && p.winnerId == None && p.loserId == None && !p.shouldTransferStar
  {
  }

  /** Differing hands: outcome, winner and loser are exactly `judgeRound`'s. */
  lemma PlanFollowsJudgeRound(ctx: MatchContext, cm: Move, om: Move, ca: Option<StarBalance>, oa: Option<StarBalance>)
    requires cm.hand != om.hand
    ensures var p, r := PlanResolution(ctx, cm, om, ca, oa), JudgeMoves(cm, om);
      p.outcome == r.outcome && p.winnerId == r.winner && p.loserId == r.loser && p.outcome != Draw
  {
  }

  /**
    The moves belong to the players the context names, and they are two
    different players: the situation in which the planner is called.
   */
  predicate MovesMatchContext(ctx: MatchContext, cm: Move, om: Move)
  {
    cm.playerId == ctx.challengerId && om.playerId == ctx.opponentId && ctx.challengerId != ctx.opponentId
  }

  /** With consistent moves, the winner's record is the challenger's exactly when the challenger's hand wins. */
  lemma PlanWinnerAsset(ctx: MatchContext, cm: Move, om: Move, ca: Option<StarBalance>, oa: Option<StarBalance>)
    requires MovesMatchContext(ctx, cm, om)
    requires cm.hand != om.hand
    ensures var r := JudgeMoves(cm, om);
      (r.winner == Some(ctx.challengerId) <==> Beats(cm.hand) == om.hand) &&
      AssetFor(ctx, r.winner.value, ca, oa) == (if Beats(cm.hand) == om.hand then ca else oa) &&
      AssetFor(ctx, r.loser.value, ca, oa) == (if Beats(cm.hand) == om.hand then oa else ca)
  {
  }

  /** The stars of the side whose hand loses (meaningful only when the hands differ). */
  function LosingSideStars(cm: Move, om: Move, ca: StarBalance, oa: StarBalance): int
  {
    if Beats(cm.hand) == om.hand then oa.stars else ca.stars
  }

  /**
    A star moves exactly when the hands differ, both records are present and
    the loser still has a star.
   */
  lemma PlanTransferRule(ctx: MatchContext, cm: Move, om: Move, ca: Option<StarBalance>, oa: Option<StarBalance>)
    requires MovesMatchContext(ctx, cm, om)
    ensures PlanResolution(ctx, cm, om, ca, oa).shouldTransferStar <==>
      cm.hand != om.hand && ca.Some? && oa.Some? && LosingSideStars(cm, om, ca.value, oa.value) > 0
  {
    if cm.hand != om.hand {
      PlanWinnerAsset(ctx, cm, om, ca, oa);
    }
  }

  /** A missing record suppresses the transfer but the winner and loser are still reported. */
  lemma PlanMissingRecord(ctx: MatchContext, cm: Move, om: Move, ca: Option<StarBalance>, oa: Option<StarBalance>)
    requires MovesMatchContext(ctx, cm, om)
    requires cm.hand != om.hand
    requires ca.None? || oa.None?
    ensures var p := PlanResolution(ctx, cm, om, ca, oa);
      !p.shouldTransferStar && p.winnerId.Some? && p.loserId.Some? && p.message.WinMessage? && p.message.detail == NoAssetRecord
  {
    PlanWinnerAsset(ctx, cm, om, ca, oa);
  }

  /** A loser without stars suppresses the transfer. */
  lemma PlanLoserWithoutStars(ctx: MatchContext, cm: Move, om: Move, ca: StarBalance, oa: StarBalance)
    requires MovesMatchContext(ctx, cm, om)
    requires cm.hand != om.hand
    requires LosingSideStars(cm, om, ca, oa) <= 0
    ensures var p := PlanResolution(ctx, cm, om, Some(ca), Some(oa));
      !p.shouldTransferStar && p.winnerId.Some? && p.message == WinMessage(NameFor(ctx, p.winnerId.value), NoStarToLose)
  {
    PlanWinnerAsset(ctx, cm, om, Some(ca), Some(oa));
  }

  /** The two cases of tests/resolveMatchPlan.test.ts. */
  lemma PlanExamples()
    ensures var ctx := MatchContext("c", "o", "r", Some("challenger"), Some("opponent"));
      var p := PlanResolution(ctx, Move("c", Rock), Move("o", Rock), Some(StarBalance("c", 2)), Some(StarBalance("o", 2)));
      p.outcome == Draw && !p.shouldTransferStar && p.winnerId == None
    ensures var ctx := MatchContext("c", "o", "r", Some("challenger"), Some("opponent"));
      var p := PlanResolution(ctx, Move("c", Rock), Move("o", Scissors), Some(StarBalance("c", 2)), Some(StarBalance("o", 3)));
      p.outcome == Win && p.winnerId == Some("c") && p.shouldTransferStar
  {
  }
}
