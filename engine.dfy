/**
  The hand-judgment rules of shared/game/engine.ts: the `beats` table,
  `judgeRound` and `isValidHand`.
 */
module Engine {
  import opened Common

  datatype Hand = Rock | Paper | Scissors

  /** `outcome` of a round, seen from the first move's player. */
  datatype Outcome = Win | Lose | Draw

  /** The source's `MatchMove`: who played which hand. */
  datatype MatchMove = MatchMove(playerId: Id, hand: Hand)

  datatype MatchResult = MatchResult(winner: Option<Id>, loser: Option<Id>, outcome: Outcome)

  /** The `beats` table: the one hand that each hand defeats. */
  function Beats(h: Hand): Hand
  {
    match h
    case Rock => Scissors
    case Paper => Rock
    case Scissors => Paper
  }

  /**
    An independent description of the cycle: hands placed at 0, 1, 2 in the
    order rock, paper, scissors; a hand beats the one just before it, cyclically.
   */
  function CycleIndex(h: Hand): int
  {
    match h
    case Rock => 0
    case Paper => 1
    case Scissors => 2
  }

  predicate DefeatsOnCycle(x: Hand, y: Hand)
  {
    (CycleIndex(x) - CycleIndex(y)) % 3 == 1
  }

  /** The `beats` table is the cycle rock > scissors > paper > rock. */
  lemma BeatsIsCycle(x: Hand, y: Hand)
    ensures Beats(x) == y <==> DefeatsOnCycle(x, y)
  {
  }

  /** No hand beats itself; of two distinct hands exactly one beats the other. */
  lemma BeatsIsTournament(x: Hand, y: Hand)
    ensures Beats(x) != x
    ensures x != y ==> (Beats(x) == y <==> Beats(y) != x)
  {
  }

  /**
    `judgeRound`. The final `throw` of the source is unreachable for hands of
    the three kinds, which the `assert false` in the last branch records.
   */
  function JudgeRound(a: MatchMove, b: MatchMove): (r: MatchResult)
    ensures r.outcome == Draw <==> a.hand == b.hand
    ensures r.outcome == Win <==> DefeatsOnCycle(a.hand, b.hand)
    ensures r.outcome == Lose <==> DefeatsOnCycle(b.hand, a.hand)
    ensures r.outcome == Draw ==> r.winner == None && r.loser == None
    ensures r.outcome == Win ==> r.winner == Some(a.playerId) && r.loser == Some(b.playerId)
    ensures r.outcome == Lose ==> r.winner == Some(b.playerId) && r.loser == Some(a.playerId)
  {
    if a.hand == b.hand then
      MatchResult(None, None, Draw)
    else if Beats(a.hand) == b.hand then
      MatchResult(Some(a.playerId), Some(b.playerId), Win)
    else if Beats(b.hand) == a.hand then
      MatchResult(Some(b.playerId), Some(a.playerId), Lose)
    else
      assert false; MatchResult(None, None, Draw)
  }

  /** The winner is missing exactly when the loser is, exactly when the round is a draw. */
  lemma JudgeRoundWinnerLoserPresence(a: MatchMove, b: MatchMove)
    ensures var r := JudgeRound(a, b);
      (r.winner == None <==> r.loser == None) && (r.winner == None <==> r.outcome == Draw)
  {
  }

  /** Swapping the moves turns a win into a loss and exchanges winner and loser; a draw stays one. */
  lemma JudgeRoundSwap(a: MatchMove, b: MatchMove)
    ensures var r, q := JudgeRound(a, b), JudgeRound(b, a);
      q.winner == r.winner && q.loser == r.loser &&
      q.outcome == (match r.outcome case Win => Lose case Lose => Win case Draw => Draw)
  {
  }

  /** The cases pinned down by tests/engine.test.ts. */
  lemma JudgeRoundExamples()
    ensures JudgeRound(MatchMove("a", Rock), MatchMove("b", Rock)) == MatchResult(None, None, Draw)
    ensures JudgeRound(MatchMove("a", Rock), MatchMove("b", Scissors)) == MatchResult(Some("a"), Some("b"), Win)
    ensures JudgeRound(MatchMove("a", Paper), MatchMove("b", Rock)).winner == Some("a")
    ensures JudgeRound(MatchMove("a", Scissors), MatchMove("b", Rock)) == MatchResult(Some("b"), Some("a"), Lose)
  {
  }

  /** The wire name of each hand. */
  function HandName(h: Hand): string
  {
    match h
    case Rock => "rock"
    case Paper => "paper"
    case Scissors => "scissors"
  }

  /** A value of unknown type, as `isValidHand` receives it. */
  datatype JsValue = JsString(s: string) | JsNumber(n: int) | JsBool(b: bool) | JsNull | JsUndefined | JsObject

  /** `isValidHand`: the value is one of the three hand names. */
  predicate IsValidHand(v: JsValue)
  {
    v == JsString("rock") || v == JsString("paper") || v == JsString("scissors")
  }

  /** Exactly the wire names of the hands are valid. */
  lemma IsValidHandMeaning(v: JsValue)
    ensures IsValidHand(v) <==> exists h: Hand :: v == JsString(HandName(h))
  {
    if IsValidHand(v) {
      var h := if v == JsString("rock") then Rock else if v == JsString("paper") then Paper else Scissors;
      assert v == JsString(HandName(h));
    }
  }

  /** The rejected values of tests/engine.test.ts. */
  lemma IsValidHandExamples()
    ensures IsValidHand(JsString("rock")) && IsValidHand(JsString("paper")) && IsValidHand(JsString("scissors"))
    ensures !IsValidHand(JsString("lizard")) && !IsValidHand(JsNull) && !IsValidHand(JsNumber(123))
  {
  }
}
