# Limited-Janken in Dafny

Limited-Janken is a rock-paper-scissors tournament. Players in a room hold
stars, a limited stock of rock, paper and scissors cards, cash and a loan.
They challenge each other to rounds and trade assets. A player who runs out
of stars, or whose cash falls below the loan, is penalised.

This project models three layers:

- **Hand judgment.** The `beats` table, `judgeRound` and `isValidHand` are
  in module `Engine` (`engine.dfy`).
- **Resolution planner.** `planResolution` is in module `ResolvePlan`
  (`resolve_plan.dfy`).
- **Edge functions.** The server-side handlers act on one store. Module
  `Store` (`store.dfy`) defines the store as a class with one field per
  table: players, player assets, matches, match moves, trade offers, rooms,
  and the append-only star-transfer, used-card, penalty and event logs.

Each edge function is a method in a module of its own. It checks its guards
in the source's order and returns the HTTP status the source returns:

| edge function | module |
|---|---|
| propose match | `ProposeMatch` |
| accept match | `AcceptMatch` |
| set a card | `MoveSet` |
| open a card | `MoveOpen` |
| resolve a round | `ResolveMatch` |
| create a trade offer | `CreateTradeOffer` |
| accept a trade offer | `AcceptTradeOffer` |
| cancel a trade offer | `CancelTrade` |
| settle a trade | `SettleTrade` |
| evaluate defeats | `EvaluateDefeats` |
| start the game | `StartGame` |

On success a handler writes the new rows and appends to the logs. On a
failed guard it changes nothing. A handler's `ensures` states its whole new
state, and lemmas beside it state what the source promises about that state:
- star and asset conservation, for trades and rounds between two different players;
- non-negativity of every asset row;
- the settle guards after an offer is accepted;
- no penalty right after the game starts;
- resolve agrees with the planner.

The handler bodies follow the code as written, including its gaps:
- a match can be resolved again;
- `set` rows are appended, never replaced;
- cancel ignores the offer's status;
- accepting an offer replaces a reserved taker;
- the taker's room is never checked;
- a player may trade with itself; settling then writes one row twice, its
  columns move by give − take, and a star delta logs a transfer from the
  player to itself (`SettleTrade.SelfTradeMintsStar`).

Three answers are easy to get wrong:
- `propose_match` answers 400 when a player is missing or the rooms differ
  (edge-functions/propose_match.ts:39).
- `start_game` answers 200 for a room id with no row, since the room update
  then touches no row (edge-functions/start_game.ts:29-32).
- `start_game` answers 500, before any write, when the deadline lies outside
  the range a JavaScript `Date` can hold: `toISOString` then throws
  (edge-functions/start_game.ts:27).

Ids are non-empty strings (`Common.Id`). The id the store assigns to a new
match or offer is a parameter, required to be unused. The current time is a
parameter of `StartGame`.

## Model

| member | source | states |
|---|---|---|
| Engine.Beats | shared/game/engine.ts:14-18 | the `beats` table; `BeatsIsCycle` and `BeatsIsTournament` characterise it |
| Engine.BeatsIsCycle | shared/game/engine.ts:14-18 | `beats[x] == y` exactly when x is one step ahead of y on the cycle rock → scissors → paper → rock |
| Engine.BeatsIsTournament | shared/game/engine.ts:14-18 | no hand beats itself; of two distinct hands exactly one beats the other |
| Engine.JudgeRound | shared/game/engine.ts:20-34 | draw iff the hands are equal, with no winner or loser; "win" iff a's hand beats b's, winner a and loser b; "lose" iff b's beats a's, winner b and loser a; the throw is unreachable |
| Engine.JudgeRoundWinnerLoserPresence | shared/game/engine.ts:21-31 | winner is null iff loser is null iff the outcome is a draw |
| Engine.JudgeRoundSwap | shared/game/engine.ts:20-31 | swapping the moves turns win into lose and exchanges winner and loser; a draw stays a draw |
| Engine.JudgeRoundExamples | shared/game/engine.ts:20-31 | rock vs rock is a draw, rock beats scissors, paper beats rock, scissors loses to rock |
| Engine.IsValidHand | shared/game/engine.ts:36-38 | the `===` chain of `isValidHand`; `IsValidHandMeaning` characterises it |
| Engine.IsValidHandMeaning | shared/game/engine.ts:36-38 | `isValidHand` holds exactly for the strings "rock", "paper" and "scissors", the names of the three hands |
| Engine.IsValidHandExamples | shared/game/engine.ts:36-38 | other strings, null and numbers are rejected |
| ResolvePlan.PlanResolution | edge-functions/_shared/logic/resolveMatch.ts:29-82 | a star transfer is only planned with both a winner and a loser; winnerId and loserId are null exactly for a draw |
| ResolvePlan.PlanDraw | edge-functions/_shared/logic/resolveMatch.ts:41-49 | equal hands: draw, no winner or loser, no transfer |
| ResolvePlan.PlanFollowsJudgeRound | edge-functions/_shared/logic/resolveMatch.ts:36-39 | for different hands, outcome, winnerId and loserId are `judgeRound`'s |
| ResolvePlan.PlanWinnerAsset | edge-functions/_shared/logic/resolveMatch.ts:51-53 | when the moves belong to the context's players, the winner's asset is the challenger's exactly when the challenger wins |
| ResolvePlan.AssetFor | edge-functions/_shared/logic/resolveMatch.ts:51-52 | the record picked for an id, the challenger's when the id is the challenger's; `PlanWinnerAsset` characterises it |
| ResolvePlan.NameFor | edge-functions/_shared/logic/resolveMatch.ts:53 | the winner's name, the challenger's when the id is the challenger's; `PlanLoserWithoutStars` states the message built from it |
| ResolvePlan.JudgeMoves | edge-functions/_shared/logic/resolveMatch.ts:36-39 | `judgeRound` on the two moves; `PlanFollowsJudgeRound` and `PlanWinnerAsset` characterise it |
| ResolvePlan.PlanTransferRule | edge-functions/_shared/logic/resolveMatch.ts:41-81 | shouldTransferStar iff the hands differ, both asset records are present and the loser has stars > 0 |
| ResolvePlan.PlanMissingRecord | edge-functions/_shared/logic/resolveMatch.ts:55-63 | a missing asset record gives no transfer, but winner and loser are still reported |
| ResolvePlan.PlanLoserWithoutStars | edge-functions/_shared/logic/resolveMatch.ts:65-73 | a loser with stars <= 0 gives no transfer |
| ResolvePlan.PlanExamples | edge-functions/_shared/logic/resolveMatch.ts:41-81 | a drawn plan and a plan with a transfer, on concrete inputs |
| Store.KeyIndex | edge-functions/settle_trade.ts:17 | every asset key appears in the allowed-keys list, at the returned index |
| Store.KeyName | edge-functions/settle_trade.ts:17 | the JSON key of each asset column; `NormalizedMeaning` states that entries are looked up under it |
| Store.CardKey | edge-functions/move_set.ts:41 | the card column of a hand; `MoveSet.SpendCard` states that a set move spends exactly that column |
| Store.Assets.With | edge-functions/settle_trade.ts:112-113 | writing one column changes that column only, and never the loan |
| Store.Assets.Extensionality | edge-functions/settle_trade.ts:98-99 | two rows that agree on all five columns and the loan are equal |
| Store.FindPlayer | edge-functions/propose_match.ts:27-37 | a found player is in the table with that id; none found means no row has that id |
| Store.Lookup | edge-functions/move_set.ts:28-32 | a `.single()` asset read: the row when the id has one, none otherwise; `MoveSet.MoveSet` and `ResolveMatch.TransferStar` state what follows from it |
| Store.RoomPlayers | edge-functions/evaluate_defeats.ts:26-29 | exactly the players of the room, no more rows than the table |
| Store.SetRows | edge-functions/resolve_match.ts:40-44 | exactly the `set` rows of the match |
| Store.OpenPlayerIds | edge-functions/resolve_match.ts:73 | the players with an open row in the match; `ResolveMatch.ResolveRound` states the guard it feeds |
| Store.FirstSetHand | edge-functions/resolve_match.ts:81-82 | none iff the player has no set row; otherwise the hand of the earliest set row of that player |
| Store.FirstSetHandFound | edge-functions/resolve_match.ts:81-84 | a player's hand is found among the match's set rows iff the player has a set row for it, the guard of move_open |
| Store.HasSetRow | edge-functions/move_open.ts:27-40 | some set row of the match belongs to the player; `MoveOpen.FindSetRow` finds one iff it holds and `FirstSetHandFound` equates it with resolve's lookup |
| SettleTrade.Normalized | edge-functions/settle_trade.ts:19-30 | `normalizeAssets`; `NormalizedMeaning` characterises it and `NormalizeAssets` is its loop |
| SettleTrade.NormalizedMeaning | edge-functions/settle_trade.ts:19-30 | a non-object gives {}; otherwise a key is kept iff it is allowed and its entry is present and finite, with that entry's value |
| SettleTrade.NormalizeAssets | edge-functions/settle_trade.ts:19-30 | the loop over the allowed keys computes exactly the normalised map |
| SettleTrade.Amount | edge-functions/settle_trade.ts:102-103 | `give[key] ?? 0`; `MakerAfter`, `TakerAfter` and `SelfTradeSettlement` state the columns in terms of it |
| SettleTrade.MakerAfter | edge-functions/settle_trade.ts:101-104 | every column of the maker's row becomes old − give + take, with absent keys counted as 0; the loan is kept |
| SettleTrade.TakerAfter | edge-functions/settle_trade.ts:101-105 | every column of the taker's row becomes old + give − take; the loan is kept |
| SettleTrade.MakerNext | edge-functions/settle_trade.ts:104 | the maker's next value of a key; `MakerAfter` and `SettlementConserves` characterise it |
| SettleTrade.TakerNext | edge-functions/settle_trade.ts:105 | the taker's next value of a key; `TakerAfter` and `SettlementConserves` characterise it |
| SettleTrade.Feasible | edge-functions/settle_trade.ts:106-111 | no key of either side would go negative; `SettleBalances` succeeds exactly when it holds |
| SettleTrade.SettleBalances | edge-functions/settle_trade.ts:98-114 | the per-key loop succeeds iff no column of either side would go negative; the result is the maker's and the taker's new rows; every column of the two computed rows sums to the old sum and is non-negative |
| SettleTrade.SettlementConserves | edge-functions/settle_trade.ts:104-105 | for every key, the maker's and the taker's computed new values sum to the old sum, before either is written |
| SettleTrade.SettlementKeepsUntradedKey | edge-functions/settle_trade.ts:102-105 | a key in neither give nor take leaves both sides unchanged |
| SettleTrade.SettlementKeepsLoans | edge-functions/settle_trade.ts:17-30 | the loan is never traded |
| SettleTrade.SettlementKeepsNonNegative | edge-functions/settle_trade.ts:106-113 | a feasible settlement of non-negative rows gives non-negative rows |
| SettleTrade.StarTransfersFor | edge-functions/settle_trade.ts:134-148 | at most one transfer, none iff the star delta is 0; the amount is positive, in the offer's room, between maker and taker; between two different players, its net flow from maker to taker equals give.stars − take.stars |
| SettleTrade.StarDelta | edge-functions/settle_trade.ts:135 | give.stars − take.stars with absent keys as 0; `StarTransfersFor` ties the transfer list to it |
| SettleTrade.DeriveStarTransfers | edge-functions/settle_trade.ts:134-140 | the pushes build exactly that transfer list |
| SettleTrade.SettleGuardsPass | edge-functions/settle_trade.ts:62-74 | a taker is set and the status is accepted; `SettleTradeOffer` answers 400 unless it holds, and `AcceptTradeOffer.AcceptedOfferIsSettleable` shows accepting makes it hold |
| SettleTrade.SettlementFeasible | edge-functions/settle_trade.ts:98-114 | the verdict of the per-key loop on the offer's two rows; `SettleTradeOffer` answers 200 when it holds and 400 otherwise |
| SettleTrade.SettledAssets | edge-functions/settle_trade.ts:116-125 | the asset table after both row updates; `SettledAssetsProperties` characterises it |
| SettleTrade.SettledAssetsProperties | edge-functions/settle_trade.ts:116-125 | both rows are non-negative; between two different players every column of the pair is conserved; other rows are unchanged; a non-negative table stays non-negative |
| SettleTrade.SelfTradeSettlement | edge-functions/settle_trade.ts:79-140 | when the taker is the maker, the one row ends as old + give − take (the taker write), and a non-zero star delta logs a single transfer from the player to itself |
| SettleTrade.SelfTradeMintsStar | edge-functions/settle_trade.ts:62-140 | a self-trade giving one star and taking nothing passes every guard, leaves the player one star richer and logs a one-star self-transfer |
| SettleTrade.ApplySettlement | edge-functions/settle_trade.ts:116-159 | the writes: both asset rows, the offer settled, the star transfer if any, one event; nothing else |
| SettleTrade.SettleTradeOffer | edge-functions/settle_trade.ts:49-162 | 404 for a missing offer, 400 for no taker or a status other than accepted, 500 for a missing asset row, 400 when a column would go negative, all before any write; on 200, the settled state, both rows non-negative, and every column conserved when maker and taker differ |
| ResolveMatch.RoundComplete | edge-functions/resolve_match.ts:66-89 | two set rows, both players opened and both set; `ResolveRound` and `ResolveMatch` state that resolution proceeds exactly when it holds |
| ResolveMatch.TransferApplies | edge-functions/resolve_match.ts:98-114 | the round has a winner and a loser, both rows exist and the loser holds a star; `TransferRuleAgreesWithPlanner` equates it with the planner's rule |
| ResolveMatch.PlayedHand | edge-functions/resolve_match.ts:91-92 | the hand of a player's first set row; `ResolveRound` and `SelfMatchIsDrawn` characterise it |
| ResolveMatch.RoundResult | edge-functions/resolve_match.ts:91-93 | `judgeRound` of challenger and opponent on their first set rows; `ResolveMatch.ResolveMatch` returns it and `SelfMatchIsDrawn` shows a self-match draws |
| ResolveMatch.MoveStar | edge-functions/resolve_match.ts:115-126 | the two star updates; `MoveStarProperties` characterises it |
| ResolveMatch.Max0 | edge-functions/resolve_match.ts:124 | `Math.max(0, x)`; `MoveStarProperties` shows it never clamps when the transfer applies |
| ResolveMatch.MoveStarProperties | edge-functions/resolve_match.ts:114-126 | the winner gains one star and the loser loses exactly one (the `max(0, …)` never clamps); between two different players their total is conserved and nothing else changes |
| ResolveMatch.MoveStarKeepsNonNegative | edge-functions/resolve_match.ts:118-124 | the star update never makes a row negative |
| ResolveMatch.WinnerIsNotLoser | shared/game/engine.ts:25-31 | moves of two different players never give winner == loser |
| ResolveMatch.TransferRuleAgreesWithPlanner | edge-functions/resolve_match.ts:98-114 | the handler's inline transfer rule, outcome, winner and loser equal `planResolution`'s for the same moves and star balances |
| ResolveMatch.StarStepFor | edge-functions/resolve_match.ts:96-133 | the outcome of the winner branch: rows, transfer log and event; `StarStepProperties` characterises it |
| ResolveMatch.StarStepProperties | edge-functions/resolve_match.ts:96-133 | a draw moves no star; a transfer happens exactly when the rule applies, and is one star from loser to winner with the winner's event; rows stay non-negative |
| ResolveMatch.TransferStar | edge-functions/resolve_match.ts:96-133 | the branch computes exactly that step |
| ResolveMatch.ResolutionFor | edge-functions/resolve_match.ts:81-133 | the result, star step and used-card rows of a complete round; `ResolutionKeepsNonNegative` and `ResolutionConservesStars` characterise it |
| ResolveMatch.ResolutionKeepsNonNegative | edge-functions/resolve_match.ts:114-126 | resolving keeps every asset row non-negative |
| ResolveMatch.ResolutionConservesStars | edge-functions/resolve_match.ts:98-131 | the two players' total stars are conserved, and a player who challenged itself keeps its row; other rows are untouched; a star moves iff the round has a winner and the loser holds a star |
| ResolveMatch.SelfMatchIsDrawn | edge-functions/resolve_match.ts:81-93 | a player who challenged itself plays the same first set row on both sides, so the round is drawn |
| ResolveMatch.ResolvedMatchResolvesAgain | edge-functions/resolve_match.ts:27-38 | the status is never checked: a resolved match passes the guards again with the same transfer |
| ResolveMatch.ResolvedMatchMovesSecondStar | edge-functions/resolve_match.ts:27-131 | after a won round between two players with at least two stars each, the resolved match passes the guards again and the second resolution moves a second star: loser −2, winner +2 |
| ResolveMatch.ResolveRound | edge-functions/resolve_match.ts:66-93 | succeeds iff there are two set rows and both players have opened and set; each hand is the player's first set row |
| ResolveMatch.ApplyResolution | edge-functions/resolve_match.ts:136-158 | the writes: stars, transfer row, match resolved, two used-card rows, one event |
| ResolveMatch.ResolveMatch | edge-functions/resolve_match.ts:27-160 | 404 for a missing match, 400 for an incomplete round, no write on failure; on 200, the judged result of challenger vs opponent and the resolved state; assets stay non-negative |
| MoveSet.SpendCard | edge-functions/move_set.ts:41-52 | the chosen hand's count drops by exactly one; the other columns and the loan are unchanged; non-negativity is kept |
| MoveSet.SpendCardCostsOne | edge-functions/move_set.ts:49-52 | a set move costs exactly one card in total |
| MoveSet.SetRowAfterAppend | edge-functions/move_set.ts:66-68 | after the append the player has a set row for the match; earlier rows stay |
| MoveSet.MoveSet | edge-functions/move_set.ts:28-77 | 404 without an asset row, 400 without a card of that hand, no write on failure; on 200, one card spent and one set row appended; the match is not checked |
| MoveOpen.FindSetRow | edge-functions/move_open.ts:27-33 | finds a set row of this match and player iff one exists |
| MoveOpen.MoveOpen | edge-functions/move_open.ts:27-53 | 400 and no write unless the player has set in this match; otherwise one open row appended, with no de-duplication; assets and matches untouched |
| MoveOpen.OpenKeepsSetRows | edge-functions/move_open.ts:42-44 | an open row changes no match's set rows |
| EvaluateDefeats.PlayerPenalties | edge-functions/evaluate_defeats.ts:43-48 | one player's penalties; `PlayerPenaltiesMeaning` characterises it |
| EvaluateDefeats.PlayerPenaltiesMeaning | edge-functions/evaluate_defeats.ts:43-48 | a stars penalty iff stars <= 0 and, independently, a loan penalty iff cash < loan; stars first when both fire |
| EvaluateDefeats.OwnPenalties | edge-functions/evaluate_defeats.ts:41-48 | at most two penalties, all for that player in the room |
| EvaluateDefeats.Penalties | edge-functions/evaluate_defeats.ts:38-49 | at most two per player, each for a listed player of the room |
| EvaluateDefeats.PenaltiesMembership | edge-functions/evaluate_defeats.ts:40-49 | a player is penalised for stars (for the loan) iff it is listed, has an asset row and has stars <= 0 (cash < loan); players without a row are skipped |
| EvaluateDefeats.NoPenaltiesForSolventPlayers | edge-functions/evaluate_defeats.ts:43-48 | players with stars > 0 and cash >= loan earn no penalty |
| EvaluateDefeats.PenaltyEvent | edge-functions/evaluate_defeats.ts:54-57 | the event of one penalty: its room, player and reason; `PenaltyEvents` and `EvaluateDefeats` state one per penalty |
| EvaluateDefeats.PenaltyEvents | edge-functions/evaluate_defeats.ts:53-58 | one event per penalty, in the same order |
| EvaluateDefeats.PushPenalties | edge-functions/evaluate_defeats.ts:41-48 | one loop iteration appends exactly that player's penalties |
| EvaluateDefeats.CollectPenalties | edge-functions/evaluate_defeats.ts:38-49 | the loop computes exactly the penalties of the players in order |
| EvaluateDefeats.EvaluateDefeats | edge-functions/evaluate_defeats.ts:26-61 | 200 and the count of penalties, at most two per room player; penalties and events appended, nothing when there are none; assets untouched |
| ProposeMatch.SameRoom | edge-functions/propose_match.ts:39 | both players exist and share a room; `ProposeMatch`, `ProposedMatchInPlayersRoom` and `SelfChallengeAllowed` state its use |
| ProposeMatch.ProposeMatch | edge-functions/propose_match.ts:27-67 | 400 and no write when a player is missing or the rooms differ; otherwise a proposed match in the challenger's room and one event |
| ProposeMatch.ProposedMatchInPlayersRoom | edge-functions/propose_match.ts:39-55 | the new match's room is both players' room, and existing matches are untouched |
| ProposeMatch.SelfChallengeAllowed | edge-functions/propose_match.ts:39 | nothing forbids challenger == opponent |
| AcceptMatch.AcceptMatch | edge-functions/accept_match.ts:27-62 | 404 for a missing match, 403 for anyone but the invited opponent; otherwise only the status becomes accepted, whatever it was, plus one event |
| CreateTradeOffer.CreateTradeOffer | edge-functions/create_trade_offer.ts:29-58 | 404 and no write for a missing maker; otherwise the offer in the maker's room with taker, give and take as given, plus one event; the taker's room is not checked |
| AcceptTradeOffer.AcceptTradeOffer | edge-functions/accept_trade_offer.ts:27-62 | 404 for a missing offer, 400 unless it is open; otherwise accepted with the caller as taker, replacing any reserved taker, plus one event; the offer then passes settle's guards |
| AcceptTradeOffer.AcceptedOfferIsSettleable | edge-functions/accept_trade_offer.ts:40-50 | an accepted offer passes settle's guards and is no longer open; an open offer does not pass them |
| CancelTrade.MayCancel | edge-functions/cancel_trade.ts:40 | the caller is the maker or the taker; `MayCancelMeaning` characterises it |
| CancelTrade.MayCancelMeaning | edge-functions/cancel_trade.ts:40 | maker or taker only; with no taker, only the maker |
| CancelTrade.CancelTrade | edge-functions/cancel_trade.ts:27-62 | 404 for a missing offer, 403 for others; otherwise cancelled whatever the status, settled included, plus one event; assets untouched |
| StartGame.StartedAssets | edge-functions/start_game.ts:53-68 | the asset table after the upserts; `StartedAssetsProperties` characterises it |
| StartGame.InitialAssets | edge-functions/start_game.ts:57-64 | the upserted row: 3 stars, 4 of each card, cash and loan the loan amount; `StartedAssetsProperties` states every room player holds it |
| StartGame.StartedRooms | edge-functions/start_game.ts:29-32 | the room table after the update; `StartGame` states the room is running with the deadline, or no row changes |
| StartGame.EndAt | edge-functions/start_game.ts:27 | the deadline in milliseconds; `StartGame` states it is returned and stored |
| StartGame.InDateRange | edge-functions/start_game.ts:27 | the deadline lies within ±8.64·10^15 ms, the range of a `Date`; `StartGame` answers 500 exactly when it fails |
| StartGame.SchemaAcceptsOutOfRangeDeadline | edge-functions/start_game.ts:7-27 | a time limit of 10^13 s passes the schema, yet from any clock reading >= 0 its deadline is out of a `Date`'s range |
| StartGame.ModestDeadlineInRange | edge-functions/start_game.ts:27 | from a clock reading in the first half of the range, limits up to about 100000 years give a valid deadline |
| StartGame.StartedAssetsProperties | edge-functions/start_game.ts:53-68 | every room player holds stars 3, four of each card, and cash = loan = the loan amount; other rows are unchanged and no row is removed; with a loan >= 0 rows stay non-negative |
| StartGame.StartedPlayersHaveNoPenalties | edge-functions/start_game.ts:53-68 | right after the start, evaluate-defeats finds no penalty in the room |
| StartGame.StartedAssetsStep | edge-functions/start_game.ts:54-67 | each upsert adds one room player's initial row |
| StartGame.StartedAssetsRoomPlayers | edge-functions/start_game.ts:41-44 | only the room's players are initialised |
| StartGame.InitialiseAssets | edge-functions/start_game.ts:53-68 | the upsert loop computes exactly the started table |
| StartGame.StartGame | edge-functions/start_game.ts:5-79 | 400 and no write for a time limit under 60 s or a negative loan; 500 and no write when now + 1000·limit is outside ±8.64·10^15 ms; otherwise end_at = now + 1000·limit, the room running, the assets started and one event |

## Left out

- HTTP and validation: `serve`, the 405 for non-POST requests, JSON parsing and zod's UUID checks. Inputs are taken as valid ids, hands and integers.
- move_check.ts calls a database function whose body is not shown. move_check.ts is not part of this model.
- Concurrency: each handler is one step on the store, and writes issued together by `Promise.all` are one simultaneous assignment. When a player settles a trade with itself, both updates target one row and the model applies the maker row and then the taker row, so the row ends as old + give − take; under the other order it would end as old − give + take. Either way the holdings change and one transfer from the player to itself is logged (`SettleTrade.SelfTradeSettlement`).
- Partial failures: the 500 answers after a failed store write and errors of the store client. The 500s kept are settle's missing asset row and start's out-of-range deadline, both before any write.
- Timestamps (`updated_at`, `resolved_at`) are dropped. `end_at` is integer milliseconds, with the current time as a parameter.
- `Number()` coercion and fractional amounts: asset values and JSON entries are integers, and an entry is either a finite integer or non-finite. A fractional loan amount is not modelled.
- Event texts and names are not modelled. An event is a tag carrying the hands, the winner, the penalty reason or the time limit.
- `single()` and `maybeSingle()` on several matching rows: `FindPlayer` takes the first matching row, and move_open needs only that some set row exists.
- `FirstSetHand` reads the first set row in table order; the store's row order is taken as given.
- The store's default status for a new trade offer is the parameter `initialStatus`.
- The React pages and components, the client wrappers and the store client stub.
- tests/gameEngine.test.ts and tests/startGameEdge.test.ts test functions and handlers that do not exist in the modelled files, so no property is drawn from them.
