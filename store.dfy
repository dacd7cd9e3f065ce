/**
  The rows of the tournament's tables and the store that holds them. Each
  edge function reads and writes this store; the database engine itself, its
  clients and its timestamps are not part of the model.
 */
module Store {
  import opened Common
  import opened Engine

  /** A row of `players`. */
  datatype Player = Player(id: Id, room: Id, name: string)

  /** The five asset columns a trade may move. */
  datatype AssetKey = StarsKey | RockKey | PaperKey | ScissorsKey | CashKey

  /** The order in which settle_trade.ts walks the keys (`allowedKeys`). */
  const AllowedKeys: seq<AssetKey> := [StarsKey, RockKey, PaperKey, ScissorsKey, CashKey]

  /** Where each key stands in `AllowedKeys`. */
  function KeyIndex(k: AssetKey): (i: nat)
    ensures i < |AllowedKeys| && AllowedKeys[i] == k
  {
    match k
    case StarsKey => 0
    case RockKey => 1
    case PaperKey => 2
    case ScissorsKey => 3
    case CashKey => 4
  }

  /** The JSON name of each key. */
  function KeyName(k: AssetKey): string
  {
    match k
    case StarsKey => "stars"
    case RockKey => "rock"
    case PaperKey => "paper"
    case ScissorsKey => "scissors"
    case CashKey => "cash"
  }

  /** The card column a hand is played from. */
  function CardKey(h: Hand): AssetKey
  {
    match h
    case Rock => RockKey
    case Paper => PaperKey
    case Scissors => ScissorsKey
  }

  /** A row of `player_assets`. */
  datatype Assets = Assets(stars: int, rock: int, paper: int, scissors: int, cash: int, loan: int)
  {
    function Get(k: AssetKey): int
    {
      match k
      case StarsKey => stars
      case RockKey => rock
      case PaperKey => paper
      case ScissorsKey => scissors
      case CashKey => cash
    }

    /** The row with column `k` replaced by `v`. */
    function With(k: AssetKey, v: int): (a: Assets)
      ensures a.Get(k) == v
      ensures forall j :: j != k ==> a.Get(j) == Get(j)
      ensures a.loan == loan
    {
      match k
      case StarsKey => this.(stars := v)
      case RockKey => this.(rock := v)
      case PaperKey => this.(paper := v)
      case ScissorsKey => this.(scissors := v)
      case CashKey => this.(cash := v)
    }

    /** Two rows that agree on every key and on the loan are the same row. */
    lemma Extensionality(other: Assets)
      requires forall k :: Get(k) == other.Get(k)
      requires loan == other.loan
      ensures this == other
    {
      assert Get(StarsKey) == other.Get(StarsKey) && Get(RockKey) == other.Get(RockKey);
      assert Get(PaperKey) == other.Get(PaperKey) && Get(ScissorsKey) == other.Get(ScissorsKey);
      assert Get(CashKey) == other.Get(CashKey);
    }

    predicate NonNegative()
    {
      (forall k :: Get(k) >= 0) && loan >= 0
    }
  }

  /** No asset row holds a negative value. */
  ghost predicate AllNonNegative(assets: map<Id, Assets>)
  {
    forall id :: id in assets ==> assets[id].NonNegative()
  }

  datatype MatchStatus = Proposed | Accepted | Resolved

  /** A row of `matches`. */
  datatype Match = Match(room: Id, challenger: Id, opponent: Id, status: MatchStatus)

  /** Only a `set` row carries a hand. */
  datatype Phase = Check | Set(hand: Hand) | Open

  /** A row of `match_moves`. */
  datatype MoveRow = MoveRow(matchId: Id, playerId: Id, phase: Phase)

  /**
    A present JSON entry as `Number(raw)` sees it: a finite number (the model's
    asset values are integers) or NaN/infinite.
   */
  datatype Entry = Finite(n: int) | NonFinite

  /** The `give_json` / `take_json` columns: an object, or any non-object value. */
  datatype AssetJson = NotAnObject | Object(fields: map<string, Entry>)

  datatype OfferStatus = OfferOpen | OfferAccepted | OfferCancelled | OfferSettled

  /** A row of `trade_offers`. */
  datatype TradeOffer = TradeOffer(room: Id, maker: Id, taker: Option<Id>, give: AssetJson, take: AssetJson, status: OfferStatus)

  /** A row of `rooms`. */
  datatype Room = Room(status: string, running: bool, endAt: Option<int>)

  datatype StarTransfer = StarTransfer(room: Id, from: Id, to: Id, amount: int)

  datatype UsedCardLog = UsedCardLog(playerId: Id, matchId: Id, hand: Hand)

  datatype PenaltyReason = StarsExhausted | LoanUnpaid

  datatype Penalty = Penalty(room: Id, playerId: Id, reason: PenaltyReason)

  /** What an event message says, as a tag; the Japanese text itself is not modelled. */
  datatype Notice =
    | ChallengeSent
    | ChallengeAccepted
    | RoundDrawn(challengerHand: Hand, opponentHand: Hand)
    | RoundWon(challengerHand: Hand, opponentHand: Hand, winner: Id)
    | OfferCreated
    | OfferTaken
    | OfferWithdrawn
    | TradeSettled
    | PenaltyNotice(playerId: Id, reason: PenaltyReason)
    | GameStarted(timeLimitSeconds: int)

  datatype Event = Event(room: Id, notice: Notice)

  /** The shared store: one field per table. */
  class Store {
    var players: seq<Player>
    var assets: map<Id, Assets>
    var matches: map<Id, Match>
    var moves: seq<MoveRow>
    var offers: map<Id, TradeOffer>
    var rooms: map<Id, Room>
    var starTransfers: seq<StarTransfer>
    var usedCards: seq<UsedCardLog>
    var penalties: seq<Penalty>
    var events: seq<Event>
  }

  /** `players` looked up by id (`.eq("id", …).single()`): the first row with that id. */
  function FindPlayer(players: seq<Player>, id: Id): (r: Option<Player>)
    ensures r.Some? ==> r.value in players && r.value.id == id
    ensures r.None? ==> forall p :: p in players ==> p.id != id
  {
    if players == [] then None
    else if players[0].id == id then Some(players[0])
    else FindPlayer(players[1..], id)
  }

  /** `players` filtered by `room_id`, in table order. */
  function RoomPlayers(players: seq<Player>, roomId: Id): (r: seq<Player>)
    ensures forall p :: p in r <==> p in players && p.room == roomId
    ensures |r| <= |players|
  {
    if players == [] then []
    else if players[0].room == roomId then [players[0]] + RoomPlayers(players[1..], roomId)
    else RoomPlayers(players[1..], roomId)
  }

  function Lookup(assets: map<Id, Assets>, id: Id): Option<Assets>
  {
    if id in assets then Some(assets[id]) else None
  }

  /** The `set` rows of one match, in table order (`.eq("match_id", …).eq("phase", "set")`). */
  function SetRows(moves: seq<MoveRow>, matchId: Id): (r: seq<MoveRow>)
    ensures forall mv :: mv in r <==> mv in moves && mv.matchId == matchId && mv.phase.Set?
    ensures |r| <= |moves|
  {
    if moves == [] then []
    else if moves[0].matchId == matchId && moves[0].phase.Set? then [moves[0]] + SetRows(moves[1..], matchId)
    else SetRows(moves[1..], matchId)
  }

  /** Some `set` row exists for this match and player. */
  predicate HasSetRow(moves: seq<MoveRow>, matchId: Id, playerId: Id)
  {
    exists mv :: mv in moves && mv.matchId == matchId && mv.playerId == playerId && mv.phase.Set?
  }

  /** The players with an `open` row for this match. */
  function OpenPlayerIds(moves: seq<MoveRow>, matchId: Id): set<Id>
  {
    set mv | mv in moves && mv.matchId == matchId && mv.phase.Open? :: mv.playerId
  }

  /** The hand of the first `set` row of a player (`setMoves.find(…)`). */
  function FirstSetHand(rows: seq<MoveRow>, playerId: Id): (r: Option<Hand>)
    ensures r.None? <==> forall mv :: mv in rows && mv.phase.Set? ==> mv.playerId != playerId
    ensures r.Some? ==> exists i :: 0 <= i < |rows| && rows[i] == MoveRow(rows[i].matchId, playerId, Set(r.value)) &&
                          forall j :: 0 <= j < i ==> !(rows[j].playerId == playerId && rows[j].phase.Set?)
  {
    if rows == [] then None
    else if rows[0].playerId == playerId && rows[0].phase.Set? then Some(rows[0].phase.hand)
    else
      FirstSetHand(rows[1..], playerId)
  }

  /** A player's hand is found among a match's set rows exactly when that player has a set row in it. */
  lemma FirstSetHandFound(moves: seq<MoveRow>, matchId: Id, playerId: Id)
    ensures FirstSetHand(SetRows(moves, matchId), playerId).Some? <==> HasSetRow(moves, matchId, playerId)
  {
  }
}
