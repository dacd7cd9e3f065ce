/**
  edge-functions/start_game.ts: the host starts a room. The time limit and
  loan are validated first; the room gets its deadline, every player of the
  room gets a fresh asset row (inserted or overwritten) and one event is
  appended. The current time is a parameter.
 */
module StartGame {
  import opened Common
  import opened Store
  import EvaluateDefeats

  const MinTimeLimitSeconds := 60
  const InitialStars := 3
  const InitialCards := 4
  /** The largest distance from the epoch, in milliseconds, that a JavaScript `Date` can hold. */
  const MaxDateMs := 8640000000000000

  /** The asset row every player starts with: cash and loan both equal to the loan amount. */
  function InitialAssets(loanAmount: int): Assets
  {
    Assets(InitialStars, InitialCards, InitialCards, InitialCards, loanAmount, loanAmount)
  }

  /** The ids of a room's players. */
  function RoomPlayerIds(players: seq<Player>, roomId: Id): set<Id>
  {
    set p | p in players && p.room == roomId :: p.id
  }

  /** The asset table after the upserts: room players get the initial row, every other row stays. */
  function StartedAssets(assets: map<Id, Assets>, players: seq<Player>, roomId: Id, loanAmount: int): map<Id, Assets>
  {
    var ids := RoomPlayerIds(players, roomId);
    map id | id in assets.Keys + ids :: if id in ids then InitialAssets(loanAmount) else assets[id]
  }

  /** The room row after the start, when it exists; the update touches no row otherwise. */
  function StartedRooms(rooms: map<Id, Room>, roomId: Id, endAt: int): map<Id, Room>
  {
    if roomId in rooms then rooms[roomId := Room("running", true, Some(endAt))] else rooms
  }

  /** `Date.now() + time_limit_seconds * 1000`, in milliseconds. */
  function EndAt(now: int, timeLimitSeconds: int): int
  {
    now + timeLimitSeconds * 1000
  }

  /**
    Whether `new Date(ms)` is a valid date; outside this range `toISOString`
    throws a `RangeError`, which the edge runtime answers with a 500.
   */
  predicate InDateRange(ms: int)
  {
    -MaxDateMs <= ms <= MaxDateMs
  }

  /** A time limit the schema accepts can still push the deadline out of range. */
  lemma SchemaAcceptsOutOfRangeDeadline(now: int)
    requires 0 <= now
    ensures 10000000000000 >= MinTimeLimitSeconds
    ensures !InDateRange(EndAt(now, 10000000000000))
  {
  }

  /** From a clock reading in range, every time limit up to a hundred thousand years gives a valid deadline. */
  lemma ModestDeadlineInRange(now: int, timeLimitSeconds: int)
    requires 0 <= now <= MaxDateMs / 2
    requires 0 <= timeLimitSeconds <= 3155760000000
    ensures InDateRange(EndAt(now, timeLimitSeconds))
  {
  }

  /**
    Every player of the room holds the initial row, no other row changes and
    no row is removed; with a non-negative loan every row stays non-negative.
   */
  lemma StartedAssetsProperties(assets: map<Id, Assets>, players: seq<Player>, roomId: Id, loanAmount: int)
    ensures var after := StartedAssets(assets, players, roomId, loanAmount);
      assets.Keys <= after.Keys &&
      (forall p :: p in players && p.room == roomId ==> p.id in after && after[p.id] == InitialAssets(loanAmount)) &&
      (forall id :: id in assets && id !in RoomPlayerIds(players, roomId) ==> after[id] == assets[id])
    ensures loanAmount >= 0 && AllNonNegative(assets) ==> AllNonNegative(StartedAssets(assets, players, roomId, loanAmount))
  {
    var after := StartedAssets(assets, players, roomId, loanAmount);
    forall p | p in players && p.room == roomId ensures p.id in after && after[p.id] == InitialAssets(loanAmount) {
      assert p.id in RoomPlayerIds(players, roomId);
    }
    if loanAmount >= 0 && AllNonNegative(assets) {
      forall id | id in after ensures after[id].NonNegative() {
        if id !in RoomPlayerIds(players, roomId) {
          assert after[id] == assets[id];
          assert assets[id].NonNegative();
        } else {
          assert after[id] == InitialAssets(loanAmount);
          assert forall k :: InitialAssets(loanAmount).Get(k) >= 0;
        }
      }
    }
  }

  /** Right after the start, evaluating defeats in that room produces no penalty. */
  lemma StartedPlayersHaveNoPenalties(assets: map<Id, Assets>, players: seq<Player>, roomId: Id, loanAmount: int)
    ensures EvaluateDefeats.Penalties(roomId, RoomPlayers(players, roomId), StartedAssets(assets, players, roomId, loanAmount)) == []
  {
    var after := StartedAssets(assets, players, roomId, loanAmount);
    StartedAssetsProperties(assets, players, roomId, loanAmount);
    forall q | q in RoomPlayers(players, roomId) && q.id in after
      ensures after[q.id].stars > 0 && after[q.id].cash >= after[q.id].loan
    {
      assert q in players && q.room == roomId;
    }
    EvaluateDefeats.NoPenaltiesForSolventPlayers(roomId, RoomPlayers(players, roomId), after);
  }

  /** Upserting one more room player's row extends the started table by that row. */
  lemma StartedAssetsStep(assets: map<Id, Assets>, players: seq<Player>, p: Player, roomId: Id, loanAmount: int)
    requires p.room == roomId
    ensures StartedAssets(assets, players + [p], roomId, loanAmount) ==
            StartedAssets(assets, players, roomId, loanAmount)[p.id := InitialAssets(loanAmount)]
  {
    assert RoomPlayerIds(players + [p], roomId) == RoomPlayerIds(players, roomId) + {p.id} by {
      forall q | q in players + [p] ensures q in players || q == p {
      }
    }
  }

  /** Only the ids of the room's players matter, so the room's own player list gives the same table. */
  lemma StartedAssetsRoomPlayers(assets: map<Id, Assets>, players: seq<Player>, roomId: Id, loanAmount: int)
    ensures StartedAssets(assets, RoomPlayers(players, roomId), roomId, loanAmount) == StartedAssets(assets, players, roomId, loanAmount)
  {
    assert RoomPlayerIds(RoomPlayers(players, roomId), roomId) == RoomPlayerIds(players, roomId);
  }

  /** The upserts of `players.map(…)`, one room player at a time. */
  method InitialiseAssets(assets: map<Id, Assets>, players: seq<Player>, roomId: Id, loanAmount: int) returns (result: map<Id, Assets>)
    ensures result == StartedAssets(assets, players, roomId, loanAmount)
  {
    var roomPlayers := RoomPlayers(players, roomId);
    result := assets;
    assert StartedAssets(assets, roomPlayers[..0], roomId, loanAmount) == assets;
    var i := 0;
    while i < |roomPlayers|
      invariant 0 <= i <= |roomPlayers|
      invariant result == StartedAssets(assets, roomPlayers[..i], roomId, loanAmount)
    {
      assert roomPlayers[..i + 1] == roomPlayers[..i] + [roomPlayers[i]];
      assert roomPlayers[i] in roomPlayers;
      StartedAssetsStep(assets, roomPlayers[..i], roomPlayers[i], roomId, loanAmount);
      result := result[roomPlayers[i].id := InitialAssets(loanAmount)];
      i := i + 1;
    }
    assert roomPlayers[..i] == roomPlayers;
    StartedAssetsRoomPlayers(assets, players, roomId, loanAmount);
  }

  /**
    The start-game edge function: 400 for a time limit under a minute or a
    negative loan, and 500 for a deadline a `Date` cannot hold, both before
    any write; otherwise 200 and the deadline.
   */
  method StartGame(s: Store, roomId: Id, timeLimitSeconds: int, loanAmount: int, now: int) returns (code: int, endAt: Option<int>)
    modifies s
    ensures code ==
      if timeLimitSeconds < MinTimeLimitSeconds || loanAmount < 0 then 400
      else if !InDateRange(EndAt(now, timeLimitSeconds)) then 500
      else 200
    ensures code != 200 ==> unchanged(s) && endAt.None?
    ensures code == 200 ==>
      endAt == Some(EndAt(now, timeLimitSeconds)) && InDateRange(endAt.value) &&
      s.rooms == StartedRooms(old(s.rooms), roomId, endAt.value) &&
      s.assets == StartedAssets(old(s.assets), old(s.players), roomId, loanAmount) &&
      s.events == old(s.events) + [Event(roomId, GameStarted(timeLimitSeconds))]
    ensures AllNonNegative(old(s.assets)) ==> AllNonNegative(s.assets)
    ensures unchanged(s`players, s`matches, s`moves, s`offers, s`starTransfers, s`usedCards, s`penalties)
  {
    if timeLimitSeconds < MinTimeLimitSeconds || loanAmount < 0 {
      return 400, None;
    }
    var deadline := now + timeLimitSeconds * 1000;
    if deadline < -MaxDateMs || deadline > MaxDateMs {
      return 500, None;
    }
    if roomId in s.rooms {
      s.rooms := s.rooms[roomId := Room("running", true, Some(deadline))];
    }
    StartedAssetsProperties(s.assets, s.players, roomId, loanAmount);
    var assets := InitialiseAssets(s.assets, s.players, roomId, loanAmount);
    s.assets := assets;
    s.events := s.events + [Event(roomId, GameStarted(timeLimitSeconds))];
    return 200, Some(deadline);
  }
}
