/**
  edge-functions/settle_trade.ts: `normalizeAssets`, the per-key settlement
  of an accepted trade offer and the handler that applies it.
 */
module SettleTrade {
  import opened Common
  import opened Store

  /** What `normalizeAssets` returns: the allowed keys whose entry is a finite number. */
  function Normalized(value: AssetJson): map<AssetKey, int>
  {
    match value
    case NotAnObject => map[]
    case Object(fields) =>
      map k | k in AllowedKeys && KeyName(k) in fields && fields[KeyName(k)].Finite? :: fields[KeyName(k)].n
  }

  /**
    `normalizeAssets` keeps exactly the allowed keys whose entry is present and
    finite, with that entry's value; a non-object gives the empty map.
   */
  lemma NormalizedMeaning(value: AssetJson, k: AssetKey)
    ensures value.NotAnObject? ==> Normalized(value) == map[]
    ensures value.Object? ==>
      (k in Normalized(value) <==> KeyName(k) in value.fields && value.fields[KeyName(k)].Finite?) &&
      (k in Normalized(value) ==> Normalized(value)[k] == value.fields[KeyName(k)].n)
  {
    assert AllowedKeys[KeyIndex(k)] == k;
  }

  /** `normalizeAssets`: walks the allowed keys and copies each finite entry into `result`. */
  method NormalizeAssets(value: AssetJson) returns (result: map<AssetKey, int>)
    ensures result == Normalized(value)
  {
    if value.NotAnObject? {
      return map[];
    }
    result := map[];
    for i := 0 to |AllowedKeys|
      invariant forall k :: k in result <==>
        k in AllowedKeys[..i] && KeyName(k) in value.fields && value.fields[KeyName(k)].Finite?
      invariant forall k :: k in result ==> result[k] == value.fields[KeyName(k)].n
    {
      var key := AllowedKeys[i];
      if KeyName(key) !in value.fields {
        continue;
      }
      var raw := value.fields[KeyName(key)];
      if raw.NonFinite? {
        continue;
      }
      result := result[key := raw.n];
    }
    forall k ensures k in result <==> k in Normalized(value) {
      assert AllowedKeys[KeyIndex(k)] == k;
    }
  }

  /** `give[key] ?? 0`. */
  function Amount(m: map<AssetKey, int>, k: AssetKey): int
  {
    if k in m then m[k] else 0
  }

  /** The maker's next value of one column: it hands over `give` and receives `take`. */
  function MakerNext(maker: Assets, give: map<AssetKey, int>, take: map<AssetKey, int>, k: AssetKey): int
  {
    maker.Get(k) - Amount(give, k) + Amount(take, k)
  }

  /** The taker's next value of one column: it receives `give` and hands over `take`. */
  function TakerNext(taker: Assets, give: map<AssetKey, int>, take: map<AssetKey, int>, k: AssetKey): int
  {
    taker.Get(k) + Amount(give, k) - Amount(take, k)
  }

  /** No column of either side would go negative. */
  predicate Feasible(maker: Assets, taker: Assets, give: map<AssetKey, int>, take: map<AssetKey, int>)
  {
    forall k :: MakerNext(maker, give, take, k) >= 0 && TakerNext(taker, give, take, k) >= 0
  }

  function MakerAfter(maker: Assets, give: map<AssetKey, int>, take: map<AssetKey, int>): (a: Assets)
    ensures forall k :: a.Get(k) == MakerNext(maker, give, take, k)
    ensures a.loan == maker.loan
  {
    Assets(
      MakerNext(maker, give, take, StarsKey), MakerNext(maker, give, take, RockKey),
      MakerNext(maker, give, take, PaperKey), MakerNext(maker, give, take, ScissorsKey),
      MakerNext(maker, give, take, CashKey), maker.loan)
  }

  function TakerAfter(taker: Assets, give: map<AssetKey, int>, take: map<AssetKey, int>): (a: Assets)
    ensures forall k :: a.Get(k) == TakerNext(taker, give, take, k)
    ensures a.loan == taker.loan
  {
    Assets(
      TakerNext(taker, give, take, StarsKey), TakerNext(taker, give, take, RockKey),
      TakerNext(taker, give, take, PaperKey), TakerNext(taker, give, take, ScissorsKey),
      TakerNext(taker, give, take, CashKey), taker.loan)
  }

  datatype Settlement = Settlement(maker: Assets, taker: Assets)

  /**
    The per-key loop of the handler: `nextMaker` and `nextTaker` are updated
    key by key and the loop gives up at the first key that would go negative.
   */
  method SettleBalances(maker: Assets, taker: Assets, give: map<AssetKey, int>, take: map<AssetKey, int>)
    returns (r: Option<Settlement>)
    ensures r.Some? <==> Feasible(maker, taker, give, take)
    ensures r.Some? ==> r.value == Settlement(MakerAfter(maker, give, take), TakerAfter(taker, give, take))
    ensures r.Some? ==> forall k ::
      r.value.maker.Get(k) + r.value.taker.Get(k) == maker.Get(k) + taker.Get(k) &&
      r.value.maker.Get(k) >= 0 && r.value.taker.Get(k) >= 0
  {
    var nextMaker, nextTaker := maker, taker;
    for i := 0 to |AllowedKeys|
      invariant forall k :: KeyIndex(k) < i ==> nextMaker.Get(k) == MakerNext(maker, give, take, k) >= 0
      invariant forall k :: KeyIndex(k) < i ==> nextTaker.Get(k) == TakerNext(taker, give, take, k) >= 0
      invariant forall k :: i <= KeyIndex(k) ==> nextMaker.Get(k) == maker.Get(k) && nextTaker.Get(k) == taker.Get(k)
      invariant nextMaker.loan == maker.loan && nextTaker.loan == taker.loan
    {
      var key := AllowedKeys[i];
      assert KeyIndex(key) == i;
      var giveValue := Amount(give, key);
      var takeValue := Amount(take, key);
      var makerNext := nextMaker.Get(key) - giveValue + takeValue;
      var takerNext := nextTaker.Get(key) + giveValue - takeValue;
      assert makerNext == MakerNext(maker, give, take, key) && takerNext == TakerNext(taker, give, take, key);
      if makerNext < 0 || takerNext < 0 {
        assert !(MakerNext(maker, give, take, key) >= 0 && TakerNext(taker, give, take, key) >= 0);
        return None;
      }
      nextMaker := nextMaker.With(key, makerNext);
      nextTaker := nextTaker.With(key, takerNext);
    }
    nextMaker.Extensionality(MakerAfter(maker, give, take));
    nextTaker.Extensionality(TakerAfter(taker, give, take));
    r := Some(Settlement(nextMaker, nextTaker));
  }

  /** Settlement conserves every column: what one side loses the other gains. */
  lemma SettlementConserves(maker: Assets, taker: Assets, give: map<AssetKey, int>, take: map<AssetKey, int>, k: AssetKey)
    ensures MakerAfter(maker, give, take).Get(k) + TakerAfter(taker, give, take).Get(k) == maker.Get(k) + taker.Get(k)
  {
  }

  /** A key in neither `give` nor `take` leaves both sides' values as they were. */
  lemma SettlementKeepsUntradedKey(maker: Assets, taker: Assets, give: map<AssetKey, int>, take: map<AssetKey, int>, k: AssetKey)
    requires k !in give && k !in take
    ensures MakerAfter(maker, give, take).Get(k) == maker.Get(k)
    ensures TakerAfter(taker, give, take).Get(k) == taker.Get(k)
  {
  }

  /** The loan column is never traded: `normalizeAssets` has no such key and the settlement keeps it. */
  lemma SettlementKeepsLoans(maker: Assets, taker: Assets, give: AssetJson, take: AssetJson)
    ensures MakerAfter(maker, Normalized(give), Normalized(take)).loan == maker.loan
    ensures TakerAfter(taker, Normalized(give), Normalized(take)).loan == taker.loan
  {
  }

  /** A feasible settlement of non-negative rows leaves both rows non-negative. */
  lemma SettlementKeepsNonNegative(maker: Assets, taker: Assets, give: map<AssetKey, int>, take: map<AssetKey, int>)
    requires maker.NonNegative() && taker.NonNegative()
    requires Feasible(maker, taker, give, take)
    ensures MakerAfter(maker, give, take).NonNegative() && TakerAfter(taker, give, take).NonNegative()
  {
  }

  /** Net number of stars the recorded transfers move from `a` to `b`. */
  function NetFlow(ts: seq<StarTransfer>, a: Id, b: Id): int
  {
    if ts == [] then 0
    else
      var t := ts[0];
      (if t.from == a && t.to == b then t.amount else if t.from == b && t.to == a then -t.amount else 0)
      + NetFlow(ts[1..], a, b)
  }

  /** The net star delta of the trade, `(give.stars ?? 0) - (take.stars ?? 0)`. */
  function StarDelta(give: map<AssetKey, int>, take: map<AssetKey, int>): int
  {
    Amount(give, StarsKey) - Amount(take, StarsKey)
  }

  /** The `star_transfers` rows the handler records for a settled trade. */
  function StarTransfersFor(room: Id, maker: Id, taker: Id, give: map<AssetKey, int>, take: map<AssetKey, int>): (ts: seq<StarTransfer>)
    ensures |ts| <= 1
    ensures ts == [] <==> StarDelta(give, take) == 0
    ensures forall t :: t in ts ==> t.amount > 0 && t.room == room
    ensures forall t :: t in ts ==> (t.from == maker && t.to == taker) || (t.from == taker && t.to == maker)
    ensures maker != taker ==> NetFlow(ts, maker, taker) == StarDelta(give, take)
  {
    var starDelta := StarDelta(give, take);
    if starDelta > 0 then [StarTransfer(room, maker, taker, starDelta)]
    else if starDelta < 0 then [StarTransfer(room, taker, maker, -starDelta)]
    else []
  }

  /**
    The statements of settle_trade.ts:134-140 in their order: an empty list,
    the delta, and at most one push chosen by its sign. `StarTransfersFor`
    states the outcome; this method is the code that reaches it.
   */
  method DeriveStarTransfers(room: Id, maker: Id, taker: Id, give: map<AssetKey, int>, take: map<AssetKey, int>)
    returns (starTransfers: seq<StarTransfer>)
    ensures starTransfers == StarTransfersFor(room, maker, taker, give, take)
  {
    starTransfers := [];
    var starDelta := Amount(give, StarsKey) - Amount(take, StarsKey);
    if starDelta > 0 {
      starTransfers := starTransfers + [StarTransfer(room, maker, taker, starDelta)];
    } else if starDelta < 0 {
      starTransfers := starTransfers + [StarTransfer(room, taker, maker, -starDelta)];
    }
  }

  /** The guards settlement needs of an offer: a taker is set and the offer is accepted. */
  predicate SettleGuardsPass(o: TradeOffer)
  {
    o.taker.Some? && o.status == OfferAccepted
  }

  /** The handler's verdict on an offer whose guards pass and whose two asset rows exist. */
  predicate SettlementFeasible(o: TradeOffer, assets: map<Id, Assets>)
    requires SettleGuardsPass(o) && o.maker in assets && o.taker.value in assets
  {
    Feasible(assets[o.maker], assets[o.taker.value], Normalized(o.give), Normalized(o.take))
  }

  /** The asset table after a successful settlement: the maker's row is written, then the taker's. */
  function SettledAssets(o: TradeOffer, assets: map<Id, Assets>): map<Id, Assets>
    requires SettleGuardsPass(o) && o.maker in assets && o.taker.value in assets
  {
    var give, take := Normalized(o.give), Normalized(o.take);
    assets[o.maker := MakerAfter(assets[o.maker], give, take)]
          [o.taker.value := TakerAfter(assets[o.taker.value], give, take)]
  }

  /**
    After a settlement every traded column of both rows is non-negative, a
    non-negative table stays non-negative, and between two different players
    each column is conserved.
   */
  lemma SettledAssetsProperties(o: TradeOffer, assets: map<Id, Assets>)
    requires SettleGuardsPass(o) && o.maker in assets && o.taker.value in assets
    requires SettlementFeasible(o, assets)
    ensures var after := SettledAssets(o, assets);
      o.maker in after && o.taker.value in after &&
      (forall k :: after[o.maker].Get(k) >= 0 && after[o.taker.value].Get(k) >= 0) &&
      (o.maker != o.taker.value ==> forall k ::
        after[o.maker].Get(k) + after[o.taker.value].Get(k) == assets[o.maker].Get(k) + assets[o.taker.value].Get(k)) &&
      (forall id :: id in after && id != o.maker && id != o.taker.value ==> after[id] == assets[id])
    ensures AllNonNegative(assets) ==> AllNonNegative(SettledAssets(o, assets))
  {
    var give, take := Normalized(o.give), Normalized(o.take);
    var after := SettledAssets(o, assets);
    if AllNonNegative(assets) {
      SettlementKeepsNonNegative(assets[o.maker], assets[o.taker.value], give, take);
      forall id | id in after ensures after[id].NonNegative() {
        if id != o.maker && id != o.taker.value {
          assert after[id] == assets[id];
        }
      }
    }
  }

  /**
    Nothing stops a player from trading with itself: the maker's row is then
    also the taker's, the taker's write is the one that stays, and its columns
    move by give − take instead of being conserved. A non-zero star delta also
    logs a transfer from the player to itself.
   */
  lemma SelfTradeSettlement(o: TradeOffer, assets: map<Id, Assets>)
    requires SettleGuardsPass(o) && o.taker.value == o.maker && o.maker in assets
    ensures var give, take := Normalized(o.give), Normalized(o.take);
      SettledAssets(o, assets)[o.maker] == TakerAfter(assets[o.maker], give, take) &&
      (forall k :: SettledAssets(o, assets)[o.maker].Get(k) == assets[o.maker].Get(k) + Amount(give, k) - Amount(take, k))
    ensures var delta := StarDelta(Normalized(o.give), Normalized(o.take));
      StarTransfersFor(o.room, o.maker, o.maker, Normalized(o.give), Normalized(o.take)) ==
        if delta == 0 then [] else [StarTransfer(o.room, o.maker, o.maker, if delta > 0 then delta else -delta)]
  {
  }

  /**
    A self-trade giving one star and taking nothing passes every guard of the
    handler, leaves the player one star richer and logs a one-star transfer
    from the player to itself.
   */
  lemma SelfTradeMintsStar(room: Id, player: Id, assets: map<Id, Assets>)
    requires player in assets && assets[player].NonNegative() && assets[player].stars >= 1
    ensures var o := TradeOffer(room, player, Some(player), Object(map["stars" := Finite(1)]), Object(map[]), OfferAccepted);
      SettleGuardsPass(o) && SettlementFeasible(o, assets) &&
      SettledAssets(o, assets)[player].stars == assets[player].stars + 1 &&
      StarTransfersFor(o.room, o.maker, o.taker.value, Normalized(o.give), Normalized(o.take)) == [StarTransfer(room, player, player, 1)]
  {
    var o := TradeOffer(room, player, Some(player), Object(map["stars" := Finite(1)]), Object(map[]), OfferAccepted);
    OneStarNormalized();
    var give, take: map<AssetKey, int> := map[StarsKey := 1], map[];
    forall k ensures MakerNext(assets[player], give, take, k) >= 0 && TakerNext(assets[player], give, take, k) >= 0 {
      assert assets[player].Get(k) >= 0;
    }
    assert Feasible(assets[player], assets[player], give, take);
    SelfTradeSettlement(o, assets);
  }

  /** The offer maps of the one-star self-trade, normalised. */
  lemma OneStarNormalized()
    ensures Normalized(Object(map["stars" := Finite(1)])) == map[StarsKey := 1]
    ensures Normalized(Object(map[])) == map[]
  {
    var g := Normalized(Object(map["stars" := Finite(1)]));
    forall k ensures k in g <==> k == StarsKey {
      NormalizedMeaning(Object(map["stars" := Finite(1)]), k);
    }
    assert g.Keys == {StarsKey};
    NormalizedMeaning(Object(map["stars" := Finite(1)]), StarsKey);
    var t := Normalized(Object(map[]));
    forall k ensures k !in t {
      NormalizedMeaning(Object(map[]), k);
    }
    assert t.Keys == {};
  }

  /**
    The writes of a settlement that passed every guard, in the order the
    handler issues them: both asset rows, the offer's status, the star
    transfer (if any) and one event.
   */
  method ApplySettlement(s: Store, offerId: Id, offer: TradeOffer, give: map<AssetKey, int>, take: map<AssetKey, int>, settled: Settlement)
    requires offerId in s.offers && s.offers[offerId] == offer && SettleGuardsPass(offer)
    requires offer.maker in s.assets && offer.taker.value in s.assets
    requires give == Normalized(offer.give) && take == Normalized(offer.take)
    requires SettlementFeasible(offer, s.assets)
    requires settled == Settlement(MakerAfter(s.assets[offer.maker], give, take), TakerAfter(s.assets[offer.taker.value], give, take))
    modifies s
    ensures s.assets == SettledAssets(offer, old(s.assets))
    ensures s.offers == old(s.offers)[offerId := offer.(status := OfferSettled)]
    ensures s.starTransfers == old(s.starTransfers) + StarTransfersFor(offer.room, offer.maker, offer.taker.value, give, take)
    ensures s.events == old(s.events) + [Event(offer.room, TradeSettled)]
    ensures forall k :: s.assets[offer.maker].Get(k) >= 0 && s.assets[offer.taker.value].Get(k) >= 0
    ensures offer.maker != offer.taker.value ==> forall k ::
      s.assets[offer.maker].Get(k) + s.assets[offer.taker.value].Get(k) ==
      old(s.assets[offer.maker]).Get(k) + old(s.assets[offer.taker.value]).Get(k)
    ensures AllNonNegative(old(s.assets)) ==> AllNonNegative(s.assets)
    ensures unchanged(s`players, s`matches, s`moves, s`rooms, s`usedCards, s`penalties)
  {
    var takerId := offer.taker.value;
    var nextAssets := s.assets[offer.maker := settled.maker][takerId := settled.taker];
    var starTransfers := DeriveStarTransfers(offer.room, offer.maker, takerId, give, take);
    // all writes are issued together (`Promise.all`)
    s.assets, s.offers, s.starTransfers, s.events :=
      nextAssets,
      s.offers[offerId := offer.(status := OfferSettled)],
      s.starTransfers + starTransfers,
      s.events + [Event(offer.room, TradeSettled)];
    SettledAssetsProperties(offer, old(s.assets));
  }

  /**
    The settle-trade edge function. Guards in source order: a missing offer
    (404), no taker (400), not accepted (400), a missing asset row (500), a
    column that would go negative (400); all of them come before any write.
   */
  method SettleTradeOffer(s: Store, offerId: Id) returns (code: int)
    modifies s
    ensures offerId !in old(s.offers) ==> code == 404
    ensures offerId in old(s.offers) && !SettleGuardsPass(old(s.offers[offerId])) ==> code == 400
    ensures offerId in old(s.offers) && SettleGuardsPass(old(s.offers[offerId])) ==>
      var o := old(s.offers[offerId]);
      if o.maker !in old(s.assets) || o.taker.value !in old(s.assets) then code == 500
      else code == (if SettlementFeasible(o, old(s.assets)) then 200 else 400)
    ensures code != 200 ==> unchanged(s)
    ensures code == 200 ==>
      offerId in old(s.offers) && SettleGuardsPass(old(s.offers[offerId])) &&
      var o := old(s.offers[offerId]);
      o.maker in old(s.assets) && o.taker.value in old(s.assets) &&
      s.assets == SettledAssets(o, old(s.assets)) &&
      s.offers == old(s.offers)[offerId := o.(status := OfferSettled)] &&
      s.starTransfers == old(s.starTransfers) + StarTransfersFor(o.room, o.maker, o.taker.value, Normalized(o.give), Normalized(o.take)) &&
      s.events == old(s.events) + [Event(o.room, TradeSettled)] &&
      (forall k :: s.assets[o.maker].Get(k) >= 0 && s.assets[o.taker.value].Get(k) >= 0) &&
      (o.maker != o.taker.value ==> forall k ::
        s.assets[o.maker].Get(k) + s.assets[o.taker.value].Get(k) ==
        old(s.assets[o.maker]).Get(k) + old(s.assets[o.taker.value]).Get(k))
    ensures AllNonNegative(old(s.assets)) ==> AllNonNegative(s.assets)
    ensures unchanged(s`players, s`matches, s`moves, s`rooms, s`usedCards, s`penalties)
  {
    if offerId !in s.offers {
      return 404;
    }
    var offer := s.offers[offerId];
    if offer.taker.None? {
      return 400;
    }
    if offer.status != OfferAccepted {
      return 400;
    }
    var give := NormalizeAssets(offer.give);
    var take := NormalizeAssets(offer.take);
    var takerId := offer.taker.value;
    if offer.maker !in s.assets || takerId !in s.assets {
      return 500;
    }
    var settled := SettleBalances(s.assets[offer.maker], s.assets[takerId], give, take);
    if settled.None? {
      return 400;
    }
    ApplySettlement(s, offerId, offer, give, take, settled.value);
    code := 200;
  }
}
