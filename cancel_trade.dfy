/**
  edge-functions/cancel_trade.ts: the maker or the taker withdraws an offer.
  The status becomes "cancelled" whatever it was, a settled offer included;
  asset rows are not touched.
 */
module CancelTrade {
  import opened Common
  import opened Store

  /** `[maker_id, taker_id].includes(actor_id)`: a missing taker matches nobody. */
  predicate MayCancel(o: TradeOffer, actorId: Id)
  {
    actorId in [o.maker] + (if o.taker.Some? then [o.taker.value] else [])
  }

  /** Only the maker, or the taker when there is one, may cancel. */
  lemma MayCancelMeaning(o: TradeOffer, actorId: Id)
    ensures MayCancel(o, actorId) <==> actorId == o.maker || o.taker == Some(actorId)
    ensures o.taker.None? ==> (MayCancel(o, actorId) <==> actorId == o.maker)
  {
  }

  /** The cancel-trade edge function: 404 for no offer, 403 for anyone but maker or taker. */
  method CancelTrade(s: Store, offerId: Id, actorId: Id) returns (code: int)
    modifies s
    ensures offerId !in old(s.offers) ==> code == 404
    ensures offerId in old(s.offers) ==> code == (if MayCancel(old(s.offers[offerId]), actorId) then 200 else 403)
    ensures code != 200 ==> unchanged(s)
    ensures code == 200 ==>
      var o := old(s.offers[offerId]);
      s.offers == old(s.offers)[offerId := o.(status := OfferCancelled)] &&
      s.events == old(s.events) + [Event(o.room, OfferWithdrawn)]
    ensures unchanged(s`players, s`assets, s`matches, s`moves, s`rooms, s`starTransfers, s`usedCards, s`penalties)
  {
    if offerId !in s.offers {
      return 404;
    }
    var offer := s.offers[offerId];
    if !MayCancel(offer, actorId) {
      return 403;
    }
    s.offers := s.offers[offerId := offer.(status := OfferCancelled)];
    s.events := s.events + [Event(offer.room, OfferWithdrawn)];
    code := 200;
  }
}
