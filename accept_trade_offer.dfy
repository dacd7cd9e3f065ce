/**
  edge-functions/accept_trade_offer.ts: a player takes an open offer. The
  caller becomes the taker, replacing any reserved taker, with no room check.
 */
module AcceptTradeOffer {
  import opened Common
  import opened Store
  import SettleTrade

  /** The accept-trade-offer edge function: 404 for no offer, 400 unless it is open. */
  method AcceptTradeOffer(s: Store, offerId: Id, takerId: Id) returns (code: int)
    modifies s
    ensures offerId !in old(s.offers) ==> code == 404
    ensures offerId in old(s.offers) ==> code == (if old(s.offers[offerId]).status == OfferOpen then 200 else 400)
    ensures code != 200 ==> unchanged(s)
    ensures code == 200 ==>
      var o := old(s.offers[offerId]);
      s.offers == old(s.offers)[offerId := o.(status := OfferAccepted, taker := Some(takerId))] &&
      s.events == old(s.events) + [Event(o.room, OfferTaken)] &&
      SettleTrade.SettleGuardsPass(s.offers[offerId])
    ensures unchanged(s`players, s`assets, s`matches, s`moves, s`rooms, s`starTransfers, s`usedCards, s`penalties)
  {
    if offerId !in s.offers {
      return 404;
    }
    var offer := s.offers[offerId];
    if offer.status != OfferOpen {
      return 400;
    }
    s.offers := s.offers[offerId := offer.(status := OfferAccepted, taker := Some(takerId))];
    s.events := s.events + [Event(offer.room, OfferTaken)];
    code := 200;
  }

  /**
    An offer can be taken at most once: after acceptance it is no longer open,
    so a second taker is refused, and it passes exactly the guards settle checks.
   */
  lemma AcceptedOfferIsSettleable(o: TradeOffer, takerId: Id)
    requires o.status == OfferOpen
    ensures SettleTrade.SettleGuardsPass(o.(status := OfferAccepted, taker := Some(takerId)))
    ensures o.(status := OfferAccepted, taker := Some(takerId)).status != OfferOpen
    ensures !SettleTrade.SettleGuardsPass(o)
  {
  }
}
