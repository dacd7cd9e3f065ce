/**
  edge-functions/create_trade_offer.ts: a player files a trade offer. Only
  the maker must exist; the offer goes into the maker's room with the
  reserved taker (if any) and both asset objects as given. The taker's room
  is not checked.
 */
module CreateTradeOffer {
  import opened Common
  import opened Store

  /**
    The create-trade-offer edge function. `newOfferId` is the id the store
    assigns; `initialStatus` is the store's default status for the row, which
    the handler does not set.
   */
  method CreateTradeOffer(s: Store, makerId: Id, takerId: Option<Id>, give: map<string, Entry>, take: map<string, Entry>,
                          newOfferId: Id, initialStatus: OfferStatus) returns (code: int)
    requires newOfferId !in s.offers
    modifies s
    ensures code == (if FindPlayer(old(s.players), makerId).Some? then 200 else 404)
    ensures code != 200 ==> unchanged(s)
    ensures code == 200 ==>
      var room := FindPlayer(old(s.players), makerId).value.room;
      (exists p :: p in old(s.players) && p.id == makerId && p.room == room) &&
      s.offers == old(s.offers)[newOfferId := TradeOffer(room, makerId, takerId, Object(give), Object(take), initialStatus)] &&
      s.events == old(s.events) + [Event(room, OfferCreated)]
    ensures unchanged(s`players, s`assets, s`matches, s`moves, s`rooms, s`starTransfers, s`usedCards, s`penalties)
  {
    var maker := FindPlayer(s.players, makerId);
    if maker.None? {
      return 404;
    }
    s.offers := s.offers[newOfferId := TradeOffer(maker.value.room, makerId, takerId, Object(give), Object(take), initialStatus)];
    s.events := s.events + [Event(maker.value.room, OfferCreated)];
    code := 200;
  }
}
