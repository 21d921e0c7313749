/** The negotiation HTTP route (src/app/api/negotiate/route.ts): a
    stateless, one-round version of the negotiation rule. The client sends
    the current ask, bid, base price and round; the route concedes on both
    sides, tests for a deal, and answers with the new offers, the two
    agents' moods and the outcome. Chat messages are cosmetic and not
    modelled; the two uniform draws are parameters. */
module NegotiateRoute {
  import opened Domain
  import Negotiation

  /** The fields of the request body the rule reads. The names are
      optional: a missing field and the empty string are both falsy. */
  datatype NegotiateRequest = NegotiateRequest(
    sellerName: Option<string>,
    buyerName: Option<string>,
    itemName: Option<string>,
    basePrice: real,
    currentAskPrice: real,
    currentBidPrice: real,
    round: int,
    maxRounds: int)

  datatype Emotion = Excited | Happy | Disappointed | Angry | Thinking

  datatype NegotiateResponse = NegotiateResponse(
    newAskPrice: real,
    newBidPrice: real,
    sellerEmotion: Emotion,
    buyerEmotion: Emotion,
    dealReached: bool,
    dealFailed: bool,
    finalPrice: Option<real>)

  /** What POST answers: the round's result, a rejected request, or an
      internal error (the body could not be parsed). */
  datatype Reply =
    | Ok(result: NegotiateResponse)
    | BadRequest(error: string)
    | ServerError(error: string)

  const MissingFieldsError: string := "Missing required fields: sellerName, buyerName, itemName"
  const InternalError: string := "Internal server error"

  function StatusCode(r: Reply): int
  {
    match r
    case Ok(_) => 200
    case BadRequest(_) => 400
    case ServerError(_) => 500
  }

  /** A JavaScript-falsy name: absent or empty. */
  predicate Falsy(name: Option<string>) {
    name.None? || name.value == ""
  }

  /** spread / ask > 0.35, where JavaScript's division by a zero ask gives
      +Infinity for a positive spread and -Infinity or NaN otherwise. For a
      positive ask the spread is high exactly when the bid is below 65% of
      the ask; for a negative ask exactly when it is above; for a zero ask
      exactly when the bid is negative. */
  function IsHighSpread(ask: real, bid: real): (high: bool)
    ensures ask > 0.0 ==> (high <==> bid < 0.65 * ask)
    ensures ask < 0.0 ==> (high <==> bid > 0.65 * ask)
    ensures ask == 0.0 ==> (high <==> bid < 0.0)
  {
    if ask == 0.0 then ask - bid > 0.0
    else
      SpreadRatio(ask, bid);
      (ask - bid) / ask > 0.35
  }

  /** Dividing the spread by a non-zero ask: the ratio exceeds 0.35 exactly
      when ask - bid exceeds 0.35 * ask on the ask's side of zero. */
  lemma SpreadRatio(ask: real, bid: real)
    requires ask != 0.0
    ensures ask > 0.0 ==> ((ask - bid) / ask > 0.35 <==> bid < 0.65 * ask)
    ensures ask < 0.0 ==> ((ask - bid) / ask > 0.35 <==> bid > 0.65 * ask)
  {
    var q := (ask - bid) / ask;
    assert q * ask == ask - bid;
    MulNonNegative(if ask > 0.0 then ask else -ask, if q > 0.35 then q - 0.35 else 0.35 - q);
    assert (q - 0.35) * ask == ask - bid - 0.35 * ask;
  }

  /** The route's concession step: each side concedes by a share of its own
      offer that grows with round / maxRounds and is scaled by a draw; the
      ask never drops below 90% of the midpoint and the bid never rises
      above 110% of it. */
  function RouteOffers(req: NegotiateRequest, uSeller: real, uBuyer: real): (o: Negotiation.Offers)
    requires req.maxRounds != 0
    ensures o.ask >= (req.currentAskPrice + req.currentBidPrice) / 2.0 * 0.9
    ensures o.bid <= (req.currentAskPrice + req.currentBidPrice) / 2.0 * 1.1
  {
    var ask := req.currentAskPrice;
    var bid := req.currentBidPrice;
    var midPoint := (ask + bid) / 2.0;
    var pressure := req.round as real / req.maxRounds as real;
    var sellerConcession := ask * (0.03 + pressure * 0.06) * (0.8 + uSeller * 0.4);
    var buyerConcession := bid * (0.04 + pressure * 0.08) * (0.8 + uBuyer * 0.4);
    Negotiation.Offers(MaxR(ask - sellerConcession, midPoint * 0.9), MinR(bid + buyerConcession, midPoint * 1.1))
  }

  /** processNegotiation: concede, then test the deal exactly as the
      engine does. A deal or a rejection reports the new offers unrounded;
      a regular round reports them rounded to one decimal, with both moods
      angry on a high incoming spread and thinking otherwise. */
  function ProcessNegotiation(req: NegotiateRequest, uSeller: real, uBuyer: real): (r: NegotiateResponse)
    requires req.maxRounds != 0
    ensures !(r.dealReached && r.dealFailed)
    ensures r.finalPrice.Some? <==> r.dealReached
    ensures r.dealReached ==> r.finalPrice == Some(Round1((r.newAskPrice + r.newBidPrice) / 2.0))
  {
    var o := RouteOffers(req, uSeller, uBuyer);
    var newSpread := o.ask - o.bid;
    var dealThreshold := req.basePrice * 0.08;
    if newSpread <= dealThreshold || req.round >= req.maxRounds - 1 then
      if newSpread <= req.basePrice * 0.3 || req.round >= req.maxRounds - 1 then
        var finalPrice := Round1((o.ask + o.bid) / 2.0);
        NegotiateResponse(o.ask, o.bid, Excited, Happy, true, false, Some(finalPrice))
      else
        NegotiateResponse(o.ask, o.bid, Disappointed, Angry, false, true, None)
    else
      var mood := if IsHighSpread(req.currentAskPrice, req.currentBidPrice) then Angry else Thinking;
      NegotiateResponse(Round1(o.ask), Round1(o.bid), mood, mood, false, false, None)
  }

  /** POST: an unparseable body is an internal error (500); a request with
      a falsy seller, buyer or item name is rejected (400) before any
      computation; anything else gets the round's result (200). */
  function Post(body: Option<NegotiateRequest>, uSeller: real, uBuyer: real): (r: Reply)
    requires (body.Some? && !Falsy(body.value.sellerName) && !Falsy(body.value.buyerName)
              && !Falsy(body.value.itemName)) ==> body.value.maxRounds != 0
    ensures StatusCode(r) == 500 <==> body.None?
    ensures StatusCode(r) == 400 <==>
              body.Some? && (Falsy(body.value.sellerName) || Falsy(body.value.buyerName) || Falsy(body.value.itemName))
    ensures r.BadRequest? ==> r.error == MissingFieldsError
    ensures r.ServerError? ==> r.error == InternalError
  {
    match body
    case None => ServerError(InternalError)
    case Some(req) =>
      if Falsy(req.sellerName) || Falsy(req.buyerName) || Falsy(req.itemName) then
        BadRequest(MissingFieldsError)
      else
        Ok(ProcessNegotiation(req, uSeller, uBuyer))
  }

  // ---------------------------------------------------------------------
  // Properties

  /** A well-formed request is answered with exactly the round's result. */
  lemma AcceptedRequest(req: NegotiateRequest, uSeller: real, uBuyer: real)
    requires !Falsy(req.sellerName) && !Falsy(req.buyerName) && !Falsy(req.itemName)
    requires req.maxRounds != 0
    ensures Post(Some(req), uSeller, uBuyer) == Ok(ProcessNegotiation(req, uSeller, uBuyer))
    ensures StatusCode(Post(Some(req), uSeller, uBuyer)) == 200
  {
  }

  /** The route's concession step is the engine's concession step. */
  lemma RouteOffersAreEngineOffers(req: NegotiateRequest, uSeller: real, uBuyer: real)
    requires req.maxRounds != 0
    ensures RouteOffers(req, uSeller, uBuyer)
            == Negotiation.Concession(req.currentAskPrice, req.currentBidPrice, req.round, req.maxRounds, uSeller, uBuyer)
  {
  }

  /** Deals and rejections report the new offers as computed, which keep
      the ask at least 90% and the bid at most 110% of the incoming
      midpoint; a regular round reports them rounded to one decimal, which
      moves them by at most 0.05. This holds on every round the endpoint
      is given, round 0 and negative rounds included. */
  lemma OffersReported(req: NegotiateRequest, uSeller: real, uBuyer: real)
    requires req.maxRounds != 0
    ensures var r := ProcessNegotiation(req, uSeller, uBuyer);
            var o := RouteOffers(req, uSeller, uBuyer);
            && (r.dealReached || r.dealFailed ==>
                  r.newAskPrice == o.ask && r.newBidPrice == o.bid)
            && (!r.dealReached && !r.dealFailed ==>
                  r.newAskPrice == Round1(o.ask) && r.newBidPrice == Round1(o.bid))
    ensures var r := ProcessNegotiation(req, uSeller, uBuyer);
            var mid := (req.currentAskPrice + req.currentBidPrice) / 2.0;
            && (r.dealReached || r.dealFailed ==>
                  r.newAskPrice >= mid * 0.9 && r.newBidPrice <= mid * 1.1)
            && (!r.dealReached && !r.dealFailed ==>
                  && OneDecimal(r.newAskPrice) && OneDecimal(r.newBidPrice)
                  && r.newAskPrice >= mid * 0.9 - 1.0 / 20.0 && r.newBidPrice <= mid * 1.1 + 1.0 / 20.0)
  {
    RouteOffersAreEngineOffers(req, uSeller, uBuyer);
  }

  /** The route's deal test, both ways and on every round it is given: a
      deal exactly in the last round or when the new spread is within both
      8% and 30% of the base price, and neither outcome exactly when it is
      not the last round and the new spread exceeds 8% of the base price. */
  lemma DealTest(req: NegotiateRequest, uSeller: real, uBuyer: real)
    requires req.maxRounds != 0
    ensures var r := ProcessNegotiation(req, uSeller, uBuyer);
            var o := RouteOffers(req, uSeller, uBuyer);
            var last := req.round >= req.maxRounds - 1;
            var spread := o.ask - o.bid;
            && (r.dealReached <==> last || (spread <= req.basePrice * 0.08 && spread <= req.basePrice * 0.3))
            && (!r.dealReached && !r.dealFailed <==> !last && spread > req.basePrice * 0.08)
  {
  }

  /** The last round always reaches a deal, at the one-decimal midpoint of
      the new offers. */
  lemma ForcedFinalRoundDeals(req: NegotiateRequest, uSeller: real, uBuyer: real)
    requires req.maxRounds != 0 && req.round >= req.maxRounds - 1
    ensures var r := ProcessNegotiation(req, uSeller, uBuyer);
            && r.dealReached && !r.dealFailed
            && r.finalPrice == Some(Round1((r.newAskPrice + r.newBidPrice) / 2.0))
            && r.sellerEmotion == Excited && r.buyerEmotion == Happy
  {
  }

  /** The rejection needs an 8% deal threshold below the 30% acceptance
      threshold, i.e. a negative base price: with basePrice >= 0 the route
      never reports a failed deal. */
  lemma NeverFailsWithNonNegativeBase(req: NegotiateRequest, uSeller: real, uBuyer: real)
    requires req.maxRounds != 0
    ensures var r := ProcessNegotiation(req, uSeller, uBuyer);
            r.dealFailed <==>
              && req.round < req.maxRounds - 1
              && var o := RouteOffers(req, uSeller, uBuyer);
                 req.basePrice * 0.3 < o.ask - o.bid <= req.basePrice * 0.08
    ensures req.basePrice >= 0.0 ==> !ProcessNegotiation(req, uSeller, uBuyer).dealFailed
  {
  }

  /** Moods: excited seller and happy buyer on a deal, disappointed seller
      and angry buyer on a rejection; on a regular round both are angry
      exactly when the incoming spread is high, and thinking otherwise. */
  lemma MoodsFollowOutcome(req: NegotiateRequest, uSeller: real, uBuyer: real)
    requires req.maxRounds != 0
    ensures var r := ProcessNegotiation(req, uSeller, uBuyer);
            && (r.dealReached ==> r.sellerEmotion == Excited && r.buyerEmotion == Happy)
            && (r.dealFailed ==> r.sellerEmotion == Disappointed && r.buyerEmotion == Angry)
            && (!r.dealReached && !r.dealFailed ==>
                  && r.sellerEmotion == r.buyerEmotion
                  && (r.sellerEmotion == Angry <==> IsHighSpread(req.currentAskPrice, req.currentBidPrice))
                  && (r.sellerEmotion == Thinking <==> !IsHighSpread(req.currentAskPrice, req.currentBidPrice)))
  {
  }

  /** The request built from an engine session in round 1 or later gets
      the engine's outcome: a deal exactly when the engine reaches one, at
      the same final price, a rejection exactly when the engine fails, the
      same offers on both, and the engine's offers rounded otherwise. */
  lemma AgreesWithEngine(session: Negotiation.Session, seller: Agent, buyer: Agent, item: Item,
                         d: Negotiation.Draws, names: (string, string, string))
    requires session.currentRound >= 1 && session.maxRounds != 0
    ensures var req := NegotiateRequest(Some(names.0), Some(names.1), Some(names.2), item.basePrice,
                                        session.sellerAskPrice, session.buyerBidPrice,
                                        session.currentRound, session.maxRounds);
            var r := ProcessNegotiation(req, d.sellerDraw, d.buyerDraw);
            var u := Negotiation.ProcessNegotiationRound(session, seller, buyer, item, d).sessionUpdate;
            && (r.dealReached <==> u.status == Some(Negotiation.DealReached))
            && (r.dealFailed <==> u.status == Some(Negotiation.DealFailed))
            && r.finalPrice == u.finalPrice
            && u.sellerAskPrice.Some? && u.buyerBidPrice.Some?
            && (r.dealReached || r.dealFailed ==>
                  r.newAskPrice == u.sellerAskPrice.value && r.newBidPrice == u.buyerBidPrice.value)
            && (!r.dealReached && !r.dealFailed ==>
                  r.newAskPrice == Round1(u.sellerAskPrice.value) && r.newBidPrice == Round1(u.buyerBidPrice.value))
  {
    var req := NegotiateRequest(Some(names.0), Some(names.1), Some(names.2), item.basePrice,
                                session.sellerAskPrice, session.buyerBidPrice,
                                session.currentRound, session.maxRounds);
    RouteOffersAreEngineOffers(req, d.sellerDraw, d.buyerDraw);
  }
}
