/** The bilateral negotiation engine (src/engine/negotiation.ts): one seller
    and one buyer converge on a price over a bounded number of rounds. Each
    call is a pure function of the session snapshot, the item and two
    uniform draws; it returns the settlement records to emit and the
    partial update the driver merges into its session. Chat messages are
    cosmetic and not modelled. */
module Negotiation {
  import opened Domain
  import opened Settlement

  datatype Status = Waiting | Negotiating | DealReached | DealFailed | Completed

  datatype Session = Session(
    id: string,
    sellerId: string,
    buyerId: string,
    itemId: string,
    status: Status,
    currentRound: int,
    maxRounds: int,
    sellerAskPrice: real,
    buyerBidPrice: real,
    finalPrice: Option<real>)

  /** A partial session: the fields a round sets. Every round sets the
      round counter; None leaves the driver's field as it was. */
  datatype SessionUpdate = SessionUpdate(
    status: Option<Status>,
    currentRound: int,
    sellerAskPrice: Option<real>,
    buyerBidPrice: Option<real>,
    finalPrice: Option<real>)

  datatype Step = Step(contractEvents: seq<Record>, sessionUpdate: SessionUpdate)

  /** The random inputs of one round: the seller's and the buyer's
      concession draws (each in [0, 1)) and the randomly drawn base block
      number of the settlement records. */
  datatype Draws = Draws(sellerDraw: real, buyerDraw: real, block: int)

  datatype Offers = Offers(ask: real, bid: real)

  const MaxRoundsDefault: int := 8
  const EscrowName: string := "Escrow Contract"
  const ProtocolName: string := "AGENTS.OS Protocol"

  predicate IsTerminal(st: Status) {
    st == DealReached || st == DealFailed
  }

  /** A new session: the seller asks the item's current price and the
      buyer's opening bid is a random 30%-55% of it. */
  function CreateNegotiationSession(id: string, seller: Agent, buyer: Agent, item: Item, u: real): (s: Session)
    ensures s.id == id && s.sellerId == seller.id && s.buyerId == buyer.id && s.itemId == item.id
    ensures s.status == Waiting && s.currentRound == 0 && s.maxRounds == MaxRoundsDefault
    ensures s.sellerAskPrice == item.currentPrice && s.finalPrice == None
    ensures 0.0 <= u < 1.0 && item.currentPrice > 0.0 ==>
              0.3 * item.currentPrice <= s.buyerBidPrice < 0.55 * item.currentPrice
              && s.buyerBidPrice < s.sellerAskPrice
  {
    ScaleByDraw(item.currentPrice, u);
    Session(id, seller.id, buyer.id, item.id, Waiting, 0, MaxRoundsDefault,
            item.currentPrice, item.currentPrice * (0.3 + u * 0.25), None)
  }

  /** One round of concessions. The seller gives up 3%-9% of the ask (more
      as the rounds run out, scaled by a random 0.8-1.2) but never goes
      below 90% of the midpoint; the buyer adds 4%-12% to the bid, likewise
      scaled, but never above 110% of the midpoint. */
  function Concession(ask: real, bid: real, round: int, maxRounds: int, uSeller: real, uBuyer: real): (o: Offers)
    requires maxRounds != 0
    ensures o.ask >= (ask + bid) / 2.0 * 0.9
    ensures o.bid <= (ask + bid) / 2.0 * 1.1
  {
    var midPoint := (ask + bid) / 2.0;
    var sellerPressure := round as real / maxRounds as real;
    var sellerConcession := ask * (0.03 + sellerPressure * 0.06) * (0.8 + uSeller * 0.4);
    var newAsk := MaxR(ask - sellerConcession, midPoint * 0.9);
    var buyerUrgency := round as real / maxRounds as real;
    var buyerConcession := bid * (0.04 + buyerUrgency * 0.08) * (0.8 + uBuyer * 0.4);
    var newBid := MinR(bid + buyerConcession, midPoint * 1.1);
    Offers(newAsk, newBid)
  }

  /** processNegotiationRound. Round 0 only opens the talks (the prices
      were seeded at creation). Later rounds concede, then test the deal:
      if the new spread is within 8% of the base price or this is the last
      round, the deal is accepted when the spread is within 30% of the base
      price or this is the last round, and rejected otherwise. */
  function ProcessNegotiationRound(session: Session, seller: Agent, buyer: Agent, item: Item, d: Draws): (step: Step)
    requires session.currentRound == 0 || session.maxRounds != 0
    ensures step.sessionUpdate.currentRound == session.currentRound + 1
    ensures step.sessionUpdate.status == Some(DealReached) <==> |step.contractEvents| == 4
    ensures step.sessionUpdate.status == Some(DealFailed) <==> |step.contractEvents| == 1
    ensures step.sessionUpdate.finalPrice.Some? <==> step.sessionUpdate.status == Some(DealReached)
  {
    var round := session.currentRound;
    var maxRounds := session.maxRounds;
    if round == 0 then
      Step([], SessionUpdate(Some(Negotiating), 1, None, None, None))
    else
      var o := Concession(session.sellerAskPrice, session.buyerBidPrice, round, maxRounds, d.sellerDraw, d.buyerDraw);
      var newSpread := o.ask - o.bid;
      var dealThreshold := item.basePrice * 0.08;
      if newSpread <= dealThreshold || round >= maxRounds - 1 then
        if newSpread <= item.basePrice * 0.3 || round >= maxRounds - 1 then
          var finalPrice := Round1((o.ask + o.bid) / 2.0);
          Step(SuccessChain(session.id, item.id, buyer.name, EscrowName, seller.name, ProtocolName, finalPrice, d.block),
               SessionUpdate(Some(DealReached), round + 1, Some(o.ask), Some(o.bid), Some(finalPrice)))
        else
          Step([CancelRecord(session.id, item.id, ProtocolName, d.block)],
               SessionUpdate(Some(DealFailed), round + 1, Some(o.ask), Some(o.bid), None))
      else
        Step([], SessionUpdate(None, round + 1, Some(o.ask), Some(o.bid), None))
  }

  /** The driver's merge { ...session, ...sessionUpdate }. */
  function Apply(s: Session, u: SessionUpdate): (t: Session)
    ensures t.id == s.id && t.maxRounds == s.maxRounds && t.currentRound == u.currentRound
    ensures t.status == (if u.status.Some? then u.status.value else s.status)
  {
    s.(status := if u.status.Some? then u.status.value else s.status,
       currentRound := u.currentRound,
       sellerAskPrice := if u.sellerAskPrice.Some? then u.sellerAskPrice.value else s.sellerAskPrice,
       buyerBidPrice := if u.buyerBidPrice.Some? then u.buyerBidPrice.value else s.buyerBidPrice,
       finalPrice := if u.finalPrice.Some? then u.finalPrice else s.finalPrice)
  }

  /** The driver loop: advance one round per draw until the session is
      deal_reached or deal_failed (or the draws run out). Each call moves
      the round counter by one, so a session left undecided has used every
      draw; a decided session is left as it is. */
  function RunNegotiation(s: Session, seller: Agent, buyer: Agent, item: Item, ds: seq<Draws>): (t: Session)
    requires s.maxRounds != 0
    ensures t.id == s.id && t.maxRounds == s.maxRounds
    ensures s.currentRound <= t.currentRound <= s.currentRound + |ds|
    ensures !IsTerminal(t.status) ==> t.currentRound == s.currentRound + |ds|
    ensures IsTerminal(s.status) ==> t == s
    decreases |ds|
  {
    if |ds| == 0 || IsTerminal(s.status) then s
    else RunNegotiation(Apply(s, ProcessNegotiationRound(s, seller, buyer, item, ds[0]).sessionUpdate),
                        seller, buyer, item, ds[1..])
  }

  // ---------------------------------------------------------------------
  // Properties of one round

  /** Round 0 opens the talks and nothing else: status negotiating, round
      1, prices untouched, no records. */
  lemma OpeningRound(session: Session, seller: Agent, buyer: Agent, item: Item, d: Draws)
    requires session.currentRound == 0
    ensures ProcessNegotiationRound(session, seller, buyer, item, d)
            == Step([], SessionUpdate(Some(Negotiating), 1, None, None, None))
  {
  }

  /** For prices 0 <= bid <= ask, every draw moves both sides towards each
      other: the ask does not rise and the bid does not fall, within the
      90%/110%-of-midpoint floor and ceiling. */
  lemma ConcessionNarrows(ask: real, bid: real, round: int, maxRounds: int, uSeller: real, uBuyer: real)
    requires 0.0 <= bid <= ask
    requires 0 <= round && 0 < maxRounds
    requires 0.0 <= uSeller < 1.0 && 0.0 <= uBuyer < 1.0
    ensures var o := Concession(ask, bid, round, maxRounds, uSeller, uBuyer);
            (ask + bid) / 2.0 * 0.9 <= o.ask <= ask && bid <= o.bid <= (ask + bid) / 2.0 * 1.1
  {
    var pressure := round as real / maxRounds as real;
    assert pressure >= 0.0;
    var rateS := (0.03 + pressure * 0.06) * (0.8 + uSeller * 0.4);
    var rateB := (0.04 + pressure * 0.08) * (0.8 + uBuyer * 0.4);
    assert rateS >= 0.0 && rateB >= 0.0;
    assert ask * (0.03 + pressure * 0.06) * (0.8 + uSeller * 0.4) == ask * rateS;
    assert bid * (0.04 + pressure * 0.08) * (0.8 + uBuyer * 0.4) == bid * rateB;
    assert ask * rateS >= 0.0;
    assert bid * rateB >= 0.0;
  }

  /** The last round (round >= maxRounds - 1) always ends in a deal. */
  lemma ForcedFinalRoundDeals(session: Session, seller: Agent, buyer: Agent, item: Item, d: Draws)
    requires session.currentRound != 0 && session.maxRounds != 0
    requires session.currentRound >= session.maxRounds - 1
    ensures ProcessNegotiationRound(session, seller, buyer, item, d).sessionUpdate.status == Some(DealReached)
  {
  }

  /** The reject branch fires exactly when an early round's new spread is
      within 8% but above 30% of the base price, which needs a negative base
      price: for basePrice >= 0 a negotiation never fails. */
  lemma FailureNeedsNegativeBase(session: Session, seller: Agent, buyer: Agent, item: Item, d: Draws)
    requires session.currentRound == 0 || session.maxRounds != 0
    ensures var step := ProcessNegotiationRound(session, seller, buyer, item, d);
            step.sessionUpdate.status == Some(DealFailed) <==>
              && session.currentRound != 0
              && session.currentRound < session.maxRounds - 1
              && var o := Concession(session.sellerAskPrice, session.buyerBidPrice, session.currentRound,
                                     session.maxRounds, d.sellerDraw, d.buyerDraw);
                 item.basePrice * 0.3 < o.ask - o.bid <= item.basePrice * 0.08
    ensures item.basePrice >= 0.0 ==>
              ProcessNegotiationRound(session, seller, buyer, item, d).sessionUpdate.status != Some(DealFailed)
  {
  }

  /** A deal settles at the midpoint of the new offers rounded to one
      decimal, persists the new offers, and emits the four-record chain
      from the buyer through the escrow to the seller. */
  lemma DealSettlement(session: Session, seller: Agent, buyer: Agent, item: Item, d: Draws)
    requires session.currentRound == 0 || session.maxRounds != 0
    requires ProcessNegotiationRound(session, seller, buyer, item, d).sessionUpdate.status == Some(DealReached)
    ensures var step := ProcessNegotiationRound(session, seller, buyer, item, d);
            var o := Concession(session.sellerAskPrice, session.buyerBidPrice, session.currentRound,
                                session.maxRounds, d.sellerDraw, d.buyerDraw);
            var fp := Round1((o.ask + o.bid) / 2.0);
            && session.currentRound != 0
            && step.sessionUpdate == SessionUpdate(Some(DealReached), session.currentRound + 1, Some(o.ask), Some(o.bid), Some(fp))
            && IsSuccessChain(step.contractEvents, session.id, item.id, fp)
            && step.contractEvents[0].fromAgent == buyer.name
            && step.contractEvents[1].toAgent == seller.name
            && step.contractEvents[2].fromAgent == seller.name && step.contractEvents[2].toAgent == buyer.name
            && MinR(o.ask, o.bid) - 1.0 / 20.0 < fp <= MaxR(o.ask, o.bid) + 1.0 / 20.0
            && OneDecimal(fp)
  {
    var o := Concession(session.sellerAskPrice, session.buyerBidPrice, session.currentRound,
                        session.maxRounds, d.sellerDraw, d.buyerDraw);
    SuccessChainShape(session.id, item.id, buyer.name, EscrowName, seller.name, ProtocolName,
                      Round1((o.ask + o.bid) / 2.0), d.block);
  }

  /** A failed negotiation emits exactly one cancellation record, for
      amount 0, and sets no final price. */
  lemma FailureSettlement(session: Session, seller: Agent, buyer: Agent, item: Item, d: Draws)
    requires session.currentRound == 0 || session.maxRounds != 0
    requires ProcessNegotiationRound(session, seller, buyer, item, d).sessionUpdate.status == Some(DealFailed)
    ensures var step := ProcessNegotiationRound(session, seller, buyer, item, d);
            && |step.contractEvents| == 1
            && step.contractEvents[0].kind == DealCancelled
            && step.contractEvents[0].amount == 0.0
            && step.contractEvents[0].sessionId == session.id
            && step.contractEvents[0].itemId == item.id
            && step.sessionUpdate.finalPrice == None
  {
  }

  /** A later round without a decision emits nothing, leaves the status
      alone, and persists the new offers. */
  lemma ContinuingRound(session: Session, seller: Agent, buyer: Agent, item: Item, d: Draws)
    requires session.currentRound != 0 && session.maxRounds != 0
    requires !ProcessNegotiationRound(session, seller, buyer, item, d).sessionUpdate.status.Some?
    ensures var step := ProcessNegotiationRound(session, seller, buyer, item, d);
            var o := Concession(session.sellerAskPrice, session.buyerBidPrice, session.currentRound,
                                session.maxRounds, d.sellerDraw, d.buyerDraw);
            && step.contractEvents == []
            && step.sessionUpdate == SessionUpdate(None, session.currentRound + 1, Some(o.ask), Some(o.bid), None)
            && o.ask - o.bid > item.basePrice * 0.08
            && session.currentRound < session.maxRounds - 1
  {
  }

  /** The deal test of a later round, both ways: a deal is reached exactly
      in the last round or when the new spread is within both 8% and 30%
      of the base price, and the round stays undecided exactly when it is
      not the last round and the new spread exceeds 8% of the base price. */
  lemma DealTest(session: Session, seller: Agent, buyer: Agent, item: Item, d: Draws)
    requires session.currentRound != 0 && session.maxRounds != 0
    ensures var step := ProcessNegotiationRound(session, seller, buyer, item, d);
            var o := Concession(session.sellerAskPrice, session.buyerBidPrice, session.currentRound,
                                session.maxRounds, d.sellerDraw, d.buyerDraw);
            var last := session.currentRound >= session.maxRounds - 1;
            var spread := o.ask - o.bid;
            && (step.sessionUpdate.status == Some(DealReached) <==>
                  last || (spread <= item.basePrice * 0.08 && spread <= item.basePrice * 0.3))
            && (step.sessionUpdate.status == None <==> !last && spread > item.basePrice * 0.08)
  {
  }

  /** Worked example: item price 100, round 1 of 8, every draw at the
      middle of its range. The buyer's seeded bid is 42.5 and the round
      moves the offers to 96.25 and 44.625. */
  lemma GoldenRoundOne()
    ensures CreateNegotiationSession("s", Agent("a", "A", 0.0, Traits(5, 5, 5, 5)),
                                     Agent("b", "B", 0.0, Traits(5, 5, 5, 5)),
                                     Item("i", "I", 80.0, 100.0), 0.5).buyerBidPrice == 42.5
    ensures Concession(100.0, 42.5, 1, 8, 0.5, 0.5) == Offers(96.25, 44.625)
  {
  }

  // ---------------------------------------------------------------------
  // Termination of the driver loop

  /** Started at a round below maxRounds (at least 2 rounds), the driver
      reaches deal_reached or deal_failed within maxRounds - currentRound
      calls, and the round counter never passes maxRounds. */
  lemma {:induction false} RunReachesTerminal(s: Session, seller: Agent, buyer: Agent, item: Item, ds: seq<Draws>)
    requires s.maxRounds >= 2 && 0 <= s.currentRound < s.maxRounds
    requires |ds| >= s.maxRounds - s.currentRound
    ensures var t := RunNegotiation(s, seller, buyer, item, ds);
            IsTerminal(t.status) && t.currentRound <= s.maxRounds && t.maxRounds == s.maxRounds
    decreases |ds|
  {
    if !IsTerminal(s.status) {
      var t := Apply(s, ProcessNegotiationRound(s, seller, buyer, item, ds[0]).sessionUpdate);
      if s.currentRound >= s.maxRounds - 1 {
        ForcedFinalRoundDeals(s, seller, buyer, item, ds[0]);
        assert IsTerminal(t.status) && t.currentRound == s.maxRounds;
        assert RunNegotiation(s, seller, buyer, item, ds) == RunNegotiation(t, seller, buyer, item, ds[1..]);
        assert RunNegotiation(t, seller, buyer, item, ds[1..]) == t;
      } else {
        assert t.currentRound == s.currentRound + 1 < s.maxRounds;
        RunReachesTerminal(t, seller, buyer, item, ds[1..]);
      }
    }
  }

  /** A fresh session ends, deal or no deal, within 8 driver calls. */
  lemma FreshSessionTerminates(id: string, seller: Agent, buyer: Agent, item: Item, u: real, ds: seq<Draws>)
    requires |ds| >= MaxRoundsDefault
    ensures var t := RunNegotiation(CreateNegotiationSession(id, seller, buyer, item, u), seller, buyer, item, ds);
            IsTerminal(t.status) && t.currentRound <= MaxRoundsDefault
  {
    RunReachesTerminal(CreateNegotiationSession(id, seller, buyer, item, u), seller, buyer, item, ds);
  }
}
