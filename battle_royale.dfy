/** The multi-buyer ascending auction (src/engine/battle-royale.ts). A
    round lets every active buyer bid: opening bids in round 0, raised bids
    with budget elimination in the middle rounds, forced final bids in the
    last round. The bid list is append-only and elimination is recorded in
    it, so the active set is recomputed from the list on every call.
    BattleRound is the round as a function of its inputs; ProcessBattleRound
    is the same round computed the way the source does it, one buyer at a
    time, and is proved equal to it. */
module BattleRoyale {
  import opened Domain
  import opened Settlement

  datatype Status = Waiting | Bidding | Completed | Cancelled

  datatype Bid = Bid(buyerId: string, buyerName: string, amount: real, round: int, eliminated: bool)

  datatype Session = Session(
    id: string,
    sellerId: string,
    buyerIds: seq<string>,
    itemId: string,
    status: Status,
    bids: seq<Bid>,
    currentRound: int,
    maxRounds: int,
    winnerId: Option<string>,
    winningPrice: Option<real>)

  /** A partial session: every round sets the round counter; None leaves
      the driver's field as it was. */
  datatype SessionUpdate = SessionUpdate(
    status: Option<Status>,
    currentRound: int,
    bids: Option<seq<Bid>>,
    winnerId: Option<string>,
    winningPrice: Option<real>)

  datatype Step = Step(bids: seq<Bid>, contractEvents: seq<Record>, sessionUpdate: SessionUpdate)

  /** The random inputs of one round: one opening draw in [0, 1) per buyer
      position, and the base block number of the settlement records. */
  datatype Draws = Draws(opening: seq<real>, block: int)

  const MaxRoundsDefault: int := 5
  const EscrowName: string := "Battle Escrow"
  const ProtocolName: string := "Battle Royale Protocol"

  predicate IsTerminal(st: Status) {
    st == Completed || st == Cancelled
  }

  predicate DistinctIds(buyers: seq<Agent>) {
    forall i, j | 0 <= i < j < |buyers| :: buyers[i].id != buyers[j].id
  }

  /** A new auction: waiting, round 0 of 5, no bids, and the buyers' ids in
      the order the buyers were given. */
  function CreateBattleSession(id: string, seller: Agent, buyers: seq<Agent>, item: Item): (s: Session)
    ensures s.id == id && s.sellerId == seller.id && s.itemId == item.id
    ensures s.status == Waiting && s.currentRound == 0 && s.maxRounds == MaxRoundsDefault && s.bids == []
    ensures |s.buyerIds| == |buyers| && forall i | 0 <= i < |buyers| :: s.buyerIds[i] == buyers[i].id
    ensures s.winnerId == None && s.winningPrice == None
  {
    Session(id, seller.id, seq(|buyers|, i requires 0 <= i < |buyers| => buyers[i].id), item.id,
            Waiting, [], 0, MaxRoundsDefault, None, None)
  }

  // ---------------------------------------------------------------------
  // Reading the bid list

  /** The ids of every buyer with an eliminated bid in the list. */
  function EliminatedIds(bids: seq<Bid>): (ids: set<string>)
    ensures forall i | 0 <= i < |bids| && bids[i].eliminated :: bids[i].buyerId in ids
    ensures forall id | id in ids :: exists i :: 0 <= i < |bids| && bids[i].eliminated && bids[i].buyerId == id
  {
    set i | 0 <= i < |bids| && bids[i].eliminated :: bids[i].buyerId
  }

  /** buyers.filter(b => !eliminatedIds.has(b.id)): the buyers without an
      eliminated id, in the order they were given. */
  function ActiveBuyers(buyers: seq<Agent>, eliminated: set<string>): (r: seq<Agent>)
    ensures |r| <= |buyers|
    ensures forall a :: a in r <==> a in buyers && a.id !in eliminated
    ensures IsSubsequence(r, buyers)
  {
    if |buyers| == 0 then []
    else
      var rest := ActiveBuyers(buyers[..|buyers| - 1], eliminated);
      var b := buyers[|buyers| - 1];
      assert buyers == buyers[..|buyers| - 1] + [b];
      assert (rest + [b])[..|rest|] == rest;
      if b.id in eliminated then rest else rest + [b]
  }

  predicate HasStanding(bids: seq<Bid>) {
    exists i :: 0 <= i < |bids| && !bids[i].eliminated
  }

  /** bids.filter(b => !b.eliminated): the bids that are not
      eliminated, in list order. */
  function Standing(bids: seq<Bid>): (r: seq<Bid>)
    ensures |r| <= |bids|
    ensures forall b :: b in r <==> b in bids && !b.eliminated
    ensures IsSubsequence(r, bids)
  {
    if |bids| == 0 then []
    else
      var rest := Standing(bids[..|bids| - 1]);
      var b := bids[|bids| - 1];
      assert bids == bids[..|bids| - 1] + [b];
      assert (rest + [b])[..|rest|] == rest;
      if b.eliminated then rest else rest + [b]
  }

  /** The number of eliminations in a bid list. */
  function CountEliminated(bids: seq<Bid>): (n: nat)
    ensures n <= |bids|
  {
    if |bids| == 0 then 0
    else CountEliminated(bids[..|bids| - 1]) + (if bids[|bids| - 1].eliminated then 1 else 0)
  }

  /** Math.max over the amounts of the standing bids. */
  function MaxStanding(bids: seq<Bid>): (r: real)
    requires HasStanding(bids)
    ensures forall i | 0 <= i < |bids| && !bids[i].eliminated :: bids[i].amount <= r
    ensures exists i :: 0 <= i < |bids| && !bids[i].eliminated && bids[i].amount == r
  {
    var n := |bids| - 1;
    var prefix := bids[..n];
    if HasStanding(prefix) then
      var m := MaxStanding(prefix);
      if !bids[n].eliminated && bids[n].amount > m then bids[n].amount else m
    else
      bids[n].amount
  }

  /** The auction's reference price: the highest standing bid, or 40% of
      the item price before any bid exists. (With bids but none standing
      the source computes -Infinity, which this model excludes.) */
  function CurrentHighest(bids: seq<Bid>, item: Item): (r: real)
    requires |bids| == 0 || HasStanding(bids)
    ensures |bids| == 0 ==> r == item.currentPrice * 0.4
    ensures forall i | 0 <= i < |bids| && !bids[i].eliminated :: bids[i].amount <= r
    ensures |bids| > 0 ==> exists i :: 0 <= i < |bids| && !bids[i].eliminated && bids[i].amount == r
  {
    if |bids| > 0 then MaxStanding(bids) else item.currentPrice * 0.4
  }

  predicate StandingFor(b: Bid, buyerId: string) {
    b.buyerId == buyerId && !b.eliminated
  }

  /** The amount of the buyer's most recent standing bid, if any. */
  function LastStanding(bids: seq<Bid>, buyerId: string): (r: Option<real>)
    ensures r == None <==> forall i | 0 <= i < |bids| :: !StandingFor(bids[i], buyerId)
    ensures r.Some? ==> exists i :: 0 <= i < |bids| && StandingFor(bids[i], buyerId) && bids[i].amount == r.value
                                    && forall j | i < j < |bids| :: !StandingFor(bids[j], buyerId)
  {
    if |bids| == 0 then None
    else
      var n := |bids| - 1;
      if StandingFor(bids[n], buyerId) then Some(bids[n].amount)
      else LastStanding(bids[..n], buyerId)
  }

  /** The buyer's last standing amount, or the given fallback when it
      has none. */
  function LastBid(bids: seq<Bid>, buyerId: string, fallback: real): (r: real)
    ensures (forall i | 0 <= i < |bids| :: !StandingFor(bids[i], buyerId)) ==> r == fallback
    ensures (exists i :: 0 <= i < |bids| && StandingFor(bids[i], buyerId)) ==>
              exists i :: 0 <= i < |bids| && StandingFor(bids[i], buyerId) && bids[i].amount == r
                          && forall j | i < j < |bids| :: !StandingFor(bids[j], buyerId)
  {
    match LastStanding(bids, buyerId)
    case Some(a) => a
    case None => fallback
  }

  // ---------------------------------------------------------------------
  // One buyer's bid in each kind of round

  /** Round 0's base bid: a random 35%-60% of the item price. */
  function OpeningBase(price: real, u: real): real
  {
    price * (0.35 + u * 0.25)
  }

  /** Round 0's personality factor: 0.8-1.2 with aggressiveness 0-10. */
  function OpeningMultiplier(aggressiveness: int): real
  {
    var personalityMultiplier := aggressiveness as real / 10.0;
    0.8 + personalityMultiplier * 0.4
  }

  /** Round 0's unrounded amount: the base bid scaled by the personality
      factor. */
  function OpeningAmount(price: real, u: real, aggressiveness: int): real
  {
    OpeningBase(price, u) * OpeningMultiplier(aggressiveness)
  }

  /** Round 0: the buyer's standing bid at the opening amount rounded to
      one decimal. */
  function OpeningBid(buyer: Agent, item: Item, u: real): (b: Bid)
    ensures b.buyerId == buyer.id && b.buyerName == buyer.name && b.round == 0 && !b.eliminated
    ensures var x := OpeningAmount(item.currentPrice, u, buyer.customization.aggressiveness);
            x - 1.0 / 20.0 < b.amount <= x + 1.0 / 20.0 && OneDecimal(b.amount)
  {
    Bid(buyer.id, buyer.name, Round1(OpeningAmount(item.currentPrice, u, buyer.customization.aggressiveness)), 0, false)
  }

  /** The budget's share of the item price: 0.8 plus up to 0.6, growing
      with risk tolerance plus aggressiveness. */
  function BudgetShare(t: Traits): real
  {
    var maxBudgetRatio := (t.riskTolerance + t.aggressiveness) as real / 20.0;
    0.8 + maxBudgetRatio * 0.6
  }

  /** The most a buyer will pay in a middle round: the item price scaled
      by the budget share. */
  function MaxBudget(buyer: Agent, item: Item): real
  {
    item.currentPrice * BudgetShare(buyer.customization)
  }

  /** A middle round's raise as a share of the current highest: 3% plus up
      to 12% by aggressiveness. */
  function RaiseShare(aggressiveness: int): real
  {
    0.03 + (aggressiveness as real / 10.0) * 0.12
  }

  /** A middle round's proposal: the higher of the buyer's last bid and the
      current highest, raised by the raise share of the current highest,
      rounded to one decimal. */
  function Proposed(buyer: Agent, lastBid: real, currentHighest: real): real
  {
    Round1(MaxR(lastBid, currentHighest) + currentHighest * RaiseShare(buyer.customization.aggressiveness))
  }

  /** A middle-round bid: the proposal, unless it exceeds the budget or the
      balance, in which case the buyer drops out at its last bid (half the
      current highest if it has none). */
  function MidBid(buyer: Agent, prior: seq<Bid>, item: Item, currentHighest: real, round: int): (b: Bid)
    ensures b.buyerId == buyer.id && b.buyerName == buyer.name && b.round == round
    ensures var lastBid := LastBid(prior, buyer.id, currentHighest * 0.5);
            var proposed := Proposed(buyer, lastBid, currentHighest);
            && (b.eliminated <==> proposed > MaxBudget(buyer, item) || proposed > buyer.balance)
            && (b.eliminated ==> b.amount == lastBid)
            && (!b.eliminated ==> b.amount == proposed && b.amount <= MaxBudget(buyer, item) && b.amount <= buyer.balance)
  {
    var lastBid := LastBid(prior, buyer.id, currentHighest * 0.5);
    var newBid := Proposed(buyer, lastBid, currentHighest);
    if newBid > MaxBudget(buyer, item) || newBid > buyer.balance then
      Bid(buyer.id, buyer.name, lastBid, round, true)
    else
      Bid(buyer.id, buyer.name, newBid, round, false)
  }

  /** The last round's unrounded amount: the last bid raised by 5%-20%
      with aggressiveness. */
  function FinalAmount(lastBid: real, aggressiveness: int): real
  {
    var urgency := aggressiveness as real / 10.0;
    lastBid * (1.05 + urgency * 0.15)
  }

  /** A last-round bid: the buyer's last bid (the current highest if none)
      raised by the final amount, rounded; never eliminated. */
  function FinalBid(buyer: Agent, prior: seq<Bid>, currentHighest: real, round: int): (b: Bid)
    ensures b.buyerId == buyer.id && b.buyerName == buyer.name && b.round == round && !b.eliminated
    ensures var x := FinalAmount(LastBid(prior, buyer.id, currentHighest), buyer.customization.aggressiveness);
            x - 1.0 / 20.0 < b.amount <= x + 1.0 / 20.0 && OneDecimal(b.amount)
  {
    var lastBid := LastBid(prior, buyer.id, currentHighest);
    Bid(buyer.id, buyer.name, Round1(FinalAmount(lastBid, buyer.customization.aggressiveness)), round, false)
  }

  function OpeningBids(active: seq<Agent>, item: Item, us: seq<real>): (nb: seq<Bid>)
    requires |us| >= |active|
    ensures |nb| == |active|
  {
    seq(|active|, k requires 0 <= k < |active| => OpeningBid(active[k], item, us[k]))
  }

  function MidBids(active: seq<Agent>, prior: seq<Bid>, item: Item, currentHighest: real, round: int): (nb: seq<Bid>)
    ensures |nb| == |active|
  {
    seq(|active|, k requires 0 <= k < |active| => MidBid(active[k], prior, item, currentHighest, round))
  }

  function FinalBids(active: seq<Agent>, prior: seq<Bid>, currentHighest: real, round: int): (nb: seq<Bid>)
    ensures |nb| == |active|
  {
    seq(|active|, k requires 0 <= k < |active| => FinalBid(active[k], prior, currentHighest, round))
  }

  // ---------------------------------------------------------------------
  // Choosing a winner

  /** The position of the first highest bid: what a stable descending sort
      puts first. */
  function FirstMax(bids: seq<Bid>): (k: nat)
    requires |bids| > 0
    ensures k < |bids|
    ensures forall j | 0 <= j < |bids| :: bids[j].amount <= bids[k].amount
    ensures forall j | 0 <= j < k :: bids[j].amount < bids[k].amount
  {
    var n := |bids| - 1;
    if n == 0 then 0
    else
      var k := FirstMax(bids[..n]);
      if bids[n].amount > bids[k].amount then n else k
  }

  /** The position of the first standing bid (newBids.find(b => !b.eliminated)). */
  function FirstStanding(bids: seq<Bid>): (k: nat)
    requires HasStanding(bids)
    ensures k < |bids| && !bids[k].eliminated
    ensures forall j | 0 <= j < k :: bids[j].eliminated
  {
    if !bids[0].eliminated then 0
    else
      assert HasStanding(bids[1..]) by {
        var i :| 0 <= i < |bids| && !bids[i].eliminated;
        assert bids[1..][i - 1] == bids[i];
      }
      1 + FirstStanding(bids[1..])
  }

  /** Math.max(...standing amounts, 0): never negative, at least every
      standing amount, and when positive the amount of a standing bid. */
  function HighestOrZero(bids: seq<Bid>): (r: real)
    ensures r >= 0.0
    ensures forall i | 0 <= i < |bids| && !bids[i].eliminated :: bids[i].amount <= r
    ensures r > 0.0 ==> exists i :: 0 <= i < |bids| && !bids[i].eliminated && bids[i].amount == r
  {
    if HasStanding(bids) then MaxR(MaxStanding(bids), 0.0) else 0.0
  }

  // ---------------------------------------------------------------------
  // The round

  /** When the round can price bids: the source reads the highest standing
      bid on every round after the first that has an active buyer. */
  predicate RoundDefined(s: Session, buyers: seq<Agent>) {
    || s.currentRound == 0
    || |s.bids| == 0 || HasStanding(s.bids)
    || |ActiveBuyers(buyers, EliminatedIds(s.bids))| == 0
  }

  /** A completed auction: the winner's bid settles the sale. */
  function Completion(s: Session, seller: Agent, item: Item, nb: seq<Bid>, w: Bid, block: int): (step: Step)
    ensures step.bids == nb && |step.contractEvents| == 4
    ensures step.sessionUpdate == SessionUpdate(Some(Completed), s.currentRound + 1, Some(s.bids + nb), Some(w.buyerId), Some(w.amount))
    ensures IsSuccessChain(step.contractEvents, s.id, item.id, w.amount)
    ensures step.contractEvents[0].fromAgent == w.buyerName && step.contractEvents[2].toAgent == w.buyerName
  {
    Step(nb, SuccessChain(s.id, item.id, w.buyerName, EscrowName, seller.name, ProtocolName, w.amount, block),
         SessionUpdate(Some(Completed), s.currentRound + 1, Some(s.bids + nb), Some(w.buyerId), Some(w.amount)))
  }

  /** processBattleRound as a function of its inputs. */
  function BattleRound(s: Session, seller: Agent, buyers: seq<Agent>, item: Item, d: Draws): (step: Step)
    requires |d.opening| >= |buyers|
    requires RoundDefined(s, buyers)
    ensures step.sessionUpdate.currentRound == s.currentRound + 1
    ensures step.sessionUpdate.bids == None || step.sessionUpdate.bids == Some(s.bids + step.bids)
    ensures |step.bids| <= |buyers|
    ensures step.sessionUpdate.status == Some(Completed) <==> step.contractEvents != []
    ensures step.sessionUpdate.status == Some(Completed) ==>
              && step.sessionUpdate.winnerId.Some? && step.sessionUpdate.winningPrice.Some?
              && IsSuccessChain(step.contractEvents, s.id, item.id, step.sessionUpdate.winningPrice.value)
  {
    var round := s.currentRound;
    var active := ActiveBuyers(buyers, EliminatedIds(s.bids));
    if |active| == 0 then
      Step([], [], SessionUpdate(Some(Cancelled), round + 1, None, None, None))
    else if round == 0 then
      var nb := OpeningBids(active, item, d.opening);
      Step(nb, [], SessionUpdate(Some(Bidding), 1, Some(s.bids + nb), None, None))
    else
      var currentHighest := CurrentHighest(s.bids, item);
      if round >= s.maxRounds - 1 then
        var nb := FinalBids(active, s.bids, currentHighest, round);
        var allBids := Standing(s.bids) + nb;
        Completion(s, seller, item, nb, allBids[FirstMax(allBids)], d.block)
      else
        var nb := MidBids(active, s.bids, item, currentHighest, round);
        var remainingAfter := |active| - CountEliminated(nb);
        if remainingAfter <= 1 && HighestOrZero(nb) > 0.0 then
          Completion(s, seller, item, nb, nb[FirstStanding(nb)], d.block)
        else
          Step(nb, [], SessionUpdate(None, round + 1, Some(s.bids + nb), None, None))
  }

  /** The buyers still active at the start of the session's round. */
  function Active(s: Session, buyers: seq<Agent>): seq<Agent>
  {
    ActiveBuyers(buyers, EliminatedIds(s.bids))
  }

  predicate MidRound(s: Session) {
    s.currentRound != 0 && s.currentRound < s.maxRounds - 1
  }

  predicate FinalRound(s: Session) {
    s.currentRound != 0 && s.currentRound >= s.maxRounds - 1
  }

  /** BattleRound unfolded once, branch by branch, in terms of the
      per-kind bid functions. */
  lemma RoundCases(s: Session, seller: Agent, buyers: seq<Agent>, item: Item, d: Draws)
    requires |d.opening| >= |buyers| && RoundDefined(s, buyers)
    ensures var step := BattleRound(s, seller, buyers, item, d);
            var active := Active(s, buyers);
            && (|active| == 0 ==>
                  step == Step([], [], SessionUpdate(Some(Cancelled), s.currentRound + 1, None, None, None)))
            && (|active| > 0 && s.currentRound == 0 ==>
                  step == Step(OpeningBids(active, item, d.opening), [],
                               SessionUpdate(Some(Bidding), 1, Some(s.bids + OpeningBids(active, item, d.opening)), None, None)))
            && (|active| > 0 && FinalRound(s) ==>
                  var nb := FinalBids(active, s.bids, CurrentHighest(s.bids, item), s.currentRound);
                  var allBids := Standing(s.bids) + nb;
                  step == Completion(s, seller, item, nb, allBids[FirstMax(allBids)], d.block))
            && (|active| > 0 && MidRound(s) ==>
                  var nb := MidBids(active, s.bids, item, CurrentHighest(s.bids, item), s.currentRound);
                  if |active| - CountEliminated(nb) <= 1 && HighestOrZero(nb) > 0.0
                  then step == Completion(s, seller, item, nb, nb[FirstStanding(nb)], d.block)
                  else step == Step(nb, [], SessionUpdate(None, s.currentRound + 1, Some(s.bids + nb), None, None)))
  {
  }

  /** The opening forEach: each active buyer, in order, places its
      opening bid with its own draw. */
  method OpeningPass(activeBuyers: seq<Agent>, item: Item, us: seq<real>) returns (newBids: seq<Bid>)
    requires |us| >= |activeBuyers|
    ensures newBids == OpeningBids(activeBuyers, item, us)
  {
    newBids := [];
    var idx := 0;
    while idx < |activeBuyers|
      invariant 0 <= idx <= |activeBuyers|
      invariant |newBids| == idx
      invariant forall k | 0 <= k < idx :: newBids[k] == OpeningBid(activeBuyers[k], item, us[k])
    {
      newBids := newBids + [OpeningBid(activeBuyers[idx], item, us[idx])];
      idx := idx + 1;
    }
  }

  /** The last-round forEach: each active buyer, in order, places its
      forced final bid. */
  method FinalPass(activeBuyers: seq<Agent>, prior: seq<Bid>, currentHighest: real, round: int) returns (newBids: seq<Bid>)
    ensures newBids == FinalBids(activeBuyers, prior, currentHighest, round)
  {
    newBids := [];
    var idx := 0;
    while idx < |activeBuyers|
      invariant 0 <= idx <= |activeBuyers|
      invariant |newBids| == idx
      invariant forall k | 0 <= k < idx :: newBids[k] == FinalBid(activeBuyers[k], prior, currentHighest, round)
    {
      newBids := newBids + [FinalBid(activeBuyers[idx], prior, currentHighest, round)];
      idx := idx + 1;
    }
  }

  /** The middle-round forEach: each active buyer, in order, raises or
      drops out, and the ids of those dropping out are collected. */
  method MidPass(activeBuyers: seq<Agent>, prior: seq<Bid>, item: Item, currentHighest: real, round: int)
    returns (newBids: seq<Bid>, eliminatedThisRound: seq<string>)
    ensures newBids == MidBids(activeBuyers, prior, item, currentHighest, round)
    ensures |eliminatedThisRound| == CountEliminated(newBids)
  {
    newBids, eliminatedThisRound := [], [];
    var idx := 0;
    while idx < |activeBuyers|
      invariant 0 <= idx <= |activeBuyers|
      invariant |newBids| == idx
      invariant forall k | 0 <= k < idx :: newBids[k] == MidBid(activeBuyers[k], prior, item, currentHighest, round)
      invariant |eliminatedThisRound| == CountEliminated(newBids)
    {
      var buyer := activeBuyers[idx];
      var b := MidBid(buyer, prior, item, currentHighest, round);
      if b.eliminated {
        eliminatedThisRound := eliminatedThisRound + [buyer.id];
      }
      assert (newBids + [b])[..|newBids|] == newBids;
      newBids := newBids + [b];
      idx := idx + 1;
    }
  }

  /** processBattleRound computed as the source does: the active set, one
      forEach pass over it appending to a local bid list, then a decision
      on the accumulated result. */
  method ProcessBattleRound(s: Session, seller: Agent, buyers: seq<Agent>, item: Item, d: Draws) returns (step: Step)
    requires |d.opening| >= |buyers|
    requires RoundDefined(s, buyers)
    ensures step == BattleRound(s, seller, buyers, item, d)
  {
    RoundCases(s, seller, buyers, item, d);
    var round := s.currentRound;
    var maxRounds := s.maxRounds;
    var activeBuyers := ActiveBuyers(buyers, EliminatedIds(s.bids));

    if |activeBuyers| == 0 {
      return Step([], [], SessionUpdate(Some(Cancelled), round + 1, None, None, None));
    }

    if round == 0 {
      var newBids := OpeningPass(activeBuyers, item, d.opening);
      return Step(newBids, [], SessionUpdate(Some(Bidding), 1, Some(s.bids + newBids), None, None));
    }

    var currentHighest := CurrentHighest(s.bids, item);

    if round >= maxRounds - 1 {
      var newBids := FinalPass(activeBuyers, s.bids, currentHighest, round);
      var allBids := Standing(s.bids) + newBids;
      var winner := allBids[FirstMax(allBids)];
      return Completion(s, seller, item, newBids, winner, d.block);
    }

    var newBids, eliminatedThisRound := MidPass(activeBuyers, s.bids, item, currentHighest, round);
    var remainingAfter := |activeBuyers| - |eliminatedThisRound|;
    var highest := HighestOrZero(newBids);
    if remainingAfter <= 1 && highest > 0.0 {
      var winnerBid := newBids[FirstStanding(newBids)];
      return Completion(s, seller, item, newBids, winnerBid, d.block);
    }
    return Step(newBids, [], SessionUpdate(None, round + 1, Some(s.bids + newBids), None, None));
  }

  /** The driver's merge { ...session, ...sessionUpdate }. */
  function Apply(s: Session, u: SessionUpdate): (t: Session)
    ensures t.id == s.id && t.maxRounds == s.maxRounds && t.currentRound == u.currentRound
    ensures t.status == (if u.status.Some? then u.status.value else s.status)
    ensures t.bids == (if u.bids.Some? then u.bids.value else s.bids)
  {
    s.(status := if u.status.Some? then u.status.value else s.status,
       currentRound := u.currentRound,
       bids := if u.bids.Some? then u.bids.value else s.bids,
       winnerId := if u.winnerId.Some? then u.winnerId else s.winnerId,
       winningPrice := if u.winningPrice.Some? then u.winningPrice else s.winningPrice)
  }
}
