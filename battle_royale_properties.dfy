/** What the auction round promises, and what holds across the rounds a
    driver runs: the active set, sticky elimination, the three kinds of
    bids, the early and the final winner, and the invariants every round
    keeps. */
module BattleRoyaleProperties {
  import opened Domain
  import opened Settlement
  import opened BattleRoyale

  /** Once a buyer has an eliminated bid, no later bid of the list is by it. */
  predicate Sticky(bids: seq<Bid>) {
    forall i, j | 0 <= i < j < |bids| && bids[i].eliminated :: bids[j].buyerId != bids[i].buyerId
  }

  predicate DistinctBidders(bids: seq<Bid>) {
    forall i, j | 0 <= i < j < |bids| :: bids[i].buyerId != bids[j].buyerId
  }

  // ---------------------------------------------------------------------
  // Facts about the bid-list readers

  lemma {:induction false} ActiveBuyersDistinct(buyers: seq<Agent>, eliminated: set<string>)
    requires DistinctIds(buyers)
    ensures DistinctIds(ActiveBuyers(buyers, eliminated))
  {
    if |buyers| > 0 {
      var prefix := buyers[..|buyers| - 1];
      var b := buyers[|buyers| - 1];
      ActiveBuyersDistinct(prefix, eliminated);
      var rest := ActiveBuyers(prefix, eliminated);
      forall i | 0 <= i < |rest| ensures rest[i].id != b.id {
        assert rest[i] in prefix;
        var m :| 0 <= m < |prefix| && prefix[m] == rest[i];
        assert buyers[m] == rest[i];
      }
    }
  }

  /** The active filter keeps every copy of a buyer whose id is not
      eliminated and drops every copy of one whose id is. */
  lemma {:induction false} ActiveBuyersCount(buyers: seq<Agent>, eliminated: set<string>)
    ensures forall a :: multiset(ActiveBuyers(buyers, eliminated))[a]
                        == if a.id in eliminated then 0 else multiset(buyers)[a]
  {
    if |buyers| > 0 {
      var prefix := buyers[..|buyers| - 1];
      var b := buyers[|buyers| - 1];
      ActiveBuyersCount(prefix, eliminated);
      assert buyers == prefix + [b];
      assert multiset(buyers) == multiset(prefix) + multiset{b};
      var rest := ActiveBuyers(prefix, eliminated);
      assert ActiveBuyers(buyers, eliminated) == if b.id in eliminated then rest else rest + [b];
      assert multiset(ActiveBuyers(buyers, eliminated)) == multiset(rest) + if b.id in eliminated then multiset{} else multiset{b};
    }
  }

  /** The standing filter keeps every copy of a standing bid and drops
      every copy of an eliminated one. */
  lemma {:induction false} StandingCount(bids: seq<Bid>)
    ensures forall b :: multiset(Standing(bids))[b] == if b.eliminated then 0 else multiset(bids)[b]
  {
    if |bids| > 0 {
      var prefix := bids[..|bids| - 1];
      var b := bids[|bids| - 1];
      StandingCount(prefix);
      assert bids == prefix + [b];
      assert multiset(bids) == multiset(prefix) + multiset{b};
      assert multiset(Standing(bids)) == multiset(Standing(prefix)) + if b.eliminated then multiset{} else multiset{b};
    }
  }

  /** When every buyer's id is eliminated, no buyer is active. */
  lemma {:induction false} NoBuyerActive(buyers: seq<Agent>, eliminated: set<string>)
    requires forall b | b in buyers :: b.id in eliminated
    ensures ActiveBuyers(buyers, eliminated) == []
  {
    if |buyers| > 0 {
      var prefix := buyers[..|buyers| - 1];
      assert forall b | b in prefix :: b in buyers;
      NoBuyerActive(prefix, eliminated);
      assert buyers[|buyers| - 1] in buyers;
    }
  }

  /** Every bid is either counted as eliminated or kept by the standing
      filter, so the two together make up the list. */
  lemma {:induction false} EliminatedPlusStanding(bids: seq<Bid>)
    ensures CountEliminated(bids) + |Standing(bids)| == |bids|
  {
    if |bids| > 0 {
      EliminatedPlusStanding(bids[..|bids| - 1]);
    }
  }

  /** A standing bid leaves at least one uneliminated place. */
  lemma {:induction false} OneStandingBid(bids: seq<Bid>, i: int)
    requires 0 <= i < |bids| && !bids[i].eliminated
    ensures CountEliminated(bids) <= |bids| - 1
  {
    var n := |bids| - 1;
    if i < n {
      assert bids[..n][i] == bids[i];
      OneStandingBid(bids[..n], i);
    }
  }

  /** Two standing bids leave at least two uneliminated places. */
  lemma {:induction false} TwoStandingBids(bids: seq<Bid>, i: int, j: int)
    requires 0 <= i < j < |bids| && !bids[i].eliminated && !bids[j].eliminated
    ensures CountEliminated(bids) <= |bids| - 2
  {
    var n := |bids| - 1;
    assert bids[..n][i] == bids[i];
    if j < n {
      assert bids[..n][j] == bids[j];
      TwoStandingBids(bids[..n], i, j);
    } else {
      OneStandingBid(bids[..n], i);
    }
  }

  // ---------------------------------------------------------------------
  // The round, case by case

  /** The new bids are the active buyers' bids, one each, in order, for
      the current round. */
  lemma NewBidsFollowActive(s: Session, seller: Agent, buyers: seq<Agent>, item: Item, d: Draws)
    requires |d.opening| >= |buyers| && RoundDefined(s, buyers)
    ensures var step := BattleRound(s, seller, buyers, item, d);
            var active := Active(s, buyers);
            && |step.bids| == |active|
            && forall k | 0 <= k < |active| ::
                 step.bids[k].buyerId == active[k].id && step.bids[k].buyerName == active[k].name
                 && step.bids[k].round == s.currentRound
  {
    RoundCases(s, seller, buyers, item, d);
    var step := BattleRound(s, seller, buyers, item, d);
    var active := Active(s, buyers);
    if |active| > 0 && s.currentRound != 0 {
      var ch := CurrentHighest(s.bids, item);
      if FinalRound(s) {
        assert step.bids == FinalBids(active, s.bids, ch, s.currentRound);
      } else {
        assert step.bids == MidBids(active, s.bids, item, ch, s.currentRound);
      }
    }
  }

  /** Elimination is sticky: a buyer with an eliminated bid in the session
      gets no new bid. */
  lemma EliminatedNeverBidAgain(s: Session, seller: Agent, buyers: seq<Agent>, item: Item, d: Draws)
    requires |d.opening| >= |buyers| && RoundDefined(s, buyers)
    ensures var step := BattleRound(s, seller, buyers, item, d);
            forall i, j | 0 <= i < |s.bids| && s.bids[i].eliminated && 0 <= j < |step.bids| ::
              step.bids[j].buyerId != s.bids[i].buyerId
  {
    var step := BattleRound(s, seller, buyers, item, d);
    var active := Active(s, buyers);
    NewBidsFollowActive(s, seller, buyers, item, d);
    forall i, j | 0 <= i < |s.bids| && s.bids[i].eliminated && 0 <= j < |step.bids|
      ensures step.bids[j].buyerId != s.bids[i].buyerId
    {
      assert s.bids[i].buyerId in EliminatedIds(s.bids);
      assert active[j] in active;
    }
  }

  /** The auction is cancelled exactly when no buyer is active, and then
      nothing is bid, recorded or emitted. */
  lemma CancelledIffNoActive(s: Session, seller: Agent, buyers: seq<Agent>, item: Item, d: Draws)
    requires |d.opening| >= |buyers| && RoundDefined(s, buyers)
    ensures var step := BattleRound(s, seller, buyers, item, d);
            step.sessionUpdate.status == Some(Cancelled) <==> |Active(s, buyers)| == 0
    ensures |Active(s, buyers)| == 0 ==>
              BattleRound(s, seller, buyers, item, d)
              == Step([], [], SessionUpdate(Some(Cancelled), s.currentRound + 1, None, None, None))
  {
    RoundCases(s, seller, buyers, item, d);
  }

  /** Round 0: each active buyer opens once, at a random 35%-60% of the
      item price scaled by 0.8 + 0.04 * aggressiveness, rounded to one
      decimal; the auction moves to bidding, round 1, and emits nothing. */
  lemma OpeningRound(s: Session, seller: Agent, buyers: seq<Agent>, item: Item, d: Draws)
    requires |d.opening| >= |buyers| && s.currentRound == 0 && |Active(s, buyers)| > 0
    ensures var step := BattleRound(s, seller, buyers, item, d);
            var active := Active(s, buyers);
            && step.sessionUpdate == SessionUpdate(Some(Bidding), 1, Some(s.bids + step.bids), None, None)
            && step.contractEvents == []
            && |step.bids| == |active|
            && forall k | 0 <= k < |active| ::
                 && !step.bids[k].eliminated && step.bids[k].round == 0
                 && step.bids[k].amount
                    == Round1(OpeningAmount(item.currentPrice, d.opening[k], active[k].customization.aggressiveness))
  {
    RoundCases(s, seller, buyers, item, d);
    var step := BattleRound(s, seller, buyers, item, d);
    var active := Active(s, buyers);
    forall k | 0 <= k < |active|
      ensures step.bids[k].amount
              == Round1(OpeningAmount(item.currentPrice, d.opening[k], active[k].customization.aggressiveness))
    {
      assert step.bids[k] == OpeningBid(active[k], item, d.opening[k]);
    }
  }

  /** An unrounded opening amount lies between 28% and 72% of the item
      price for a draw in [0, 1) and aggressiveness on its 0-10 scale. */
  lemma OpeningAmountRange(price: real, u: real, aggressiveness: int)
    requires price >= 0.0 && 0.0 <= u < 1.0 && 0 <= aggressiveness <= 10
    ensures 0.28 * price <= OpeningAmount(price, u, aggressiveness) <= 0.72 * price
  {
    MulMonotone(price, u, 1.0);
    MulNonNegative(price, u);
    assert 0.35 * price <= OpeningBase(price, u) <= 0.6 * price;
    assert 0.8 <= OpeningMultiplier(aggressiveness) <= 1.2;
    MulMonotone(OpeningBase(price, u), 0.8, OpeningMultiplier(aggressiveness));
    MulMonotone(OpeningBase(price, u), OpeningMultiplier(aggressiveness), 1.2);
    assert OpeningAmount(price, u, aggressiveness) == OpeningBase(price, u) * OpeningMultiplier(aggressiveness);
    assert OpeningBase(price, u) * 0.8 <= OpeningAmount(price, u, aggressiveness) <= OpeningBase(price, u) * 1.2;
  }

  /** With the same price and draw, more aggressiveness never lowers the
      unrounded opening amount. */
  lemma OpeningAmountMonotone(price: real, u: real, a1: int, a2: int)
    requires price >= 0.0 && 0.0 <= u && a1 <= a2
    ensures OpeningAmount(price, u, a1) <= OpeningAmount(price, u, a2)
  {
    MulNonNegative(price, 0.35 + u * 0.25);
    MulMonotone(OpeningBase(price, u), OpeningMultiplier(a1), OpeningMultiplier(a2));
  }

  /** With the same draw, a more aggressive buyer never opens lower. */
  lemma OpeningBidMonotone(b1: Agent, b2: Agent, item: Item, u: real)
    requires item.currentPrice >= 0.0 && 0.0 <= u
    requires b1.customization.aggressiveness <= b2.customization.aggressiveness
    ensures OpeningBid(b1, item, u).amount <= OpeningBid(b2, item, u).amount
  {
    OpeningAmountMonotone(item.currentPrice, u, b1.customization.aggressiveness, b2.customization.aggressiveness);
    Round1Monotone(OpeningAmount(item.currentPrice, u, b1.customization.aggressiveness),
                   OpeningAmount(item.currentPrice, u, b2.customization.aggressiveness));
  }

  /** Worked example: item price 100, every draw at the middle of its
      range, aggressiveness 9, 5 and 2 open at 55.1, 47.5 and 41.8. */
  lemma OpeningExample()
    ensures var item := Item("i", "I", 80.0, 100.0);
            && OpeningBid(Agent("a", "A", 0.0, Traits(9, 5, 5, 5)), item, 0.5).amount == 55.1
            && OpeningBid(Agent("b", "B", 0.0, Traits(5, 5, 5, 5)), item, 0.5).amount == 47.5
            && OpeningBid(Agent("c", "C", 0.0, Traits(2, 5, 5, 5)), item, 0.5).amount == 41.8
  {
    assert (551.0 + 0.5).Floor == 551;
    assert (475.0 + 0.5).Floor == 475;
    assert (418.0 + 0.5).Floor == 418;
  }

  /** A middle round: each active buyer proposes; it is eliminated exactly
      when the proposal exceeds its budget or its balance, and then the bid
      records its last amount; otherwise the bid is the proposal, within
      budget and balance. */
  lemma MidRoundBids(s: Session, seller: Agent, buyers: seq<Agent>, item: Item, d: Draws)
    requires |d.opening| >= |buyers| && RoundDefined(s, buyers)
    requires MidRound(s) && |Active(s, buyers)| > 0
    ensures var step := BattleRound(s, seller, buyers, item, d);
            var active := Active(s, buyers);
            var ch := CurrentHighest(s.bids, item);
            && |step.bids| == |active|
            && forall k | 0 <= k < |active| ::
                 var lastBid := LastBid(s.bids, active[k].id, ch * 0.5);
                 var proposed := Proposed(active[k], lastBid, ch);
                 && (step.bids[k].eliminated <==> proposed > MaxBudget(active[k], item) || proposed > active[k].balance)
                 && (step.bids[k].eliminated ==> step.bids[k].amount == lastBid)
                 && (!step.bids[k].eliminated ==>
                       step.bids[k].amount == proposed
                       && step.bids[k].amount <= MaxBudget(active[k], item)
                       && step.bids[k].amount <= active[k].balance)
  {
    var step := BattleRound(s, seller, buyers, item, d);
    var active := Active(s, buyers);
    var ch := CurrentHighest(s.bids, item);
    forall k | 0 <= k < |active|
      ensures step.bids[k] == MidBid(active[k], s.bids, item, ch, s.currentRound)
    {
    }
  }

  /** With traits on the 0-10 scale, a buyer's budget is 80%-140% of a
      non-negative item price. */
  lemma MaxBudgetRange(buyer: Agent, item: Item)
    requires item.currentPrice >= 0.0
    requires 0 <= buyer.customization.riskTolerance <= 10 && 0 <= buyer.customization.aggressiveness <= 10
    ensures item.currentPrice * 0.8 <= MaxBudget(buyer, item) <= item.currentPrice * 1.4
  {
    var p, share := item.currentPrice, BudgetShare(buyer.customization);
    assert 0.8 <= share <= 1.4;
    MulNonNegative(p, share - 0.8);
    MulNonNegative(p, 1.4 - share);
    assert p * (share - 0.8) == p * share - p * 0.8;
    assert p * (1.4 - share) == p * 1.4 - p * share;
  }

  /** A proposal raises the higher of the buyer's last bid and the current
      highest by 3%-15% of a non-negative current highest, give or take the
      rounding to one decimal. */
  lemma ProposedRange(buyer: Agent, lastBid: real, currentHighest: real)
    requires currentHighest >= 0.0 && 0 <= buyer.customization.aggressiveness <= 10
    ensures var base := MaxR(lastBid, currentHighest);
            var r := Proposed(buyer, lastBid, currentHighest);
            base + currentHighest * 0.03 - 1.0 / 20.0 < r <= base + currentHighest * 0.15 + 1.0 / 20.0
            && OneDecimal(r)
  {
    var p, share := currentHighest, RaiseShare(buyer.customization.aggressiveness);
    assert 0.03 <= share <= 0.15;
    MulNonNegative(p, share - 0.03);
    MulNonNegative(p, 0.15 - share);
    assert p * (share - 0.03) == p * share - p * 0.03;
    assert p * (0.15 - share) == p * 0.15 - p * share;
  }

  /** The early win: in a middle round the auction completes exactly when
      at most one buyer survived and the highest surviving new bid is
      positive. The winner is then the one surviving new bid. */
  lemma LastBuyerStanding(s: Session, seller: Agent, buyers: seq<Agent>, item: Item, d: Draws)
    requires |d.opening| >= |buyers| && RoundDefined(s, buyers)
    requires MidRound(s) && |Active(s, buyers)| > 0
    ensures var step := BattleRound(s, seller, buyers, item, d);
            step.sessionUpdate.status == Some(Completed) <==>
              CountEliminated(step.bids) >= |step.bids| - 1 && HighestOrZero(step.bids) > 0.0
    ensures var step := BattleRound(s, seller, buyers, item, d);
            step.sessionUpdate.status == Some(Completed) ==>
              exists k ::
                && 0 <= k < |step.bids| && !step.bids[k].eliminated
                && step.sessionUpdate.winnerId == Some(step.bids[k].buyerId)
                && step.sessionUpdate.winningPrice == Some(step.bids[k].amount)
                && step.bids[k].amount > 0.0
                && forall j | 0 <= j < |step.bids| && j != k :: step.bids[j].eliminated
  {
    RoundCases(s, seller, buyers, item, d);
    var active := Active(s, buyers);
    var nb := MidBids(active, s.bids, item, CurrentHighest(s.bids, item), s.currentRound);
    if |active| - CountEliminated(nb) <= 1 && HighestOrZero(nb) > 0.0 {
      OnlyStandingBid(nb);
    }
  }

  /** With at most one bid standing and a positive highest, the first
      standing bid is the only one, and its amount is positive. */
  lemma OnlyStandingBid(nb: seq<Bid>)
    requires CountEliminated(nb) >= |nb| - 1 && HighestOrZero(nb) > 0.0
    ensures HasStanding(nb)
    ensures var k := FirstStanding(nb);
            nb[k].amount > 0.0 && forall j | 0 <= j < |nb| && j != k :: nb[j].eliminated
  {
    var k := FirstStanding(nb);
    forall j | 0 <= j < |nb| && j != k ensures nb[j].eliminated {
      if j > k && !nb[j].eliminated {
        TwoStandingBids(nb, k, j);
        assert false;
      }
    }
    var w :| 0 <= w < |nb| && !nb[w].eliminated && nb[w].amount == HighestOrZero(nb);
    assert w == k;
  }

  /** When every active buyer drops out in a middle round, the round leaves
      the status alone, and the next call finds no active buyer and cancels. */
  lemma AllEliminatedThenCancel(s: Session, seller: Agent, buyers: seq<Agent>, item: Item, d: Draws, next: Draws)
    requires |d.opening| >= |buyers| && |next.opening| >= |buyers| && RoundDefined(s, buyers)
    requires MidRound(s) && |Active(s, buyers)| > 0
    requires var step := BattleRound(s, seller, buyers, item, d);
             forall j | 0 <= j < |step.bids| :: step.bids[j].eliminated
    ensures var step := BattleRound(s, seller, buyers, item, d);
            var t := Apply(s, step.sessionUpdate);
            && step.sessionUpdate.status == None && step.contractEvents == []
            && |Active(t, buyers)| == 0
            && RoundDefined(t, buyers)
            && BattleRound(t, seller, buyers, item, next).sessionUpdate.status == Some(Cancelled)
  {
    var step := BattleRound(s, seller, buyers, item, d);
    var t := Apply(s, step.sessionUpdate);
    AllEliminatedRoundIsQuiet(s, seller, buyers, item, d);
    NewBidsFollowActive(s, seller, buyers, item, d);
    EveryBuyerEliminated(s.bids, step.bids, buyers);
    NoBuyerActive(buyers, EliminatedIds(t.bids));
    CancelledIffNoActive(t, seller, buyers, item, next);
  }

  /** A middle round in which every new bid is an elimination completes
      nothing: no status, no records, and the bids are appended. */
  lemma AllEliminatedRoundIsQuiet(s: Session, seller: Agent, buyers: seq<Agent>, item: Item, d: Draws)
    requires |d.opening| >= |buyers| && RoundDefined(s, buyers)
    requires MidRound(s) && |Active(s, buyers)| > 0
    requires var step := BattleRound(s, seller, buyers, item, d);
             forall j | 0 <= j < |step.bids| :: step.bids[j].eliminated
    ensures var step := BattleRound(s, seller, buyers, item, d);
            && step.sessionUpdate.status == None && step.contractEvents == []
            && Apply(s, step.sessionUpdate).bids == s.bids + step.bids
  {
    RoundCases(s, seller, buyers, item, d);
    assert !HasStanding(BattleRound(s, seller, buyers, item, d).bids);
  }

  /** When every active buyer's new bid is an elimination, every buyer has
      an eliminated bid in the extended list. */
  lemma EveryBuyerEliminated(prior: seq<Bid>, nb: seq<Bid>, buyers: seq<Agent>)
    requires var active := ActiveBuyers(buyers, EliminatedIds(prior));
             && |nb| == |active|
             && forall k | 0 <= k < |active| :: nb[k].buyerId == active[k].id && nb[k].eliminated
    ensures forall b | b in buyers :: b.id in EliminatedIds(prior + nb)
  {
    var active := ActiveBuyers(buyers, EliminatedIds(prior));
    forall b | b in buyers ensures b.id in EliminatedIds(prior + nb) {
      if b.id !in EliminatedIds(prior) {
        assert b in active;
        var k :| 0 <= k < |active| && active[k] == b;
        assert (prior + nb)[|prior| + k] == nb[k];
      } else {
        var i :| 0 <= i < |prior| && prior[i].eliminated && prior[i].buyerId == b.id;
        assert (prior + nb)[i] == prior[i];
      }
    }
  }

  /** The last round: every active buyer places a standing final bid of its
      last bid raised by 5%-20%; the winner holds the highest standing bid
      of the whole session, ties going to the earliest such bid. */
  lemma FinalRoundWinner(s: Session, seller: Agent, buyers: seq<Agent>, item: Item, d: Draws)
    requires |d.opening| >= |buyers| && RoundDefined(s, buyers)
    requires FinalRound(s) && |Active(s, buyers)| > 0
    ensures var step := BattleRound(s, seller, buyers, item, d);
            var active := Active(s, buyers);
            var ch := CurrentHighest(s.bids, item);
            && step.sessionUpdate.status == Some(Completed)
            && |step.bids| == |active|
            && (forall k | 0 <= k < |active| ::
                  && !step.bids[k].eliminated
                  && step.bids[k].amount
                     == Round1(FinalAmount(LastBid(s.bids, active[k].id, ch), active[k].customization.aggressiveness)))
    ensures var step := BattleRound(s, seller, buyers, item, d);
            var wp := step.sessionUpdate.winningPrice;
            && wp.Some?
            && (forall i | 0 <= i < |s.bids| && !s.bids[i].eliminated :: s.bids[i].amount <= wp.value)
            && (forall k | 0 <= k < |step.bids| :: step.bids[k].amount <= wp.value)
    ensures var step := BattleRound(s, seller, buyers, item, d);
            var all := Standing(s.bids) + step.bids;
            exists w ::
              && 0 <= w < |all|
              && step.sessionUpdate.winnerId == Some(all[w].buyerId)
              && step.sessionUpdate.winningPrice == Some(all[w].amount)
              && forall j | 0 <= j < w :: all[j].amount < all[w].amount
  {
    RoundCases(s, seller, buyers, item, d);
    var active := Active(s, buyers);
    var ch := CurrentHighest(s.bids, item);
    var nb := FinalBids(active, s.bids, ch, s.currentRound);
    FinalBidsStand(active, s.bids, ch, s.currentRound);
    FirstMaxBoundsAll(s.bids, nb);
    var all := Standing(s.bids) + nb;
    var w := FirstMax(all);
    var step := BattleRound(s, seller, buyers, item, d);
    assert step == Completion(s, seller, item, nb, all[w], d.block);
    assert step.bids == nb;
    assert step.sessionUpdate.winnerId == Some(all[w].buyerId) && step.sessionUpdate.winningPrice == Some(all[w].amount);
  }

  /** Every final bid stands, at its final amount rounded to one decimal. */
  lemma FinalBidsStand(active: seq<Agent>, prior: seq<Bid>, ch: real, round: int)
    ensures var nb := FinalBids(active, prior, ch, round);
            forall k | 0 <= k < |active| ::
              && !nb[k].eliminated
              && nb[k].amount == Round1(FinalAmount(LastBid(prior, active[k].id, ch), active[k].customization.aggressiveness))
  {
    var nb := FinalBids(active, prior, ch, round);
    forall k | 0 <= k < |active|
      ensures !nb[k].eliminated
      ensures nb[k].amount == Round1(FinalAmount(LastBid(prior, active[k].id, ch), active[k].customization.aggressiveness))
    {
      assert nb[k] == FinalBid(active[k], prior, ch, round);
    }
  }

  /** The first maximum of the standing old bids followed by the new bids
      is at least every standing old bid and every new bid. */
  lemma FirstMaxBoundsAll(prior: seq<Bid>, nb: seq<Bid>)
    requires |Standing(prior) + nb| > 0
    ensures var all := Standing(prior) + nb;
            var top := all[FirstMax(all)].amount;
            && (forall i | 0 <= i < |prior| && !prior[i].eliminated :: prior[i].amount <= top)
            && (forall k | 0 <= k < |nb| :: nb[k].amount <= top)
  {
    var sp := Standing(prior);
    var all := sp + nb;
    var w := FirstMax(all);
    forall i | 0 <= i < |prior| && !prior[i].eliminated ensures prior[i].amount <= all[w].amount {
      assert prior[i] in sp;
      var m :| 0 <= m < |sp| && sp[m] == prior[i];
      assert all[m] == prior[i];
    }
    forall k | 0 <= k < |nb| ensures nb[k].amount <= all[w].amount {
      assert all[|sp| + k] == nb[k];
    }
  }

  /** A final amount raises a non-negative last bid by 5% to 20%. */
  lemma FinalAmountRaises(lastBid: real, aggressiveness: int)
    requires lastBid >= 0.0 && 0 <= aggressiveness <= 10
    ensures 1.05 * lastBid <= FinalAmount(lastBid, aggressiveness) <= 1.2 * lastBid
  {
    var f := 1.05 + aggressiveness as real / 10.0 * 0.15;
    MulMonotone(lastBid, 1.05, f);
    MulMonotone(lastBid, f, 1.2);
  }

  // ---------------------------------------------------------------------
  // Invariants kept by every round

  /** The highest bid can be read on the next call too. */
  lemma RoundDefinedPreserved(s: Session, seller: Agent, buyers: seq<Agent>, item: Item, d: Draws)
    requires |d.opening| >= |buyers| && RoundDefined(s, buyers)
    ensures RoundDefined(Apply(s, BattleRound(s, seller, buyers, item, d).sessionUpdate), buyers)
  {
    var step := BattleRound(s, seller, buyers, item, d);
    var t := Apply(s, step.sessionUpdate);
    if |Active(s, buyers)| == 0 {
      CancelledIffNoActive(s, seller, buyers, item, d);
      assert t.bids == s.bids;
    } else if HasStanding(step.bids) {
      StandingAppended(s.bids, step.bids, FirstStanding(step.bids));
      assert t.bids == s.bids + step.bids;
    } else {
      if !MidRound(s) {
        FirstNewBidStands(s, seller, buyers, item, d);
        assert false;
      }
      AllEliminatedThenCancel(s, seller, buyers, item, d, d);
    }
  }

  /** A list with a standing bid appended has a standing bid. */
  lemma StandingAppended(a: seq<Bid>, b: seq<Bid>, j: int)
    requires 0 <= j < |b| && !b[j].eliminated
    ensures HasStanding(a + b)
  {
    assert (a + b)[|a| + j] == b[j];
  }

  /** Opening and final bids are never eliminations. */
  lemma FirstNewBidStands(s: Session, seller: Agent, buyers: seq<Agent>, item: Item, d: Draws)
    requires |d.opening| >= |buyers| && RoundDefined(s, buyers)
    requires !MidRound(s) && |Active(s, buyers)| > 0
    ensures var step := BattleRound(s, seller, buyers, item, d);
            |step.bids| > 0 && !step.bids[0].eliminated
  {
    RoundCases(s, seller, buyers, item, d);
  }

  /** With distinct buyer ids, a round bids at most once per buyer and
      keeps elimination sticky across the whole bid list. */
  lemma StickyPreserved(s: Session, seller: Agent, buyers: seq<Agent>, item: Item, d: Draws)
    requires |d.opening| >= |buyers| && RoundDefined(s, buyers)
    requires DistinctIds(buyers) && Sticky(s.bids)
    ensures DistinctBidders(BattleRound(s, seller, buyers, item, d).bids)
    ensures Sticky(Apply(s, BattleRound(s, seller, buyers, item, d).sessionUpdate).bids)
  {
    var step := BattleRound(s, seller, buyers, item, d);
    var t := Apply(s, step.sessionUpdate);
    var active := Active(s, buyers);
    NewBidsFollowActive(s, seller, buyers, item, d);
    EliminatedNeverBidAgain(s, seller, buyers, item, d);
    ActiveBuyersDistinct(buyers, EliminatedIds(s.bids));
    assert DistinctBidders(step.bids) by {
      forall i, j | 0 <= i < j < |step.bids| ensures step.bids[i].buyerId != step.bids[j].buyerId {
        assert step.bids[i].buyerId == active[i].id && step.bids[j].buyerId == active[j].id;
      }
    }
    if t.bids != s.bids {
      StickyAppend(s.bids, step.bids);
    }
  }

  /** Appending bids from buyers not yet eliminated, at most one each,
      keeps elimination sticky. */
  lemma StickyAppend(prior: seq<Bid>, nb: seq<Bid>)
    requires Sticky(prior) && DistinctBidders(nb)
    requires forall i, j | 0 <= i < |prior| && prior[i].eliminated && 0 <= j < |nb| :: nb[j].buyerId != prior[i].buyerId
    ensures Sticky(prior + nb)
  {
    var all := prior + nb;
    var n := |prior|;
    forall i, j | 0 <= i < j < |all| && all[i].eliminated ensures all[j].buyerId != all[i].buyerId {
      if j < n {
        assert all[i] == prior[i] && all[j] == prior[j];
      } else if i < n {
        assert all[i] == prior[i] && all[j] == nb[j - n];
      } else {
        assert all[i] == nb[i - n] && all[j] == nb[j - n];
      }
    }
  }
}
