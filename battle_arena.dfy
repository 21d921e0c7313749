/** The auction driver: the arena component's loop that calls the round
    engine once per tick and merges its update into the session, and the
    proof that it brings every auction to an end within maxRounds calls. */

module BattleArena {
  import opened Domain
  import opened BattleRoyale
  import opened BattleRoyaleProperties

  /** The driver: advance one round per draw until the auction is
      completed or cancelled (or the draws run out). Each call moves the
      round counter by one and only appends to the bid list, so an auction
      left open has used every draw; a closed auction is left as it is. */
  function RunBattle(s: Session, seller: Agent, buyers: seq<Agent>, item: Item, ds: seq<Draws>): (t: Session)
    requires RoundDefined(s, buyers)
    requires forall i | 0 <= i < |ds| :: |ds[i].opening| >= |buyers|
    ensures t.id == s.id && t.maxRounds == s.maxRounds
    ensures s.currentRound <= t.currentRound <= s.currentRound + |ds|
    ensures !IsTerminal(t.status) ==> t.currentRound == s.currentRound + |ds|
    ensures IsTerminal(s.status) ==> t == s
    ensures s.bids <= t.bids
    decreases |ds|
  {
    if |ds| == 0 || IsTerminal(s.status) then s
    else
      RoundDefinedPreserved(s, seller, buyers, item, ds[0]);
      RunBattle(Apply(s, BattleRound(s, seller, buyers, item, ds[0]).sessionUpdate), seller, buyers, item, ds[1..])
  }

  /** From a round below maxRounds (at least 2 rounds), the auction is
      completed or cancelled within maxRounds - currentRound calls, and the
      round counter never passes maxRounds. */
  lemma {:induction false} RunBattleReachesTerminal(s: Session, seller: Agent, buyers: seq<Agent>, item: Item, ds: seq<Draws>)
    requires RoundDefined(s, buyers)
    requires forall i | 0 <= i < |ds| :: |ds[i].opening| >= |buyers|
    requires s.maxRounds >= 2 && 0 <= s.currentRound < s.maxRounds
    requires |ds| >= s.maxRounds - s.currentRound
    ensures var t := RunBattle(s, seller, buyers, item, ds);
            IsTerminal(t.status) && t.currentRound <= s.maxRounds && t.maxRounds == s.maxRounds
    decreases |ds|
  {
    if !IsTerminal(s.status) {
      var step := BattleRound(s, seller, buyers, item, ds[0]);
      var t := Apply(s, step.sessionUpdate);
      RoundDefinedPreserved(s, seller, buyers, item, ds[0]);
      assert RunBattle(s, seller, buyers, item, ds) == RunBattle(t, seller, buyers, item, ds[1..]);
      assert t.currentRound == s.currentRound + 1;
      if |Active(s, buyers)| == 0 || FinalRound(s) {
        assert IsTerminal(t.status);
        assert RunBattle(t, seller, buyers, item, ds[1..]) == t;
      } else {
        assert t.currentRound < s.maxRounds;
        RunBattleReachesTerminal(t, seller, buyers, item, ds[1..]);
      }
    }
  }

  /** A fresh auction ends, completed or cancelled, within 5 driver calls. */
  lemma FreshBattleTerminates(id: string, seller: Agent, buyers: seq<Agent>, item: Item, ds: seq<Draws>)
    requires |ds| >= MaxRoundsDefault
    requires forall i | 0 <= i < |ds| :: |ds[i].opening| >= |buyers|
    ensures var t := RunBattle(CreateBattleSession(id, seller, buyers, item), seller, buyers, item, ds);
            IsTerminal(t.status) && t.currentRound <= MaxRoundsDefault
  {
    RunBattleReachesTerminal(CreateBattleSession(id, seller, buyers, item), seller, buyers, item, ds);
  }
}
