/**
 * The cases in which a counter is wrong do come up: two reachable runs after which a counter stays too high,
 * and two in which a limit is passed, by a charge behind an error and by a window that ends early.
 */
module LimiterRaces {
  import opened Coins
  import opened Ledger
  import opened Operands
  import opened Rules
  import opened Limiter
  import opened LimiterInvariant
  import opened LimiterTheorems
  import opened LimiterSolo

  lemma {:induction false} RunLonger(s: Limiter, steps: seq<Step>, st: Step)
    requires CanRun(s, steps) && Enabled(Run(s, steps), st) && SafeStep(Run(s, steps), st)
    ensures CanRun(s, steps + [st]) && Run(s, steps + [st]) == Apply(Run(s, steps), st)
    decreases |steps|
  {
    hide Enabled, SafeStep, Apply;
    if steps == [] {
      assert [] + [st] == [st] && [st][1..] == [];
    } else {
      assert (steps + [st])[0] == steps[0] && (steps + [st])[1..] == steps[1..] + [st];
      RunLonger(Apply(s, steps[0]), steps[1..], st);
    }
  }

  lemma ReachStep(s: Limiter, st: Step)
    requires Reachable(s) && Enabled(s, st) && SafeStep(s, st) && Apply(s, st).rules == s.rules
    requires Apply(s, st).policy == s.policy
    ensures Reachable(Apply(s, st))
  {
    hide Enabled, SafeStep, Apply, CanRun, Run;
    var steps :| CanRun(Start(s.rules, s.policy), steps) && Run(Start(s.rules, s.policy), steps) == s;
    RunLonger(Start(s.rules, s.policy), steps, st);
  }

  lemma ReachStart(rules: seq<Rule>, policy: Policy)
    ensures Reachable(Start(rules, policy))
  {
    assert CanRun(Start(rules, policy), []) && Run(Start(rules, policy), []) == Start(rules, policy);
  }

  /** Everyone may use up to the limit. */
  function UpTo(limit: nat): Rule {
    Rule(Everyone, None, None, None, Some(Limit(60, ValueNumber(LE, limit), [])), None, Always(Allow))
  }

  function Sponsored(d: Digest, budget: nat): Context {
    Context(d, 1, budget, [], None, map[])
  }

  function MeterUpTo(limit: nat): Meter {
    Meter(UpTo(limit), map[])
  }

  lemma UpToFacts(limit: nat, d: Digest, budget: nat)
    requires budget <= MAX_I64
    ensures UpTo(limit).gasUsage.Some? && PartlyMatches(UpTo(limit), Sponsored(d, budget), None)
    ensures MeterOf(UpTo(limit), Sponsored(d, budget)) == MeterUpTo(limit)
    ensures AsI64(budget) == budget
    ensures forall total: nat :: total <= MAX_I64 ==> (UsageMatches(UpTo(limit), total) <==> total <= limit)
    ensures forall refund: int :: 0 <= refund <= budget ==> AsI64(-AsI64(refund)) == -refund
  {
  }

  /** What claiming and recording under rule `i`, with this limit, lead to. */
  function Recorded(s: Limiter, d: Digest, i: nat, limit: nat, budget: nat): Limiter
    requires 0 <= CounterOf(s.counters, MeterUpTo(limit))
  {
    var m, t := MeterUpTo(limit), s.nextTicket;
    var total := CounterOf(s.counters, m) + budget;
    var earlier := if d in s.tickets then Mark(s.charges, s.tickets[d], Lost) else s.charges;
    var tx := if total <= limit then Tx(Sponsored(d, budget), Admitted, Some(ByRule(i, Some(t))), 0, 0, {})
      else Tx(Sponsored(d, budget), Checking(i + 1), None, 0, 0, {});
    s.(counters := s.counters[m := total], txs := s.txs[d := tx],
       requests := s.requests[d := Request(m, budget)], tickets := s.tickets[d := t],
       charges := earlier[t := Charge(m, d, i, WindowOf(s, m), total, budget, ChargeState.Recorded)],
       nextTicket := t + 1)
  }

  /** What claiming alone leads to. */
  function Raised(s: Limiter, d: Digest, i: nat, limit: nat, budget: nat): Limiter
    requires d in s.txs && 0 <= CounterOf(s.counters, MeterUpTo(limit))
  {
    var m, t := MeterUpTo(limit), s.nextTicket;
    var total := CounterOf(s.counters, m) + budget;
    s.(counters := s.counters[m := total], txs := s.txs[d := s.txs[d].(phase := Phase.Claimed(i, total, t))],
       charges := s.charges[t := Charge(m, d, i, WindowOf(s, m), total, budget, Fresh)], nextTicket := t + 1)
  }

  ghost predicate AboutToClaim(s: Limiter, d: Digest, i: nat, limit: nat, budget: nat) {
    && i < |s.rules| && s.rules[i] == UpTo(limit)
    && d in s.txs && s.txs[d] == Tx(Sponsored(d, budget), Checking(i), None, 0, 0, {})
    && s.nextTicket !in s.charges && (d in s.tickets ==> s.tickets[d] in s.charges)
    && 0 <= CounterOf(s.counters, MeterUpTo(limit)) && CounterOf(s.counters, MeterUpTo(limit)) + budget <= MAX_I64
  }

  lemma Raises(s: Limiter, d: Digest, i: nat, limit: nat, budget: nat)
    requires AboutToClaim(s, d, i, limit, budget)
    ensures Enabled(s, ClaimGas(d, None)) && SafeStep(s, ClaimGas(d, None))
    ensures DoClaim(s, d) == Raised(s, d, i, limit, budget)
  {
    hide PartlyMatches, UsageMatches, MeterOf, AsI64, Increment, UpTo;
    UpToFacts(limit, d, budget);
    IncrementFits(s.counters, MeterUpTo(limit), budget);
  }

  lemma Records(s: Limiter, d: Digest, i: nat, limit: nat, budget: nat)
    requires AboutToClaim(s, d, i, limit, budget)
    ensures Enabled(s, ClaimGas(d, None)) && SafeStep(s, ClaimGas(d, None))
    ensures Enabled(DoClaim(s, d), Record(d)) && DoRecord(DoClaim(s, d), d) == Recorded(s, d, i, limit, budget)
  {
    hide DoClaim, PartlyMatches, UsageMatches, MeterOf, AsI64, Increment, UpTo;
    Raises(s, d, i, limit, budget);
    UpToFacts(limit, d, budget);
    UpToAllows(limit);
  }

  lemma IncrementFits(counters: Counters, m: Meter, amount: int)
    requires 0 <= CounterOf(counters, m) + amount <= MAX_I64
    ensures Increment(counters, m, amount) == counters[m := CounterOf(counters, m) + amount]
  {
  }

  lemma UpToAllows(limit: nat)
    ensures UpTo(limit).action == Always(Allow)
  {
  }

  lemma ReachRecorded(s: Limiter, d: Digest, i: nat, limit: nat, budget: nat)
    requires Reachable(s) && AboutToClaim(s, d, i, limit, budget)
    ensures Reachable(Recorded(s, d, i, limit, budget))
  {
    hide Reachable, CanRun, Run, Recorded, PartlyMatches, UsageMatches, MeterOf, AsI64, Increment, UpTo;
    Records(s, d, i, limit, budget);
    ReachStep(s, ClaimGas(d, None));
    ReachStep(DoClaim(s, d), Record(d));
  }

  /** What an execution that uses this much, and the settlement behind it, lead to. */
  function Ended(s: Limiter, d: Digest, used: nat): Limiter
    requires d in s.txs && d in s.requests && d in s.tickets && s.tickets[d] in s.charges
    requires used <= s.requests[d].gasUsage
  {
    var req, t := s.requests[d], s.tickets[d];
    s.(counters := s.counters[req.meter := CounterOf(s.counters, req.meter) - (req.gasUsage - used)],
       txs := s.txs[d := s.txs[d].(phase := Done, reported := used)], requests := s.requests - {d},
         tickets := s.tickets - {d},
       charges := s.charges[t := s.charges[t].(amount := used, state := Settled)])
  }

  // ---------------------------------------------------------------- a second claim overwrites the first

  const TWICE: seq<Rule> := [UpTo(5), UpTo(100)]

  /**
   * A budget of 10 is claimed under a limit of 5, which it does not meet, and then under a limit of 100,
   * which it does. Of the budget 3 is used: the second counter ends at 3, and the first stays at 10.
   */
  lemma OverwrittenRequest() returns (s: Limiter)
    ensures Reachable(s) && s.rules == TWICE && s.requests == map[]
    ensures s.txs.Keys == {1} && s.txs[1].phase.Done? && Used(s.txs[1]) == 3 && s.txs[1].ctx.budget == 10
    ensures CounterOf(s.counters, MeterUpTo(5)) == 10 && CounterOf(s.counters, MeterUpTo(100)) == 3
  {
    hide Reachable, CanRun, Run, PartlyMatches, UsageMatches, MeterOf, AsI64, Increment;
    var d: Digest := 1;
    s := Start(TWICE, DenyAll);
    ReachStart(TWICE, DenyAll);
    ReachStep(s, Arrive(Sponsored(d, 10)));
    s := Apply(s, Arrive(Sponsored(d, 10)));
    ReachRecorded(s, d, 0, 5, 10);
    s := Recorded(s, d, 0, 5, 10);
    ReachRecorded(s, d, 1, 100, 10);
    s := Recorded(s, d, 1, 100, 10);
    s := ReachEnded(s, d, 3);
  }

  /** What an execution and taking its request out lead to. */
  function TakenUp(s: Limiter, d: Digest, result: Option<nat>, charged: nat): Limiter
    requires d in s.txs && d in s.requests && d in s.tickets && (result.Some? ==> charged == result.value)
  {
    s.(txs := s.txs[d := Ran(s.txs[d], result, charged).(phase := Settling(s.requests[d], result, s.tickets[d]))],
       requests := s.requests - {d}, tickets := s.tickets - {d}, charges := Mark(s.charges, s.tickets[d], Taken))
  }

  lemma ReachTaken(s: Limiter, d: Digest, result: Option<nat>, charged: nat) returns (w: Limiter)
    requires Reachable(s) && d in s.requests && d in s.tickets && Enabled(s, Execute(d, result, charged))
    ensures Reachable(w) && w == TakenUp(s, d, result, charged)
  {
    hide Reachable, CanRun, Run, Mark;
    ReachStep(s, Execute(d, result, charged));
    var v := Apply(s, Execute(d, result, charged));
    ReachStep(v, TakeRequest(d));
    w := Apply(v, TakeRequest(d));
  }

  /** An admitted transaction is executed and settled. */
  lemma ReachEnded(s: Limiter, d: Digest, used: nat) returns (u: Limiter)
    requires Reachable(s) && d in s.txs && s.txs[d].phase.Admitted? && used <= s.txs[d].ctx.budget <= MAX_I64
    requires d in s.requests && d in s.tickets && s.tickets[d] in s.charges
    requires s.requests[d].gasUsage == s.txs[d].ctx.budget
    requires s.txs[d].ctx.budget <= CounterOf(s.counters, s.requests[d].meter) <= MAX_I64
    ensures Reachable(u) && u == Ended(s, d, used)
  {
    hide Reachable, CanRun, Run, AsI64;
    RefundIs(s.requests[d], used);
    var w := ReachTaken(s, d, Some(used), used);
    ReachStep(w, Settle(d));
    u := Apply(w, Settle(d));
  }

  lemma RefundIs(req: Request, used: nat)
    requires used <= req.gasUsage <= MAX_I64
    ensures
      var refund: int := Refund(req, Some(used));
      refund == req.gasUsage - used && AsI64(-AsI64(refund)) == -refund
  {
  }

  // ---------------------------------------------------------------- a claim whose reply is lost

  /** Nothing was executed, nobody waits for anything, and the whole budget stays on the counter. */
  lemma LostReply() returns (s: Limiter)
    ensures Reachable(s) && s.rules == [UpTo(100)] && s.requests == map[]
    ensures s.txs.Keys == {1} && s.txs[1].phase.Done? && s.txs[1].grant.None? && Used(s.txs[1]) == 0
    ensures CounterOf(s.counters, MeterUpTo(100)) == 10
  {
    hide Reachable, CanRun, Run, PartlyMatches, UsageMatches, MeterOf, AsI64, Increment;
    var d: Digest := 1;
    s := Start([UpTo(100)], DenyAll);
    ReachStart([UpTo(100)], DenyAll);
    ReachStep(s, Arrive(Sponsored(d, 10)));
    s := Apply(s, Arrive(Sponsored(d, 10)));
    UpToFacts(100, d, 10);
    IncrementFits(s.counters, MeterUpTo(100), 10);
    ReachStep(s, ClaimGas(d, None));
    s := Apply(s, ClaimGas(d, None));
    ReachStep(s, ClaimLost(d));
    s := Apply(s, ClaimLost(d));
    ReachStep(s, TakeRequest(d));
    s := Apply(s, TakeRequest(d));
  }

  // ---------------------------------------------------------------- a charge behind an error

  /** An admitted transaction is charged everything it asked for, but its execution returns an error. */
  lemma ReachHidden(s: Limiter, d: Digest) returns (u: Limiter)
    requires Reachable(s) && d in s.txs && s.txs[d].phase.Admitted? && s.txs[d].ctx.budget <= MAX_I64
    requires d in s.requests && d in s.tickets && s.tickets[d] in s.charges
    requires s.requests[d].gasUsage == s.txs[d].ctx.budget
    requires s.txs[d].ctx.budget <= CounterOf(s.counters, s.requests[d].meter) <= MAX_I64
    ensures Reachable(u) && u == Refunded(s, d)
  {
    hide Reachable, CanRun, Run, AsI64;
    FullRefund(s.requests[d]);
    var w := ReachTaken(s, d, None, s.txs[d].ctx.budget);
    ReachStep(w, Settle(d));
    u := Apply(w, Settle(d));
  }

  /** The whole claim is given back, although all of it was charged. */
  function Refunded(s: Limiter, d: Digest): Limiter
    requires d in s.txs && d in s.requests && d in s.tickets && s.tickets[d] in s.charges
  {
    var req, t := s.requests[d], s.tickets[d];
    s.(counters := s.counters[req.meter := CounterOf(s.counters, req.meter) - req.gasUsage],
       txs := s.txs[d := s.txs[d].(phase := Done, hidden := req.gasUsage)],
       requests := s.requests - {d}, tickets := s.tickets - {d},
       charges := s.charges[t := s.charges[t].(amount := 0, state := Settled)])
  }

  lemma FullRefund(req: Request)
    requires req.gasUsage <= MAX_I64
    ensures
      var refund: int := Refund(req, None);
      refund == req.gasUsage && AsI64(-AsI64(refund)) == -refund
  {
  }

  /** One transaction arrives and is admitted by the one rule. */
  lemma ReachAdmitted(s: Limiter, d: Digest, limit: nat, budget: nat) returns (u: Limiter)
    requires Reachable(s) && s.rules == [UpTo(limit)] && s.policy == DenyAll
    requires d !in s.txs && d !in s.tickets && s.nextTicket !in s.charges
    requires 0 <= CounterOf(s.counters, MeterUpTo(limit))
    requires CounterOf(s.counters, MeterUpTo(limit)) + budget <= limit <= MAX_I64
    ensures Reachable(u) && u == Recorded(DoArrive(s, Sponsored(d, budget)), d, 0, limit, budget)
  {
    hide Reachable, CanRun, Run, UpTo, DoClaim, DoRecord;
    ReachStep(s, Arrive(Sponsored(d, budget)));
    var a := DoArrive(s, Sponsored(d, budget));
    ReachRecorded(a, d, 0, limit, budget);
    u := Recorded(a, d, 0, limit, budget);
  }

  /**
   * Whatever the limit and whatever is hidden up to it: the hidden charge comes on top of the limit. This is
   * as far as a limit can be passed without a counter that ends early.
   */
  lemma HiddenChargePasses(limit: nat, hidden: nat) returns (s: Limiter)
    requires 0 < hidden <= limit <= MAX_I64
    ensures Reachable(s) && s.rules == [UpTo(limit)] && CapsMatching(s.rules[0].gasUsage.value.value, limit)
    ensures GrantedBy(s, 1, 0, MeterUpTo(limit), 0) && GrantedBy(s, 2, 0, MeterUpTo(limit), 0)
    ensures UsedBy(s, {1, 2}) == limit + hidden
  {
    hide Reachable, CanRun, Run, UsedBy;
    s := Start([UpTo(limit)], DenyAll);
    ReachStart([UpTo(limit)], DenyAll);
    s := ReachAdmitted(s, 1, limit, hidden);
    s := ReachHidden(s, 1);
    s := ReachAdmitted(s, 2, limit, limit);
    ReachStep(s, Execute(2, Some(limit), limit));
    s := Apply(s, Execute(2, Some(limit), limit));
    TwoUsed(s, 1, hidden, 2, limit);
  }

  // ---------------------------------------------------------------- a window that ends early

  /** A transaction arrives, is admitted by the one rule, and uses this much. It is not settled yet. */
  function Served(s: Limiter, d: Digest, limit: nat, budget: nat, used: nat): Limiter
    requires 0 <= CounterOf(s.counters, MeterUpTo(limit))
  {
    var u := Recorded(DoArrive(s, Sponsored(d, budget)), d, 0, limit, budget);
    u.(txs := u.txs[d := u.txs[d].(phase := Finished(Some(used)), reported := used)])
  }

  function ServeSteps(d: Digest, budget: nat, used: nat): seq<Step> {
    [Arrive(Sponsored(d, budget)), ClaimGas(d, None), Record(d), Execute(d, Some(used), used)]
  }

  lemma Serves(s: Limiter, d: Digest, limit: nat, budget: nat, used: nat)
    requires s.rules == [UpTo(limit)] && s.policy == DenyAll && d !in s.txs && d !in s.tickets
    requires s.nextTicket !in s.charges
    requires 0 <= CounterOf(s.counters, MeterUpTo(limit))
    requires CounterOf(s.counters, MeterUpTo(limit)) + budget <= limit <= MAX_I64
    requires used <= budget
    ensures Leads(s, ServeSteps(d, budget, used), Served(s, d, limit, budget, used))
  {
    hide PartlyMatches, UsageMatches, MeterOf, AsI64, Increment, UpTo, DoClaim, DoRecord;
    var steps := ServeSteps(d, budget, used);
    var a := DoArrive(s, Sponsored(d, budget));
    Records(a, d, 0, limit, budget);
    var b := DoClaim(a, d);
    var c := DoRecord(b, d);
    LeadsOne(c, steps[3]);
    assert steps[1..][1..][1..] == [steps[3]];
    assert Leads(b, steps[1..][1..], Served(s, d, limit, budget, used));
    assert Leads(a, steps[1..], Served(s, d, limit, budget, used));
  }

  const EARLY: seq<Step> :=
    ServeSteps(1, 100, 10) + [TakeRequest(1), ExpireCounter(MeterUpTo(100))]
    + ServeSteps(2, 100, 100) + [Settle(1)] + ServeSteps(3, 90, 90)

  /** The first transaction is served and taken up for settlement, and its counter expires. */
  lemma WindowEnds() returns (c: Limiter)
    ensures
      var steps := ServeSteps(1, 100, 10) + [TakeRequest(1), ExpireCounter(MeterUpTo(100))];
      Leads(Start([UpTo(100)], DenyAll), steps, c)
    ensures c.rules == [UpTo(100)] && c.policy == DenyAll && c.nextTicket == 1 && c.tickets == map[]
    ensures c.txs.Keys == {1}
    ensures c.txs[1].phase == Settling(Request(MeterUpTo(100), 100), Some(10), 0) && c.charges.Keys == {0}
    ensures c.counters == map[] && c.windows == map[MeterUpTo(100) := 1]
  {
    hide Leads, PartlyMatches, UsageMatches, MeterOf, AsI64, Increment, UpTo, ServeSteps;
    var a := Start([UpTo(100)], DenyAll);
    Serves(a, 1, 100, 100, 10);
    var b := Served(a, 1, 100, 100, 10);
    TakenAndExpired(b);
    c := DoExpireCounter(DoTake(b, 1), MeterUpTo(100));
    LeadsOn(a, ServeSteps(1, 100, 10), b, [TakeRequest(1), ExpireCounter(MeterUpTo(100))], c);
  }

  /** Up to the second transaction, which fills the new window. */
  lemma WindowIsFull() returns (steps: seq<Step>, e: Limiter)
    ensures steps == ServeSteps(1, 100, 10) + [TakeRequest(1), ExpireCounter(MeterUpTo(100))] + ServeSteps(2, 100, 100)
    ensures Leads(Start([UpTo(100)], DenyAll), steps, e)
    ensures e.rules == [UpTo(100)] && e.policy == DenyAll && e.nextTicket == 2 && e.tickets == map[2 := 1]
    ensures e.txs.Keys == {1, 2}
    ensures e.txs[1].phase == Settling(Request(MeterUpTo(100), 100), Some(10), 0)
    ensures e.txs[2].grant == Some(ByRule(0, Some(1))) && Used(e.txs[2]) == 100
    ensures e.charges.Keys == {0, 1} && e.charges[1].meter == MeterUpTo(100) && e.charges[1].window == 1
    ensures e.counters == map[MeterUpTo(100) := 100] && e.windows == map[MeterUpTo(100) := 1]
  {
    hide Leads, PartlyMatches, UsageMatches, MeterOf, AsI64, Increment, UpTo, ServeSteps;
    var c := WindowEnds();
    Serves(c, 2, 100, 100, 100);
    e := Served(c, 2, 100, 100, 100);
    steps := ServeSteps(1, 100, 10) + [TakeRequest(1), ExpireCounter(MeterUpTo(100))] + ServeSteps(2, 100, 100);
    LeadsOn(Start([UpTo(100)], DenyAll), ServeSteps(1, 100, 10) + [TakeRequest(1), ExpireCounter(MeterUpTo(100))], c,
      ServeSteps(2, 100, 100), e);
  }

  /**
   * The first transaction claims 100 and uses 10. Its counter expires before it is settled, and a second one
   * claims and uses 100 in the new window. The settlement of the first then makes room for 90 more, although
   * the limit of 100 is already used up.
   */
  lemma LimitIsPassed() returns (s: Limiter)
    ensures Leads(Start([UpTo(100)], DenyAll), EARLY, s) && CapsMatching(UpTo(100).gasUsage.value.value, 100)
    ensures GrantedBy(s, 2, 0, MeterUpTo(100), 1) && GrantedBy(s, 3, 0, MeterUpTo(100), 1)
    ensures UsedBy(s, {2, 3}) == 190
  {
    hide Leads, PartlyMatches, UsageMatches, MeterOf, AsI64, Increment, ServeSteps, UsedBy;
    var m := MeterUpTo(100);
    var a := Start([UpTo(100)], DenyAll);
    var steps, e := WindowIsFull();
    LeadsOne(e, Settle(1));
    RefundIs(e.txs[1].phase.request, 10);
    IncrementFits(e.counters, m, -90);
    var f := DoSettle(e, 1);
    LeadsOn(a, steps, e, [Settle(1)], f);
    Serves(f, 3, 100, 90, 90);
    s := Served(f, 3, 100, 90, 90);
    LeadsOn(a, steps + [Settle(1)], f, ServeSteps(3, 90, 90), s);
    TwoUsed(s, 2, 100, 3, 90);
  }

  lemma TakenAndExpired(b: Limiter)
    requires Enabled(b, TakeRequest(1))
    ensures Leads(b, [TakeRequest(1), ExpireCounter(MeterUpTo(100))], DoExpireCounter(DoTake(b, 1), MeterUpTo(100)))
  {
    LeadsOne(DoTake(b, 1), ExpireCounter(MeterUpTo(100)));
    assert [TakeRequest(1), ExpireCounter(MeterUpTo(100))][1..] == [ExpireCounter(MeterUpTo(100))];
  }

  lemma TwoUsed(s: Limiter, d: Digest, x: nat, e: Digest, y: nat)
    requires d != e && d in s.txs && e in s.txs && Used(s.txs[d]) == x && Used(s.txs[e]) == y
    ensures UsedBy(s, {d, e}) == x + y
  {
    assert Usage(s, {d, e}) == map[][d := x][e := y];
    SumInsert(map[], d, x);
    SumInsert(map[][d := x], e, y);
  }
}
