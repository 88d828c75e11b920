/** The whole-run properties of the limiter. */
module LimiterTheorems {
  import opened Coins
  import opened Ledger
  import opened Operands
  import opened Rules
  import opened Limiter
  import opened LimiterInvariant
  import opened LimiterSteps

  lemma ReachableInv(s: Limiter)
    requires Reachable(s)
    ensures Inv(s)
  {
    hide Inv, CanRun, Run;
    var steps :| CanRun(Start(s.rules, s.policy), steps) && Run(Start(s.rules, s.policy), steps) == s;
    StartInv(s.rules, s.policy);
    KeepRun(Start(s.rules, s.policy), steps);
  }

  // ---------------------------------------------------------------- what a counter holds

  /** What should be on the counter for a claim: what was charged once it is settled, and the budget until then. */
  ghost function Due(s: Limiter, t: nat): nat
    requires t in s.charges && s.charges[t].digest in s.txs
  {
    var tx := s.txs[s.charges[t].digest];
    if s.charges[t].state.Settled? then Used(tx) else tx.ctx.budget
  }

  /** What its settlement has not heard of. */
  ghost function Unheard(s: Limiter, t: nat): nat
    requires t in s.charges && s.charges[t].digest in s.txs
  {
    if s.charges[t].state.Settled? then s.txs[s.charges[t].digest].hidden else 0
  }

  /** The claims on a counter in its current window. */
  ghost predicate OnCounter(s: Limiter, m: Meter, t: nat) {
    t in s.charges && s.charges[t].digest in s.txs && Counts(s.charges[t], m, WindowOf(s, m), None)
  }

  ghost function Dues(s: Limiter, m: Meter): map<nat, nat> {
    map t | t in s.charges && OnCounter(s, m, t) :: Due(s, t)
  }

  ghost function Unheards(s: Limiter, m: Meter): map<nat, nat> {
    map t | t in s.charges && OnCounter(s, m, t) :: Unheard(s, t)
  }

  /**
   * At every moment of every interleaving a counter is the sum over the claims of its current window of what
   * should be there, less what was charged behind errors to those that are settled. It is right if and only
   * if no settled claim belongs to an execution whose error hid a charge.
   */
  lemma CounterIsExact(s: Limiter, m: Meter)
    requires Reachable(s)
    ensures CounterOf(s.counters, m) + SumValues(Unheards(s, m)) == SumValues(Dues(s, m))
    ensures CounterOf(s.counters, m) == SumValues(Dues(s, m)) <==> forall t :: OnCounter(s, m, t) ==> Unheard(s, t) == 0
  {
    hide Reachable, TxsOk, TableOk, FlowsOk, WindowsOk, BoundOk, SumValues;
    ReachableInv(s);
    var amounts := Amounts(s.charges, m, WindowOf(s, m), None);
    forall t | t in s.charges ensures s.charges[t].digest in s.txs && s.charges[t].amount + Unheard(s, t) == Due(s, t) {
      AmountIsDue(s, t);
    }
    SumAddsUp(amounts, Unheards(s, m), Dues(s, m));
    SumIsZero(Unheards(s, m));
    assert CounterOf(s.counters, m) == Sum(s.charges, m, WindowOf(s, m), None);
    forall t | OnCounter(s, m, t) ensures t in Unheards(s, m) && Unheards(s, m)[t] == Unheard(s, t) {
    }
  }

  lemma AmountIsDue(s: Limiter, t: nat)
    requires ChargesOk(s) && t in s.charges
    ensures s.charges[t].digest in s.txs && s.charges[t].amount + Unheard(s, t) == Due(s, t)
  {
    hide MeterOf, FourMatch;
    assert ChargeOk(s, t);
  }

  /** When all transactions are through, nothing is left open: every claim is settled or lost. */
  lemma NothingPends(s: Limiter)
    requires Reachable(s) && forall d :: d in s.txs ==> s.txs[d].phase.Done?
    ensures s.requests == map[]
    ensures forall t :: t in s.charges ==> s.charges[t].state.Settled? || s.charges[t].state.Lost?
  {
    hide Reachable, FlowsOk, WindowsOk, BoundOk, CountersOk, MeterOf, FourMatch;
    ReachableInv(s);
    forall d | d in s.txs ensures d !in s.tickets {
      assert TxOk(s, d);
    }
    assert s.requests.Keys == {};
    forall t | t in s.charges ensures s.charges[t].state.Settled? || s.charges[t].state.Lost? {
      assert ChargeOk(s, t) && TxOk(s, s.charges[t].digest);
    }
  }

  /**
   * The step takes the settlement of claim `t` away: its request is overwritten before it is settled, the
   * tracker's reply to it never arrives, or the tracker does not take its settlement.
   */
  ghost predicate LosingStep(s: Limiter, st: Step, t: nat) {
    || (st.Record? && st.d in s.tickets && s.tickets[st.d] == t)
    || (st.ClaimLost? && st.d in s.txs && s.txs[st.d].phase.Claimed? && s.txs[st.d].phase.ticket == t)
    || (st.SettleFails? && !st.applied && st.d in s.txs && s.txs[st.d].phase.Settling? && s.txs[st.d].phase.ticket == t)
  }

  ghost predicate LostIn(s: Limiter, steps: seq<Step>, t: nat)
    requires CanRun(s, steps)
    decreases |steps|
  {
    steps != [] && (LosingStep(s, steps[0], t) || LostIn(Apply(s, steps[0]), steps[1..], t))
  }

  /** What the executions of `d` in this run were charged behind an error. */
  ghost function HiddenIn(s: Limiter, steps: seq<Step>, d: Digest): nat
    requires CanRun(s, steps)
    decreases |steps|
  {
    if steps == [] then 0 else HiddenBy(steps[0], d) + HiddenIn(Apply(s, steps[0]), steps[1..], d)
  }

  function HiddenBy(st: Step, d: Digest): nat {
    if st.Execute? && st.d == d && st.result.None? then st.charged else 0
  }

  /**
   * A transaction that is through has on the counter of each of its claims what it was charged, with two
   * exceptions. A claim that a losing step of the run has hit stays at the full budget; otherwise the claim
   * falls short by what an error of its execution has hidden.
   */
  lemma LossIsExact(rules: seq<Rule>, policy: Policy, steps: seq<Step>, t: nat)
    requires CanRun(Start(rules, policy), steps)
    requires
      var s := Run(Start(rules, policy), steps);
      t in s.charges && s.charges[t].digest in s.txs && s.txs[s.charges[t].digest].phase.Done?
    ensures
      var s := Run(Start(rules, policy), steps);
      var tx, amount := s.txs[s.charges[t].digest], s.charges[t].amount;
      var lost, hidden := LostIn(Start(rules, policy), steps, t),
        HiddenIn(Start(rules, policy), steps, s.charges[t].digest);
      && amount == (if lost then tx.ctx.budget else Used(tx) - hidden)
      && (Used(tx) < amount <==> lost && Used(tx) < tx.ctx.budget)
      && (amount < Used(tx) <==> !lost && 0 < hidden)
  {
    hide Inv, CanRun, Run, LostIn, HiddenIn;
    var s := Run(Start(rules, policy), steps);
    StartInv(rules, policy);
    KeepRun(Start(rules, policy), steps);
    LossOverRun(Start(rules, policy), steps, t);
    HiddenOverRun(Start(rules, policy), steps, s.charges[t].digest);
    DoneAmount(s, t);
  }

  ghost function HiddenOf(s: Limiter, d: Digest): nat {
    if d in s.txs then s.txs[d].hidden else 0
  }

  lemma {:induction false} HiddenOverRun(s: Limiter, steps: seq<Step>, d: Digest)
    requires Inv(s) && CanRun(s, steps)
    ensures HiddenOf(Run(s, steps), d) == HiddenOf(s, d) + HiddenIn(s, steps, d)
    decreases |steps|
  {
    hide Inv, Enabled, SafeStep, Apply, HiddenOf;
    if steps != [] {
      KeepStep(s, steps[0]);
      HiddenByStep(s, steps[0], d);
      HiddenOverRun(Apply(s, steps[0]), steps[1..], d);
    }
  }

  lemma HiddenByStep(s: Limiter, st: Step, d: Digest)
    requires Inv(s) && Enabled(s, st)
    ensures HiddenOf(Apply(s, st), d) == HiddenOf(s, d) + HiddenBy(st, d)
  {
    hide Inv, Visited, Answered, Act, FourMatch, MeterOf, UsageMatches, PartlyMatches, Increment, Refund, AsI64, Mark;
    match st
    case Visit(e, rego) => VisitHides(s, e, rego);
    case Record(e) =>
      ActHides(s.txs[e], s.rules[s.txs[e].phase.rule].action, s.txs[e].phase.rule, Some(s.txs[e].phase.ticket));
    case HookSays(e, answer) => AnswerHides(s.txs[e], answer);
    case Execute(e, _, _) => NotRunYet(s, e);
    case _ =>
  }

  lemma NotRunYet(s: Limiter, d: Digest)
    requires Inv(s) && d in s.txs && s.txs[d].phase.Admitted?
    ensures Used(s.txs[d]) == 0
  {
    hide ChargesOk, TableOk, FlowsOk, WindowsOk, BoundOk, CountersOk;
    assert TxOk(s, d);
  }

  lemma VisitHides(s: Limiter, e: Digest, rego: Option<bool>)
    requires Enabled(s, Visit(e, rego))
    ensures Visited(s, e, rego).hidden == s.txs[e].hidden
  {
    hide FourMatch, PartlyMatches;
  }

  lemma ActHides(tx: Tx, action: Action, i: nat, ticket: Option<nat>)
    ensures Act(tx, action, i, ticket).hidden == tx.hidden
  {
  }

  lemma AnswerHides(tx: Tx, answer: HookAnswer)
    requires tx.phase.Asking?
    ensures Answered(tx, answer).hidden == tx.hidden
  {
  }

  lemma DoneAmount(s: Limiter, t: nat)
    requires Inv(s) && t in s.charges && s.charges[t].digest in s.txs && s.txs[s.charges[t].digest].phase.Done?
    ensures
      var tx := s.txs[s.charges[t].digest];
      && Used(tx) <= tx.ctx.budget
      && s.charges[t].amount == (if s.charges[t].state.Lost? then tx.ctx.budget else tx.reported)
  {
    hide TableOk, FlowsOk, WindowsOk, BoundOk, CountersOk, MeterOf, FourMatch;
    assert ChargeOk(s, t) && TxOk(s, s.charges[t].digest);
  }

  ghost predicate IsLost(s: Limiter, t: nat) {
    t in s.charges && s.charges[t].state.Lost?
  }

  lemma {:induction false} LossOverRun(s: Limiter, steps: seq<Step>, t: nat)
    requires Inv(s) && CanRun(s, steps)
    ensures IsLost(Run(s, steps), t) <==> IsLost(s, t) || LostIn(s, steps, t)
    decreases |steps|
  {
    hide Inv, Enabled, SafeStep, Apply, IsLost, LosingStep;
    if steps != [] {
      KeepStep(s, steps[0]);
      LossByStep(s, steps[0], t);
      LossOverRun(Apply(s, steps[0]), steps[1..], t);
    }
  }

  /** A claim is lost by losing steps only, and stays lost. */
  lemma LossByStep(s: Limiter, st: Step, t: nat)
    requires Inv(s) && Enabled(s, st)
    ensures IsLost(Apply(s, st), t) <==> IsLost(s, t) || LosingStep(s, st, t)
  {
    hide Inv, Visited, Answered, Increment, MeterOf, UsageMatches, Act, PartlyMatches, Refund, AsI64;
    match st
    case Record(d) =>
      RecordFacts(s, d);
      TicketFacts(s, d);
    case ClaimGas(d, _) =>
      ClaimIsNew(s);
    case ClaimLost(d) => TicketFacts(s, d);
    case TakeRequest(d) => TicketFacts(s, d);
    case Settle(d) => TicketFacts(s, d);
    case SettleFails(d, _) => TicketFacts(s, d);
    case _ =>
  }

  /** The tickets a transaction has in hand are claims that are not lost. */
  lemma TicketFacts(s: Limiter, d: Digest)
    requires Inv(s) && d in s.txs
    ensures s.txs[d].phase.Claimed? ==>
      s.txs[d].phase.ticket in s.charges && s.charges[s.txs[d].phase.ticket].state.Fresh?
    ensures s.txs[d].phase.Settling? ==>
      s.txs[d].phase.ticket in s.charges && s.charges[s.txs[d].phase.ticket].state.Taken?
    ensures d in s.tickets ==> s.tickets[d] in s.charges && s.charges[s.tickets[d]].state.Recorded?
  {
    hide ChargesOk, FlowsOk, WindowsOk, BoundOk, CountersOk, MeterOf, FourMatch;
    assert TxOk(s, d);
  }

  lemma ClaimIsNew(s: Limiter)
    requires Inv(s)
    ensures s.nextTicket !in s.charges
  {
    FreshTicket(s);
  }

  lemma RecordFacts(s: Limiter, d: Digest)
    requires Inv(s) && Enabled(s, Record(d))
    ensures
      var u, ticket := DoRecord(s, d), s.txs[d].phase.ticket;
      && u.charges.Keys == s.charges.Keys
      && forall t :: t in s.charges ==> u.charges[t] == s.charges[t].(state :=
           if t == ticket then Recorded else if d in s.tickets && t == s.tickets[d] then Lost else s.charges[t].state)
    ensures d in s.tickets ==> s.tickets[d] != s.txs[d].phase.ticket
  {
    hide DoRecord, ChargesOk, FlowsOk, WindowsOk, BoundOk, CountersOk;
    RecordCharges(s, d);
  }

  /** A request is only ever overwritten if two limited rules match the transaction's own data. */
  lemma OverwriteNeedsTwoRules(s: Limiter, d: Digest)
    requires Reachable(s) && Enabled(s, Record(d)) && d in s.requests
    ensures exists i, j :: 0 <= i < j < |s.rules| && Limits(s, d, i) && Limits(s, d, j)
  {
    hide Reachable, FlowsOk, WindowsOk, BoundOk, CountersOk, MeterOf, FourMatch;
    ReachableInv(s);
    var Claimed(j, _, ticket) := s.txs[d].phase;
    assert TxOk(s, d) && ChargeOk(s, ticket) && ChargeOk(s, s.tickets[d]);
    var i := s.charges[s.tickets[d]].rule;
    assert Limits(s, d, i) && Limits(s, d, j);
  }

  ghost predicate Limits(s: Limiter, d: Digest, i: nat) {
    d in s.txs && i < |s.rules| && s.rules[i].gasUsage.Some? && FourMatch(s.rules[i], s.txs[d].ctx)
  }

  // ---------------------------------------------------------------- the rate limit

  /** Each transaction of a group has its own claim, in one counter and window, made within the limit. */
  ghost predicate ClaimedWithin(s: Limiter, claims: map<Digest, nat>, m: Meter, window: nat, limit: nat) {
    forall d :: d in claims ==>
      d in s.txs && claims[d] in s.charges && s.charges[claims[d]].digest == d
      && Counts(s.charges[claims[d]], m, window, Some(limit))
  }

  ghost function Usage(s: Limiter, group: set<Digest>): map<Digest, nat>
    requires group <= s.txs.Keys
  {
    map d | d in group :: Used(s.txs[d])
  }

  /** What a group of transactions was really charged. */
  ghost function UsedBy(s: Limiter, group: set<Digest>): nat
    requires group <= s.txs.Keys
  {
    SumValues(Usage(s, group))
  }

  /** A settled claim under rule `i`. */
  ghost predicate SettledUnder(s: Limiter, d: Digest, i: nat) {
    exists t :: Behind(s, d, i, t) && s.charges[t].state.Settled?
  }

  /** What an error has hidden from a settlement of this transaction's claim under rule `i`. */
  ghost function Slip(s: Limiter, d: Digest, i: nat): nat
    requires d in s.txs
  {
    if SettledUnder(s, d, i) then s.txs[d].hidden else 0
  }

  ghost function Slips(s: Limiter, group: set<Digest>, i: nat): map<Digest, nat>
    requires group <= s.txs.Keys
  {
    map d | d in group :: Slip(s, d, i)
  }

  ghost function SlippedBy(s: Limiter, group: set<Digest>, i: nat): nat
    requires group <= s.txs.Keys
  {
    SumValues(Slips(s, group, i))
  }

  /** No settled claim of the group under rule `i` belongs to an execution whose error hid a charge. */
  ghost predicate NoneSlips(s: Limiter, group: set<Digest>, i: nat) {
    forall d :: d in group && d in s.txs ==> Slip(s, d, i) == 0
  }

  lemma NothingSlipped(s: Limiter, group: set<Digest>, i: nat)
    requires group <= s.txs.Keys
    ensures SlippedBy(s, group, i) == 0 <==> NoneSlips(s, group, i)
  {
    hide Slip, SumValues;
    SumIsZero(Slips(s, group, i));
    forall d | d in group ensures Slips(s, group, i)[d] == Slip(s, d, i) {
    }
  }

  /**
   * Whatever such a group was really charged, it passes the limit at most by what errors have hidden from its
   * settlements; and not at all if they have hidden nothing.
   */
  lemma UsageIsBounded(s: Limiter, claims: map<Digest, nat>, i: nat, m: Meter, window: nat, limit: nat)
    requires Reachable(s) && ClaimedWithin(s, claims, m, window, limit)
    requires forall d :: d in claims ==> Behind(s, d, i, claims[d])
    ensures UsedBy(s, claims.Keys) <= limit + SlippedBy(s, claims.Keys, i)
    ensures NoneSlips(s, claims.Keys, i) ==> UsedBy(s, claims.Keys) <= limit
  {
    hide Reachable, TxsOk, TableOk, FlowsOk, WindowsOk, CountersOk, ChargesOk, MeterOf, FourMatch, Slip, SumValues,
      NoneSlips;
    ReachableInv(s);
    var group := claims.Keys;
    var amounts := Amounts(s.charges, m, window, Some(limit));
    forall d | d in group ensures claims[d] in amounts && 0 <= Used(s.txs[d]) - Slip(s, d, i) <= amounts[claims[d]] {
      KnownIsCounted(s, d, i, claims[d]);
    }
    var net: map<nat, nat> := map d | d in group :: Used(s.txs[d]) - Slip(s, d, i);
    SumInjects(net, amounts, claims);
    SumAddsUp(net, Slips(s, group, i), Usage(s, group));
    NothingSlipped(s, group, i);
    assert Sum(s.charges, m, window, Some(limit)) <= limit;
  }

  lemma KnownIsCounted(s: Limiter, d: Digest, i: nat, t: nat)
    requires ChargesOk(s) && TxsOk(s) && d in s.txs && Behind(s, d, i, t)
    ensures Slip(s, d, i) <= Used(s.txs[d]) <= s.charges[t].amount + Slip(s, d, i)
  {
    hide MeterOf, FourMatch, UsageMatches;
    assert ChargeOk(s, t) && TxOk(s, d);
    assert s.charges[t].state.Settled? ==> SettledUnder(s, d, i);
  }

  /** Let through by rule `i` on a claim in this counter and window. */
  ghost predicate GrantedBy(s: Limiter, d: Digest, i: nat, m: Meter, window: nat) {
    && d in s.txs && s.txs[d].grant.Some? && s.txs[d].grant.value.ByRule? && s.txs[d].grant.value.rule == i
    && s.txs[d].grant.value.ticket.Some?
    && var t := s.txs[d].grant.value.ticket.value;
       t in s.charges && s.charges[t].meter == m && s.charges[t].window == window
  }

  /** Numbers that meet the operand are at most the limit: `<=`, `<` and `=` are of this kind. */
  ghost predicate CapsMatching(v: ValueNumber, limit: nat) {
    forall n: nat :: Matches(v, n) ==> n <= limit
  }

  /** Numbers that do not meet the operand are at most the limit: `>`, `>=` and `!=` are of this kind. */
  ghost predicate CapsOthers(v: ValueNumber, limit: nat) {
    forall n: nat :: !Matches(v, n) ==> n <= limit
  }

  lemma OperandsCap(number: nat)
    ensures CapsMatching(ValueNumber(LE, number), number) && CapsOthers(ValueNumber(GT, number), number)
    ensures 0 < number ==>
      CapsMatching(ValueNumber(LT, number), number - 1) && CapsOthers(ValueNumber(GE, number), number - 1)
    ensures CapsMatching(ValueNumber(EQ, number), number) && CapsOthers(ValueNumber(NE, number), number)
  {
  }

  lemma MatchedTotal(r: Rule, total: int, limit: nat)
    requires r.gasUsage.Some? && 0 <= total <= MAX_I64
    ensures CapsMatching(r.gasUsage.value.value, limit) && UsageMatches(r, total) ==> total <= limit
    ensures CapsOthers(r.gasUsage.value.value, limit) && !UsageMatches(r, total) ==> total <= limit
  {
    assert AsU64(total) == total;
  }

  /**
   * A rule whose operand admits no more than the limit: the transactions it lets through in one window
   * never use more than the limit, however they and others interleave, but for what errors have hidden.
   */
  lemma AllowRuleLimits(s: Limiter, i: nat, limit: nat, m: Meter, window: nat, group: set<Digest>)
    requires Reachable(s) && i < |s.rules| && s.rules[i].gasUsage.Some?
    requires CapsMatching(s.rules[i].gasUsage.value.value, limit)
    requires forall d :: d in group ==> GrantedBy(s, d, i, m, window)
    ensures group <= s.txs.Keys && UsedBy(s, group) <= limit + SlippedBy(s, group, i)
    ensures NoneSlips(s, group, i) ==> UsedBy(s, group) <= limit
  {
    hide Reachable, Inv, CapsMatching, UsedBy, SlippedBy, NoneSlips, GrantedBy;
    ReachableInv(s);
    var claims := map d | d in group :: GrantClaim(s, d, i, m, window);
    forall d | d in claims
      ensures d in s.txs && Behind(s, d, i, claims[d]) && Counts(s.charges[claims[d]], m, window, Some(limit))
    {
      GrantedWithin(s, d, i, limit, m, window);
    }
    UsageIsBounded(s, claims, i, m, window, limit);
    assert claims.Keys == group;
  }

  ghost function GrantClaim(s: Limiter, d: Digest, i: nat, m: Meter, window: nat): nat
    requires GrantedBy(s, d, i, m, window)
  {
    s.txs[d].grant.value.ticket.value
  }

  /** A claim that was let through was within the limit. */
  lemma GrantedWithin(s: Limiter, d: Digest, i: nat, limit: nat, m: Meter, window: nat)
    requires Inv(s) && i < |s.rules| && s.rules[i].gasUsage.Some?
    requires CapsMatching(s.rules[i].gasUsage.value.value, limit)
    requires GrantedBy(s, d, i, m, window)
    ensures
      var t := GrantClaim(s, d, i, m, window);
      d in s.txs && Behind(s, d, i, t) && Counts(s.charges[t], m, window, Some(limit))
  {
    hide TxsOk, TableOk, WindowsOk, CountersOk, BoundOk, MeterOf, FourMatch, UsageMatches, CapsMatching;
    var t := GrantClaim(s, d, i, m, window);
    assert FlowOk(s, d);
    assert ChargeOk(s, t);
    MatchedTotal(s.rules[i], s.charges[t].total, limit);
  }

  /** Let through by a rule after `i`, or by the default policy. */
  ghost predicate GrantedAfter(s: Limiter, d: Digest, i: nat) {
    && d in s.txs && s.txs[d].grant.Some? && (s.txs[d].grant.value.ByRule? ==> i < s.txs[d].grant.value.rule)
  }

  /** Has a claim under rule `i` in this counter and window. */
  ghost predicate ClaimedUnder(s: Limiter, d: Digest, i: nat, m: Meter, window: nat) {
    exists t :: Behind(s, d, i, t) && s.charges[t].meter == m && s.charges[t].window == window
  }

  /**
   * A rule that denies everything above the limit: the transactions that claimed under it in one window
   * and got past it never use more than the limit.
   */
  lemma DenyRuleLimits(s: Limiter, i: nat, limit: nat, m: Meter, window: nat, group: set<Digest>)
    requires Reachable(s) && s.policy != Disabled && i < |s.rules| && s.rules[i].action == Always(Deny)
    requires s.rules[i].gasUsage.Some? && CapsOthers(s.rules[i].gasUsage.value.value, limit)
    requires forall d :: d in group ==> GrantedAfter(s, d, i) && ClaimedUnder(s, d, i, m, window)
    ensures group <= s.txs.Keys && UsedBy(s, group) <= limit + SlippedBy(s, group, i)
    ensures NoneSlips(s, group, i) ==> UsedBy(s, group) <= limit
  {
    hide Reachable, Inv, CapsOthers, UsedBy, GrantedAfter;
    ReachableInv(s);
    var claims := map d | d in group :: ClaimUnder(s, d, i, m, window);
    forall d | d in claims ensures d in s.txs && claims[d] in s.charges && s.charges[claims[d]].digest == d
      && Counts(s.charges[claims[d]], m, window, Some(limit))
    {
      PassedWithin(s, d, i, limit, claims[d]);
    }
    UsageIsBounded(s, claims, i, m, window, limit);
    assert claims.Keys == group;
  }

  /** A claim that did not trigger the denial was within the limit. */
  lemma PassedWithin(s: Limiter, d: Digest, i: nat, limit: nat, t: nat)
    requires Inv(s) && s.policy != Disabled && i < |s.rules| && s.rules[i].action == Always(Deny)
    requires s.rules[i].gasUsage.Some? && CapsOthers(s.rules[i].gasUsage.value.value, limit)
    requires GrantedAfter(s, d, i) && Behind(s, d, i, t)
    ensures d in s.txs && s.charges[t].total <= limit
  {
    hide TableOk, WindowsOk, CountersOk, BoundOk, MeterOf, FourMatch, UsageMatches, CapsOthers;
    assert FlowOk(s, d) && TxOk(s, d);
    GrantedPosition(s, d, i);
    assert ChargeOk(s, t);
    MatchedTotal(s.rules[i], s.charges[t].total, limit);
  }

  ghost function ClaimUnder(s: Limiter, d: Digest, i: nat, m: Meter, window: nat): (t: nat)
    requires ClaimedUnder(s, d, i, m, window)
    ensures Behind(s, d, i, t) && s.charges[t].meter == m && s.charges[t].window == window
  {
    var t :| Behind(s, d, i, t) && s.charges[t].meter == m && s.charges[t].window == window;
    t
  }

  lemma GrantedPosition(s: Limiter, d: Digest, i: nat)
    requires d in s.txs && TxOk(s, d) && FlowOk(s, d) && s.policy != Disabled && i < |s.rules| && s.txs[d].grant.Some?
    requires s.txs[d].grant.value.ByRule? ==> i < s.txs[d].grant.value.rule
    ensures i < Position(s, s.txs[d])
  {
    hide MustClaim, LetBy, Behind;
  }

  /**
   * No transaction gets past a limited rule whose four own predicates it meets, unless the rule's Rego
   * expression said no, without having claimed under it.
   */
  lemma NobodySlipsBy(s: Limiter, d: Digest, i: nat)
    requires Reachable(s) && s.policy != Disabled && GrantedAfter(s, d, i)
    requires i < |s.rules| && s.rules[i].gasUsage.Some? && FourMatch(s.rules[i], s.txs[d].ctx) && i !in s.txs[d].vetoed
    ensures exists t :: Behind(s, d, i, t) && s.charges[t].meter == MeterOf(s.rules[i], s.txs[d].ctx)
  {
    hide Reachable, TableOk, WindowsOk, CountersOk, BoundOk, MeterOf, FourMatch, UsageMatches;
    ReachableInv(s);
    assert FlowOk(s, d) && TxOk(s, d);
    GrantedPosition(s, d, i);
    assert MustClaim(s.rules[i], s.txs[d], i);
    var t :| Behind(s, d, i, t);
    assert ChargeOk(s, t);
  }

  /** The step is the answer "no" of the Rego expression of rule `i`. */
  ghost predicate VetoStep(s: Limiter, st: Step, d: Digest, i: nat) {
    && st.Visit? && st.d == d && st.rego == Some(false)
    && d in s.txs && s.txs[d].phase == Checking(i) && i < |s.rules| && s.rules[i].rego.Some?
    && FourMatch(s.rules[i], s.txs[d].ctx)
  }

  ghost predicate VetoIn(s: Limiter, steps: seq<Step>, d: Digest, i: nat)
    requires CanRun(s, steps)
    decreases |steps|
  {
    steps != [] && (VetoStep(s, steps[0], d, i) || VetoIn(Apply(s, steps[0]), steps[1..], d, i))
  }

  ghost predicate IsVetoed(s: Limiter, d: Digest, i: nat) {
    d in s.txs && i in s.txs[d].vetoed
  }

  /** A rule counts as vetoed exactly if its Rego expression was asked and said no. */
  lemma {:induction false} VetoIsExact(s: Limiter, steps: seq<Step>, d: Digest, i: nat)
    requires CanRun(s, steps)
    ensures IsVetoed(Run(s, steps), d, i) <==> IsVetoed(s, d, i) || VetoIn(s, steps, d, i)
    decreases |steps|
  {
    hide Enabled, SafeStep, Apply, IsVetoed, VetoStep;
    if steps != [] {
      VetoByStep(s, steps[0], d, i);
      VetoIsExact(Apply(s, steps[0]), steps[1..], d, i);
    }
  }

  lemma VetoByStep(s: Limiter, st: Step, d: Digest, i: nat)
    requires Enabled(s, st)
    ensures IsVetoed(Apply(s, st), d, i) <==> IsVetoed(s, d, i) || VetoStep(s, st, d, i)
  {
    hide Visited, Answered, FourMatch, MeterOf, UsageMatches, PartlyMatches, Act, Increment, Refund, AsI64, Mark;
    match st
    case Visit(e, rego) => VetoByVisit(s, e, rego, i);
    case Record(e) =>
      ActVetoes(s.txs[e], s.rules[s.txs[e].phase.rule].action, s.txs[e].phase.rule, Some(s.txs[e].phase.ticket));
    case HookSays(e, answer) => AnswerVetoes(s.txs[e], answer);
    case _ =>
  }

  lemma VetoByVisit(s: Limiter, e: Digest, rego: Option<bool>, i: nat)
    requires Enabled(s, Visit(e, rego))
    ensures i in Visited(s, e, rego).vetoed <==> i in s.txs[e].vetoed || VetoStep(s, Visit(e, rego), e, i)
  {
    hide FourMatch, MeterOf, UsageMatches;
    var tx, n := s.txs[e], s.txs[e].phase.next;
    assert tx.phase == Checking(n);
    if n < |s.rules| && FourMatch(s.rules[n], tx.ctx) && !PartlyMatches(s.rules[n], tx.ctx, rego) && rego.Some? {
      assert rego.value == false;
      assert VetoStep(s, Visit(e, rego), e, i) <==> i == n;
    }
  }

  lemma ActVetoes(tx: Tx, action: Action, i: nat, ticket: Option<nat>)
    ensures Act(tx, action, i, ticket).vetoed == tx.vetoed
  {
  }

  lemma AnswerVetoes(tx: Tx, answer: HookAnswer)
    requires tx.phase.Asking?
    ensures Answered(tx, answer).vetoed == tx.vetoed
  {
  }

  // ---------------------------------------------------------------- all that a denying rule matches

  /** Matched by the rule's own predicates, counted by this counter, and let through later on. */
  ghost predicate GotPast(s: Limiter, d: Digest, i: nat, m: Meter) {
    && GrantedAfter(s, d, i) && i < |s.rules| && s.rules[i].gasUsage.Some?
    && FourMatch(s.rules[i], s.txs[d].ctx) && i !in s.txs[d].vetoed && MeterOf(s.rules[i], s.txs[d].ctx) == m
  }

  /**
   * Everything that meets a denying rule's predicates and gets past it, over the whole run: at most the
   * limit for every window its counter has seen so far.
   */
  lemma DenyRuleHolds(s: Limiter, i: nat, limit: nat, m: Meter, group: set<Digest>)
    requires Reachable(s) && s.policy != Disabled && i < |s.rules| && s.rules[i].action == Always(Deny)
    requires s.rules[i].gasUsage.Some? && CapsOthers(s.rules[i].gasUsage.value.value, limit)
    requires forall d :: d in group ==> GotPast(s, d, i, m)
    ensures group <= s.txs.Keys && UsedBy(s, group) <= limit * (WindowOf(s, m) + 1) + SlippedBy(s, group, i)
    ensures NoneSlips(s, group, i) ==> UsedBy(s, group) <= limit * (WindowOf(s, m) + 1)
  {
    hide Reachable, CapsOthers, UsedBy, MeterOf, FourMatch;
    forall d | d in group ensures ClaimedBefore(s, d, i, m, WindowOf(s, m) + 1) {
      NobodySlipsBy(s, d, i);
      var t :| Behind(s, d, i, t) && s.charges[t].meter == m;
      WindowPassed(s, t);
      assert ClaimedUnder(s, d, i, m, s.charges[t].window);
    }
    DenyRuleUpTo(s, i, limit, m, WindowOf(s, m) + 1, group);
    NothingSlipped(s, group, i);
  }

  lemma WindowPassed(s: Limiter, t: nat)
    requires Reachable(s) && t in s.charges
    ensures s.charges[t].window <= WindowOf(s, s.charges[t].meter)
  {
    hide Reachable, TxsOk, ChargesOk, TableOk, FlowsOk, BoundOk, CountersOk;
    ReachableInv(s);
  }

  ghost predicate ClaimedBefore(s: Limiter, d: Digest, i: nat, m: Meter, n: nat) {
    exists w: nat :: w < n && ClaimedUnder(s, d, i, m, w)
  }

  /** Window by window. */
  lemma {:induction false} DenyRuleUpTo(s: Limiter, i: nat, limit: nat, m: Meter, n: nat, group: set<Digest>)
    requires Reachable(s) && s.policy != Disabled && i < |s.rules| && s.rules[i].action == Always(Deny)
    requires s.rules[i].gasUsage.Some? && CapsOthers(s.rules[i].gasUsage.value.value, limit)
    requires forall d :: d in group ==> GrantedAfter(s, d, i) && ClaimedBefore(s, d, i, m, n)
    ensures group <= s.txs.Keys && UsedBy(s, group) <= limit * n + SlippedBy(s, group, i)
    decreases n
  {
    hide Reachable, CapsOthers, ClaimedUnder;
    if n == 0 {
      NoGroup(s, group, i);
    } else {
      var now := set d | d in group && ClaimedUnder(s, d, i, m, n - 1);
      DenyRuleLimits(s, i, limit, m, n - 1, now);
      forall d | d in group - now ensures ClaimedBefore(s, d, i, m, n - 1) {
        var w: nat :| w < n && ClaimedUnder(s, d, i, m, w);
        assert w < n - 1;
      }
      DenyRuleUpTo(s, i, limit, m, n - 1, group - now);
      UsedSplit(s, group, now, i);
    }
  }

  lemma UsedSplit(s: Limiter, group: set<Digest>, part: set<Digest>, i: nat)
    requires group <= s.txs.Keys && part <= group
    ensures UsedBy(s, group) == UsedBy(s, part) + UsedBy(s, group - part)
    ensures SlippedBy(s, group, i) == SlippedBy(s, part, i) + SlippedBy(s, group - part, i)
  {
    hide SumValues, Slip;
    var used, slips := Usage(s, group), Slips(s, group, i);
    SumSplit(used, part);
    assert Kept(used, part) == Usage(s, part);
    assert used - part == Usage(s, group - part);
    SumSplit(slips, part);
    assert Kept(slips, part) == Slips(s, part, i);
    assert slips - part == Slips(s, group - part, i);
  }

  lemma NoGroup(s: Limiter, group: set<Digest>, i: nat)
    requires forall d :: d !in group
    ensures group <= s.txs.Keys && UsedBy(s, group) == SlippedBy(s, group, i) == 0
  {
    assert Usage(s, group).Keys == {} && Slips(s, group, i).Keys == {};
  }

  // ---------------------------------------------------------------- why a window must not end early

  /**
   * If the counter of an open claim has expired since, its settlement is taken from the present window
   * instead, which then falls short of its own claims by the whole refund. The counter is right if and only
   * if there was nothing to give back.
   */
  lemma LateSettlementUndercounts(s: Limiter, d: Digest)
    requires ChargesOk(s) && TxsOk(s) && d in s.txs && s.txs[d].phase.Settling?
    requires
      var m, t := s.txs[d].phase.request.meter, s.txs[d].phase.ticket;
      t in s.charges && s.charges[t].window != WindowOf(s, m)
      && CounterOf(s.counters, m) == Sum(s.charges, m, WindowOf(s, m), None) <= MAX_I64
    ensures
      var m := s.txs[d].phase.request.meter;
      var u := DoSettle(s, d);
      && Sum(u.charges, m, WindowOf(u, m), None) == Sum(s.charges, m, WindowOf(s, m), None)
      && CounterOf(u.counters, m) == Sum(u.charges, m, WindowOf(u, m), None) - (s.txs[d].ctx.budget - s.txs[d].reported)
      && (CounterOf(u.counters, m) == Sum(u.charges, m, WindowOf(u, m), None) <==>
          s.txs[d].reported == s.txs[d].ctx.budget)
  {
    hide ChargesOk, TxsOk, Sum, AsI64, Refund;
    SettleFacts(s, d);
    var m, t := s.txs[d].phase.request.meter, s.txs[d].phase.ticket;
    SumChange(s.charges, t, s.txs[d].reported, Settled, m, WindowOf(s, m), None);
    TotalFits(s, d);
  }

  lemma TotalFits(s: Limiter, d: Digest)
    requires ChargesOk(s) && TxsOk(s) && d in s.txs && s.txs[d].phase.Settling?
    ensures 0 <= s.txs[d].reported <= s.txs[d].ctx.budget <= MAX_I64
  {
    assert TxOk(s, d) && ChargeOk(s, s.txs[d].phase.ticket);
  }
}
