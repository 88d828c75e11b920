/**
 * Gas-usage limits under concurrency: any number of transactions are checked, executed and settled at the
 * same time, and each touch of a counter or of the table of open requests is one step.
 */
module Limiter {
  import opened Coins
  import opened Ledger
  import opened Operands
  import opened Rules

  /** Why a transaction was let through, with the charge of a limited rule. */
  datatype Grant = ByRule(rule: nat, ticket: Option<nat>) | ByDefault

  datatype Phase =
    | Checking(next: nat)
    | Claimed(rule: nat, total: int, ticket: nat)     // counter raised, reply under way
    | Asking(rule: nat, behind: Option<nat>)          // hook called
    | Admitted
    | Finished(result: Option<nat>)                   // rejected, failed or executed, before settlement
    | Settling(request: Request, result: Option<nat>, ticket: nat)
    | Done

  datatype Tx = Tx(
    ctx: Context,
    phase: Phase,
    grant: Option<Grant>,
    reported: nat,                         // gas its execution reported
    hidden: nat,                           // history: gas it was charged behind an error
    vetoed: set<nat>)                      // history: rules whose Rego expression said no

  datatype ChargeState = Fresh | Recorded | Taken | Settled | Lost

  /** History: one claim, and what is left of it on its counter. */
  datatype Charge = Charge(
    meter: Meter, digest: Digest, rule: nat, window: nat, total: int, amount: nat, state: ChargeState)

  datatype Limiter = Limiter(
    rules: seq<Rule>,
    policy: Policy,
    counters: Counters,
    requests: map<Digest, Request>,        // a list in the code, always of one element
    txs: map<Digest, Tx>,
    // history, which no step looks at
    tickets: map<Digest, nat>,
    charges: map<nat, Charge>,
    nextTicket: nat,
    windows: map<Meter, nat>)

  function WindowOf(s: Limiter, m: Meter): nat {
    if m in s.windows then s.windows[m] else 0
  }

  datatype Step =
    | Arrive(ctx: Context)
    | Visit(d: Digest, rego: Option<bool>)
    | ClaimGas(d: Digest, rego: Option<bool>)
    | Record(d: Digest)
    | ClaimLost(d: Digest)
    | HookSays(d: Digest, answer: HookAnswer)
    | CheckFails(d: Digest)
    | Execute(d: Digest, result: Option<nat>, charged: nat)
    | TakeRequest(d: Digest)
    | Settle(d: Digest)
    | SettleFails(d: Digest, applied: bool)
    | ExpireCounter(m: Meter)

  ghost predicate Enabled(s: Limiter, st: Step) {
    match st
    // transactions are distinct
    case Arrive(ctx) => ctx.digest !in s.txs
    case Visit(d, rego) =>
      && d in s.txs && s.txs[d].phase.Checking? && s.txs[d].phase.next <= |s.rules|
      && (s.txs[d].phase.next < |s.rules| ==>
           var r := s.rules[s.txs[d].phase.next];
           r.gasUsage.None? || !PartlyMatches(r, s.txs[d].ctx, rego))
    case ClaimGas(d, rego) =>
      && d in s.txs && s.txs[d].phase.Checking? && s.txs[d].phase.next < |s.rules|
      && var r := s.rules[s.txs[d].phase.next];
         r.gasUsage.Some? && PartlyMatches(r, s.txs[d].ctx, rego)
    case Record(d) =>
      d in s.txs && s.txs[d].phase.Claimed? && s.txs[d].phase.rule < |s.rules|
      && s.rules[s.txs[d].phase.rule].gasUsage.Some?
    case ClaimLost(d) => d in s.txs && s.txs[d].phase.Claimed?
    case HookSays(d, _) => d in s.txs && s.txs[d].phase.Asking?
    case CheckFails(d) => d in s.txs && (s.txs[d].phase.Checking? || s.txs[d].phase.Asking?)
    // the ledger never charges more than the budget; an error may hide what it charged
    case Execute(d, result, charged) =>
      && d in s.txs && s.txs[d].phase.Admitted? && charged <= s.txs[d].ctx.budget
      && (result.Some? ==> charged == result.value)
    case TakeRequest(d) => d in s.txs && s.txs[d].phase.Finished? && (d in s.requests ==> d in s.tickets)
    case Settle(d) => d in s.txs && s.txs[d].phase.Settling?
    case SettleFails(d, _) => d in s.txs && s.txs[d].phase.Settling?
    case ExpireCounter(m) => true
  }

  /** A rule whose predicates all hold: its action decides, or a hook is asked. */
  function Act(tx: Tx, action: Action, i: nat, ticket: Option<nat>): Tx {
    match action
    case Always(Allow) => tx.(phase := Admitted, grant := Some(ByRule(i, ticket)))
    case Always(Deny) => tx.(phase := Finished(None))
    case CallHook(_) => tx.(phase := Asking(i, ticket))
  }

  /** What the ledger really charged a transaction. */
  function Used(tx: Tx): nat {
    tx.reported + tx.hidden
  }

  /** The settlement learns what the execution reported, and nothing of a charge behind an error. */
  function Ran(tx: Tx, result: Option<nat>, charged: nat): Tx
    requires result.Some? ==> charged == result.value
  {
    if result.Some? then tx.(phase := Finished(result), reported := charged)
    else tx.(phase := Finished(None), hidden := charged)
  }

  function Put(s: Limiter, d: Digest, tx: Tx): Limiter {
    s.(txs := s.txs[d := tx])
  }

  function Mark(charges: map<nat, Charge>, t: nat, state: ChargeState): map<nat, Charge> {
    if t in charges then charges[t := charges[t].(state := state)] else charges
  }

  ghost function Apply(s: Limiter, st: Step): Limiter
    requires Enabled(s, st)
  {
    match st
    case Arrive(ctx) => DoArrive(s, ctx)
    case Visit(d, rego) => Put(s, d, Visited(s, d, rego))
    case ClaimGas(d, rego) => DoClaim(s, d)
    case Record(d) => DoRecord(s, d)
    case ClaimLost(d) =>
      Put(s, d, s.txs[d].(phase := Finished(None))).(charges := Mark(s.charges, s.txs[d].phase.ticket, Lost))
    case HookSays(d, answer) => Put(s, d, Answered(s.txs[d], answer))
    case CheckFails(d) => Put(s, d, s.txs[d].(phase := Finished(None)))
    case Execute(d, result, charged) => Put(s, d, Ran(s.txs[d], result, charged))
    case TakeRequest(d) => DoTake(s, d)
    case Settle(d) => DoSettle(s, d)
    // the error may hide that the tracker did lower the counter
    case SettleFails(d, applied) =>
      if applied then DoSettle(s, d)
      else Put(s, d, s.txs[d].(phase := Done)).(charges := Mark(s.charges, s.txs[d].phase.ticket, Lost))
    case ExpireCounter(m) => DoExpireCounter(s, m)
  }

  function DoArrive(s: Limiter, ctx: Context): Limiter {
    Put(s, ctx.digest,
        if s.policy == Disabled then Tx(ctx, Admitted, Some(ByDefault), 0, 0, {})
        else Tx(ctx, Checking(0), None, 0, 0, {}))
  }

  function Visited(s: Limiter, d: Digest, rego: Option<bool>): Tx
    requires d in s.txs && s.txs[d].phase.Checking?
  {
    var tx, i := s.txs[d], s.txs[d].phase.next;
    if |s.rules| <= i then
      if s.policy == DenyAll then tx.(phase := Finished(None)) else tx.(phase := Admitted, grant := Some(ByDefault))
    else if FourMatch(s.rules[i], tx.ctx) && s.rules[i].rego.Some? && rego.None? then tx.(phase := Finished(None))
    else if !PartlyMatches(s.rules[i], tx.ctx, rego) then
      tx.(phase := Checking(i + 1), vetoed := if FourMatch(s.rules[i], tx.ctx) then tx.vetoed + {i} else tx.vetoed)
    else Act(tx, s.rules[i].action, i, None)
  }

  function DoClaim(s: Limiter, d: Digest): Limiter
    requires d in s.txs && s.txs[d].phase.Checking? && s.txs[d].phase.next < |s.rules|
    requires s.rules[s.txs[d].phase.next].gasUsage.Some?
  {
    var tx, i := s.txs[d], s.txs[d].phase.next;
    var m := MeterOf(s.rules[i], tx.ctx);
    var counters := Increment(s.counters, m, AsI64(tx.ctx.budget));
    var charge := Charge(m, d, i, WindowOf(s, m), counters[m], tx.ctx.budget, Fresh);
    Put(s, d, tx.(phase := Claimed(i, counters[m], s.nextTicket)))
      .(counters := counters, charges := s.charges[s.nextTicket := charge], nextTicket := s.nextTicket + 1)
  }

  /** Inserting replaces an earlier request of the same transaction. */
  function DoRecord(s: Limiter, d: Digest): Limiter
    requires d in s.txs && s.txs[d].phase.Claimed? && s.txs[d].phase.rule < |s.rules|
    requires s.rules[s.txs[d].phase.rule].gasUsage.Some?
  {
    var tx := s.txs[d];
    var Claimed(i, total, ticket) := tx.phase;
    var lost := if d in s.tickets then Mark(s.charges, s.tickets[d], Lost) else s.charges;
    Put(s, d,
        if UsageMatches(s.rules[i], total) then Act(tx, s.rules[i].action, i, Some(ticket))
        else tx.(phase := Checking(i + 1)))
      .(requests := s.requests[d := Request(MeterOf(s.rules[i], tx.ctx), tx.ctx.budget)],
        tickets := s.tickets[d := ticket], charges := Mark(lost, ticket, Recorded))
  }

  function Answered(tx: Tx, answer: HookAnswer): Tx
    requires tx.phase.Asking?
  {
    match answer
    case Says(Allow) => tx.(phase := Admitted, grant := Some(ByRule(tx.phase.rule, tx.phase.behind)))
    case Says(Deny) => tx.(phase := Finished(None))
    case NoDecision => tx.(phase := Checking(tx.phase.rule + 1))
  }

  function DoTake(s: Limiter, d: Digest): Limiter
    requires d in s.txs && s.txs[d].phase.Finished? && (d in s.requests ==> d in s.tickets)
  {
    var tx := s.txs[d];
    if d !in s.requests then Put(s, d, tx.(phase := Done))
    else
      Put(s, d, tx.(phase := Settling(s.requests[d], tx.phase.result, s.tickets[d])))
        .(requests := s.requests - {d}, tickets := s.tickets - {d}, charges := Mark(s.charges, s.tickets[d], Taken))
  }

  function DoSettle(s: Limiter, d: Digest): Limiter
    requires d in s.txs && s.txs[d].phase.Settling?
  {
    var Settling(req, result, t) := s.txs[d].phase;
    var refund := Refund(req, result);
    Put(s, d, s.txs[d].(phase := Done))
      .(counters := Increment(s.counters, req.meter, AsI64(-AsI64(refund))),
        charges :=
          if t in s.charges then s.charges[t := s.charges[t].(amount := req.gasUsage - refund, state := Settled)]
          else s.charges)
  }

  function DoExpireCounter(s: Limiter, m: Meter): Limiter {
    s.(counters := s.counters - {m}, windows := s.windows[m := WindowOf(s, m) + 1])
  }

  // ---------------------------------------------------------------- runs

  predicate Pending(c: Charge) {
    c.state.Fresh? || c.state.Recorded? || c.state.Taken?
  }

  /** Nothing is waiting to be settled on this counter. */
  ghost predicate NonePending(s: Limiter, m: Meter) {
    forall t :: t in s.charges && s.charges[t].meter == m ==> !Pending(s.charges[t])
  }

  /** Counters do not overflow and do not expire under open claims. */
  ghost predicate SafeStep(s: Limiter, st: Step)
    requires Enabled(s, st)
  {
    match st
    case ClaimGas(d, _) =>
      var ctx := s.txs[d].ctx;
      ctx.budget + CounterOf(s.counters, MeterOf(s.rules[s.txs[d].phase.next], ctx)) <= MAX_I64
    case ExpireCounter(m) => NonePending(s, m)
    case _ => true
  }

  ghost predicate CanRun(s: Limiter, steps: seq<Step>)
    decreases |steps|
  {
    steps == [] || (Enabled(s, steps[0]) && SafeStep(s, steps[0]) && CanRun(Apply(s, steps[0]), steps[1..]))
  }

  ghost function Run(s: Limiter, steps: seq<Step>): Limiter
    requires CanRun(s, steps)
    decreases |steps|
  {
    if steps == [] then s else Run(Apply(s, steps[0]), steps[1..])
  }

  function Start(rules: seq<Rule>, policy: Policy): Limiter {
    Limiter(rules, policy, map[], map[], map[], map[], map[], 0, map[])
  }

  ghost predicate Reachable(s: Limiter) {
    exists steps :: CanRun(Start(s.rules, s.policy), steps) && Run(Start(s.rules, s.policy), steps) == s
  }
}
