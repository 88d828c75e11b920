/** Access rules, and what checking one transaction against them means. */
module Rules {
  import opened Coins
  import opened Operands

  type Digest = nat
  type Address = nat

  datatype AddressSet = Everyone | Single(address: Address) | Listed(addresses: seq<Address>)

  predicate Includes(v: AddressSet, a: Address) {
    match v
    case Everyone => true
    case Single(single) => single == a
    case Listed(list) => a in list
  }

  /** False for an empty list, even when everyone is included. */
  predicate IncludesAny(v: AddressSet, addresses: seq<Address>) {
    exists a :: a in addresses && Includes(v, a)
  }

  datatype Limit = Limit(window: nat, value: ValueNumber, countBy: seq<CountBy>)

  datatype Decision = Allow | Deny

  datatype Action = Always(decision: Decision) | CallHook(url: string)

  datatype Rule = Rule(
    sender: AddressSet,
    gasBudget: Option<ValueNumber>,
    movePackages: Option<AddressSet>,
    ptbCommands: Option<ValueNumber>,
    gasUsage: Option<Limit>,
    rego: Option<string>,
    action: Action)

  datatype Policy = Disabled | DenyAll | AllowAll

  datatype Context = Context(
    digest: Digest,
    sender: Address,
    budget: nat,
    packages: seq<Address>,
    ptbCommands: Option<nat>,
    headers: map<string, string>)          // values of one header, sorted and joined by commas

  /** The statistics tracker's answer to an update. An error may hide an update that was made. */
  datatype TrackerAnswer = Replied | Refused | ReplyLost

  /** What the outside says when asked about rule `i`; `None` is an error. */
  datatype Answers = Answers(rego: nat -> Option<bool>, tracker: nat -> TrackerAnswer, hook: nat -> Option<HookAnswer>)

  datatype HookAnswer = Says(decision: Decision) | NoDecision

  // ---------------------------------------------------------------- the predicates of a rule

  predicate SenderMatches(r: Rule, ctx: Context) {
    Includes(r.sender, ctx.sender)
  }

  predicate BudgetMatches(r: Rule, ctx: Context) {
    r.gasBudget.None? || Matches(r.gasBudget.value, ctx.budget)
  }

  predicate PackagesMatch(r: Rule, ctx: Context) {
    r.movePackages.None? || IncludesAny(r.movePackages.value, ctx.packages)
  }

  predicate CommandsMatch(r: Rule, ctx: Context) {
    r.ptbCommands.None? || ctx.ptbCommands.None? || Matches(r.ptbCommands.value, ctx.ptbCommands.value)
  }

  predicate RegoMatches(r: Rule, rego: Option<bool>) {
    r.rego.None? || rego == Some(true)
  }

  predicate FourMatch(r: Rule, ctx: Context) {
    SenderMatches(r, ctx) && BudgetMatches(r, ctx) && PackagesMatch(r, ctx) && CommandsMatch(r, ctx)
  }

  /** Everything but the gas usage. */
  predicate PartlyMatches(r: Rule, ctx: Context, rego: Option<bool>) {
    FourMatch(r, ctx) && RegoMatches(r, rego)
  }

  // ---------------------------------------------------------------- counters

  /**
   * What a counter's key is the hash of: the rule, in which the sender's own address takes the place of
   * the rule's address list when counting by sender, and the counted headers.
   */
  datatype Meter = Meter(rule: Rule, counted: map<CountBy, string>)

  function HeaderOf(ctx: Context, name: string): string {
    if name in ctx.headers then ctx.headers[name] else ""
  }

  function MeterBy(r: Rule, ctx: Context, countBy: seq<CountBy>): Meter {
    Meter(if SenderAddress in countBy then r.(sender := Single(ctx.sender)) else r,
          map c | c in countBy && c.HttpHeader? :: HeaderOf(ctx, c.name))
  }

  function MeterOf(r: Rule, ctx: Context): Meter
    requires r.gasUsage.Some?
  {
    MeterBy(r, ctx, r.gasUsage.value.countBy)
  }

  const MAX_I64: int := 0x7FFF_FFFF_FFFF_FFFF
  const TWO_64: int := 0x1_0000_0000_0000_0000

  /** `as i64`. */
  function AsI64(n: int): int {
    var m := n % TWO_64;
    if m <= MAX_I64 then m else m - TWO_64
  }

  /** `as u64`. */
  function AsU64(n: int): nat {
    n % TWO_64
  }

  type Counters = map<Meter, int>

  function CounterOf(counters: Counters, m: Meter): int {
    if m in counters then counters[m] else 0
  }

  /** `aggr_increment_sum`: out of range in either direction, the counter is set to the maximum. */
  function Increment(counters: Counters, m: Meter, amount: int): Counters {
    var sum := CounterOf(counters, m) + amount;
    counters[m := if -MAX_I64 - 1 <= sum <= MAX_I64 then sum else MAX_I64]
  }

  datatype Request = Request(meter: Meter, gasUsage: nat)

  datatype World = World(counters: Counters, requests: map<Digest, seq<Request>>)

  /** The gas limit of a rule is met by the counter after the claim. */
  predicate UsageMatches(r: Rule, total: int) {
    r.gasUsage.None? || Matches(r.gasUsage.value.value, AsU64(total))
  }

  // ---------------------------------------------------------------- checking

  datatype Outcome = Pass | Decided(decision: Decision) | Failed

  /** What a fully matched rule leads to. */
  function Acted(action: Action, answer: Option<HookAnswer>): Outcome {
    match action
    case Always(decision) => Decided(decision)
    case CallHook(_) =>
      match answer
      case None => Failed
      case Some(Says(decision)) => Decided(decision)
      case Some(NoDecision) => Pass
  }

  /** A limited rule whose other predicates hold: the budget is claimed before anything is decided. */
  predicate Claims(r: Rule, ctx: Context, rego: Option<bool>, tracker: TrackerAnswer) {
    r.gasUsage.Some? && PartlyMatches(r, ctx, rego) && !tracker.Refused?
  }

  /** The claim is remembered for settlement only if the tracker's reply arrives. */
  predicate Remembers(r: Rule, ctx: Context, rego: Option<bool>, tracker: TrackerAnswer) {
    Claims(r, ctx, rego, tracker) && tracker.Replied?
  }

  function Raised(w: World, r: Rule, ctx: Context): World
    requires r.gasUsage.Some?
  {
    w.(counters := Increment(w.counters, MeterOf(r, ctx), AsI64(ctx.budget)))
  }

  function Claim(w: World, r: Rule, ctx: Context): World
    requires r.gasUsage.Some?
  {
    Raised(w, r, ctx).(requests := w.requests[ctx.digest := [Request(MeterOf(r, ctx), ctx.budget)]])
  }

  function AfterRule(w: World, r: Rule, ctx: Context, i: nat, ans: Answers): World {
    if Remembers(r, ctx, ans.rego(i), ans.tracker(i)) then Claim(w, r, ctx)
    else if Claims(r, ctx, ans.rego(i), ans.tracker(i)) then Raised(w, r, ctx)
    else w
  }

  function RuleOutcome(w: World, r: Rule, ctx: Context, i: nat, ans: Answers): Outcome {
    if !FourMatch(r, ctx) then Pass
    else if r.rego.Some? && ans.rego(i).None? then Failed
    else if !RegoMatches(r, ans.rego(i)) then Pass
    else if r.gasUsage.Some? && !ans.tracker(i).Replied? then Failed
    else if r.gasUsage.Some? && !UsageMatches(r, CounterOf(Claim(w, r, ctx).counters, MeterOf(r, ctx))) then Pass
    else Acted(r.action, ans.hook(i))
  }

  /** The simple form: one rule after the other until one does not pass. */
  function Check(w: World, rules: seq<Rule>, policy: Policy, ctx: Context, i: nat, ans: Answers): (Outcome, World)
    requires i <= |rules|
    decreases |rules| - i
  {
    if i == |rules| then (Decided(if policy == DenyAll then Deny else Allow), w)
    else
      var after := AfterRule(w, rules[i], ctx, i, ans);
      match RuleOutcome(w, rules[i], ctx, i, ans)
      case Pass => Check(after, rules, policy, ctx, i + 1, ans)
      case o => (o, after)
  }

  function CheckAccess(w: World, rules: seq<Rule>, policy: Policy, ctx: Context, ans: Answers): (Outcome, World) {
    if policy == Disabled then (Decided(Allow), w) else Check(w, rules, policy, ctx, 0, ans)
  }

  /** Settling: the claim is lowered to what was used, or to nothing. */
  function Refund(req: Request, used: Option<nat>): nat {
    match used
    case None => req.gasUsage
    case Some(u) => if u <= req.gasUsage then req.gasUsage - u else 0
  }

  function Lowered(counters: Counters, req: Request, used: Option<nat>): Counters {
    Increment(counters, req.meter, AsI64(-AsI64(Refund(req, used))))
  }

  /** One request after the other; the first error ends it. */
  function SettleFrom(counters: Counters, requests: seq<Request>, i: nat, used: Option<nat>,
      settle: nat -> TrackerAnswer): Counters
    requires i <= |requests|
    decreases |requests| - i
  {
    if i == |requests| then counters
    else
      match settle(i)
      case Refused => counters
      case ReplyLost => Lowered(counters, requests[i], used)
      case Replied => SettleFrom(Lowered(counters, requests[i], used), requests, i + 1, used, settle)
  }

  /** The requests are taken out first, whatever becomes of them. */
  function Confirm(w: World, digest: Digest, used: Option<nat>, settle: nat -> TrackerAnswer): World {
    if digest !in w.requests then w
    else World(SettleFrom(w.counters, w.requests[digest], 0, used, settle), w.requests - {digest})
  }

  // ---------------------------------------------------------------- which rule decides

  /** All six predicates, as one conjunction. */
  predicate SixMatch(w: World, r: Rule, ctx: Context, rego: Option<bool>) {
    && SenderMatches(r, ctx) && BudgetMatches(r, ctx) && PackagesMatch(r, ctx) && CommandsMatch(r, ctx)
    && RegoMatches(r, rego)
    && (r.gasUsage.Some? ==> UsageMatches(r, CounterOf(Claim(w, r, ctx).counters, MeterOf(r, ctx))))
  }

  /** The world rule `j` is checked in. */
  function WorldAt(w: World, rules: seq<Rule>, ctx: Context, j: nat, ans: Answers): World
    requires j <= |rules|
  {
    if j == 0 then w else AfterRule(WorldAt(w, rules, ctx, j - 1, ans), rules[j - 1], ctx, j - 1, ans)
  }

  function OutcomeAt(w: World, rules: seq<Rule>, ctx: Context, j: nat, ans: Answers): Outcome
    requires j < |rules|
  {
    RuleOutcome(WorldAt(w, rules, ctx, j, ans), rules[j], ctx, j, ans)
  }

  lemma {:induction false} CheckFrom(w: World, rules: seq<Rule>, policy: Policy, ctx: Context, i: nat, k: nat,
      ans: Answers)
    requires i <= k <= |rules|
    requires forall j :: i <= j < k ==> OutcomeAt(w, rules, ctx, j, ans) == Pass
    requires k < |rules| ==> OutcomeAt(w, rules, ctx, k, ans) != Pass
    ensures Check(WorldAt(w, rules, ctx, i, ans), rules, policy, ctx, i, ans) ==
      if k < |rules| then (OutcomeAt(w, rules, ctx, k, ans), WorldAt(w, rules, ctx, k + 1, ans))
      else (Decided(if policy == DenyAll then Deny else Allow), WorldAt(w, rules, ctx, k, ans))
    decreases |rules| - i
  {
    var here := WorldAt(w, rules, ctx, i, ans);
    if i < k {
      assert OutcomeAt(w, rules, ctx, i, ans) == Pass;
      assert Check(here, rules, policy, ctx, i, ans) ==
        Check(WorldAt(w, rules, ctx, i + 1, ans), rules, policy, ctx, i + 1, ans);
      CheckFrom(w, rules, policy, ctx, i + 1, k, ans);
    } else if k < |rules| {
      assert Check(here, rules, policy, ctx, k, ans) ==
        (OutcomeAt(w, rules, ctx, k, ans), AfterRule(here, rules[k], ctx, k, ans));
    }
  }

  /**
   * The answer is that of the first rule that does not pass, or else the default policy; and a rule
   * decides exactly when its six predicates hold and its action says so.
   */
  lemma FirstRuleDecides(w: World, rules: seq<Rule>, policy: Policy, ctx: Context, ans: Answers, k: nat)
    requires policy != Disabled && k <= |rules|
    requires forall j :: 0 <= j < k ==> OutcomeAt(w, rules, ctx, j, ans) == Pass
    requires k < |rules| ==> OutcomeAt(w, rules, ctx, k, ans) != Pass
    ensures CheckAccess(w, rules, policy, ctx, ans).0 ==
      if k < |rules| then OutcomeAt(w, rules, ctx, k, ans) else Decided(if policy == DenyAll then Deny else Allow)
    ensures forall d, j :: 0 <= j < |rules| && OutcomeAt(w, rules, ctx, j, ans) == Decided(d) ==>
      && SixMatch(WorldAt(w, rules, ctx, j, ans), rules[j], ctx, ans.rego(j))
      && (rules[j].action == Always(d) || (rules[j].action.CallHook? && ans.hook(j) == Some(Says(d))))
    ensures forall j :: (0 <= j < |rules| && SixMatch(WorldAt(w, rules, ctx, j, ans), rules[j], ctx,
      ans.rego(j)) && ans.tracker(j).Replied?) ==>
      match rules[j].action
      case Always(d) => OutcomeAt(w, rules, ctx, j, ans) == Decided(d)
      case CallHook(_) =>
        && (ans.hook(j) == None ==> OutcomeAt(w, rules, ctx, j, ans) == Failed)
        && (ans.hook(j) == Some(NoDecision) ==> OutcomeAt(w, rules, ctx, j, ans) == Pass)
        && forall d :: ans.hook(j) == Some(Says(d)) ==> OutcomeAt(w, rules, ctx, j, ans) == Decided(d)
  {
    hide WorldAt, Claim, FourMatch, UsageMatches, MeterOf;
    CheckFrom(w, rules, policy, ctx, 0, k, ans);
    assert WorldAt(w, rules, ctx, 0, ans) == w by { WorldAtStart(w, rules, ctx, ans); }
    forall j | 0 <= j < |rules| ensures FourMatch(rules[j], ctx) <==>
      SenderMatches(rules[j], ctx) && BudgetMatches(rules[j], ctx) && PackagesMatch(rules[j], ctx)
      && CommandsMatch(rules[j], ctx)
    {
      FourMeans(rules[j], ctx);
    }
  }

  lemma WorldAtStart(w: World, rules: seq<Rule>, ctx: Context, ans: Answers)
    ensures WorldAt(w, rules, ctx, 0, ans) == w
  {
  }

  lemma FourMeans(r: Rule, ctx: Context)
    ensures FourMatch(r, ctx) <==>
      SenderMatches(r, ctx) && BudgetMatches(r, ctx) && PackagesMatch(r, ctx) && CommandsMatch(r, ctx)
  {
  }

  // ---------------------------------------------------------------- what one transaction leaves behind

  predicate ClaimsAt(rules: seq<Rule>, ctx: Context, j: nat, ans: Answers)
    requires j < |rules|
  {
    Claims(rules[j], ctx, ans.rego(j), ans.tracker(j))
  }

  /** Rule `j` claims from this counter. */
  predicate ClaimsFrom(rules: seq<Rule>, ctx: Context, j: nat, ans: Answers, m: Meter)
    requires j < |rules|
  {
    ClaimsAt(rules, ctx, j, ans) && MeterOf(rules[j], ctx) == m
  }

  /** What the first `n` rules claim from a counter. */
  function Claimed(rules: seq<Rule>, ctx: Context, n: nat, ans: Answers, m: Meter): nat
    requires n <= |rules|
  {
    if n == 0 then 0
    else Claimed(rules, ctx, n - 1, ans, m) + if ClaimsFrom(rules, ctx, n - 1, ans, m) then ctx.budget else 0
  }

  /** The last of the first `n` rules whose claim is remembered. */
  function LastClaim(rules: seq<Rule>, ctx: Context, n: nat, ans: Answers): (r: Option<nat>)
    requires n <= |rules|
    ensures r.Some? ==> r.value < n && rules[r.value].gasUsage.Some? && ClaimsAt(rules, ctx, r.value, ans)
  {
    if n == 0 then None
    else if Remembers(rules[n - 1], ctx, ans.rego(n - 1), ans.tracker(n - 1)) then Some(n - 1)
    else LastClaim(rules, ctx, n - 1, ans)
  }

  /** Neither the casts nor the counters overflow. */
  ghost predicate InRange(w: World, rules: seq<Rule>, ctx: Context, ans: Answers) {
    && 0 <= ctx.budget <= MAX_I64
    && forall m: Meter :: 0 <= CounterOf(w.counters, m) && CounterOf(w.counters, m) + Claimed(rules, ctx, |rules|, ans,
      m) <= MAX_I64
  }

  lemma {:induction false} ClaimedMono(rules: seq<Rule>, ctx: Context, n: nat, ans: Answers, m: Meter)
    requires n <= |rules|
    ensures Claimed(rules, ctx, n, ans, m) <= Claimed(rules, ctx, |rules|, ans, m)
    decreases |rules| - n
  {
    hide ClaimsFrom;
    if n < |rules| {
      ClaimedMono(rules, ctx, n + 1, ans, m);
    }
  }

  lemma {:induction false} ClaimsAdd(w: World, rules: seq<Rule>, ctx: Context, n: nat, ans: Answers, m: Meter)
    requires InRange(w, rules, ctx, ans) && n <= |rules|
    ensures CounterOf(WorldAt(w, rules, ctx, n, ans).counters, m) ==
      CounterOf(w.counters, m) + Claimed(rules, ctx, n, ans, m)
  {
    hide Claims, MeterOf, AfterRule, InRange;
    if n > 0 {
      ClaimsAdd(w, rules, ctx, n - 1, ans, m);
      ClaimedMono(rules, ctx, n, ans, m);
      ClaimFits(w, rules, ctx, ans, m);
      AfterOne(WorldAt(w, rules, ctx, n - 1, ans), rules, ctx, n - 1, ans, m);
    }
  }

  lemma ClaimFits(w: World, rules: seq<Rule>, ctx: Context, ans: Answers, m: Meter)
    requires InRange(w, rules, ctx, ans)
    ensures ctx.budget <= MAX_I64 && 0 <= CounterOf(w.counters, m)
    ensures CounterOf(w.counters, m) + Claimed(rules, ctx, |rules|, ans, m) <= MAX_I64
  {
  }

  lemma AfterOne(w: World, rules: seq<Rule>, ctx: Context, j: nat, ans: Answers, m: Meter)
    requires j < |rules| && ctx.budget <= MAX_I64 && 0 <= CounterOf(w.counters, m)
    requires CounterOf(w.counters, m) + (if ClaimsFrom(rules, ctx, j, ans, m) then ctx.budget else 0) <= MAX_I64
    ensures CounterOf(AfterRule(w, rules[j], ctx, j, ans).counters, m) ==
      CounterOf(w.counters, m) + if ClaimsFrom(rules, ctx, j, ans, m) then ctx.budget else 0
  {
    hide PartlyMatches, MeterOf;
  }

  lemma {:induction false} LastRequest(w: World, rules: seq<Rule>, ctx: Context, n: nat, ans: Answers)
    requires n <= |rules|
    ensures WorldAt(w, rules, ctx, n, ans).requests ==
      match LastClaim(rules, ctx, n, ans)
      case None => w.requests
      case Some(j) => w.requests[ctx.digest := [Request(MeterOf(rules[j], ctx), ctx.budget)]]
  {
    hide Claims, MeterOf, Increment;
    if n > 0 {
      LastRequest(w, rules, ctx, n - 1, ans);
    }
  }

  /** What is given back to a counter at settlement: the last remembered claim, if the tracker takes it. */
  function GivenBack(rules: seq<Rule>, ctx: Context, n: nat, ans: Answers, used: Option<nat>, settle: TrackerAnswer,
      m: Meter): nat
    requires n <= |rules|
  {
    var claim := LastClaim(rules, ctx, n, ans);
    if claim.Some? && MeterOf(rules[claim.value], ctx) == m && !settle.Refused? then Refund(Request(m, ctx.budget),
      used)
    else 0
  }

  /** Settling what the first `n` rules claimed: only the last remembered claim is lowered. */
  lemma SettledNet(w: World, rules: seq<Rule>, ctx: Context, ans: Answers, n: nat, used: Option<nat>,
      settle: nat -> TrackerAnswer, m: Meter)
    requires InRange(w, rules, ctx, ans) && ctx.digest !in w.requests && n <= |rules|
    ensures
      var t := Confirm(WorldAt(w, rules, ctx, n, ans), ctx.digest, used, settle);
      && t.requests == w.requests
      && CounterOf(t.counters, m) ==
           CounterOf(w.counters, m) + Claimed(rules, ctx, n, ans, m) - GivenBack(rules, ctx, n, ans, used, settle(0), m)
  {
    hide Claims, MeterOf, InRange, AsI64, Claimed, LastClaim, WorldAt;
    ClaimsAdd(w, rules, ctx, n, ans, m);
    LastRequest(w, rules, ctx, n, ans);
    var before := WorldAt(w, rules, ctx, n, ans);
    var claim := LastClaim(rules, ctx, n, ans);
    if claim.Some? {
      var own := MeterOf(rules[claim.value], ctx);
      var requests := [Request(own, ctx.budget)];
      ClaimsAdd(w, rules, ctx, n, ans, own);
      ClaimCounts(rules, ctx, n, ans, claim.value);
      ClaimedMono(rules, ctx, n, ans, own);
      RefundFits(w, rules, ctx, ans, own, used);
      assert before.requests[ctx.digest] == requests;
      var refund: int := Refund(requests[0], used);
      assert SettleFrom(before.counters, requests, 0, used, settle) ==
        if settle(0).Refused? then before.counters else Increment(before.counters, own, -refund);
      assert w.requests[ctx.digest := requests] - {ctx.digest} == w.requests;
    }
  }

  lemma {:induction false} ClaimCounts(rules: seq<Rule>, ctx: Context, n: nat, ans: Answers, j: nat)
    requires j < n <= |rules| && ClaimsAt(rules, ctx, j, ans)
    ensures ctx.budget <= Claimed(rules, ctx, n, ans, MeterOf(rules[j], ctx))
  {
    hide Claims, MeterOf;
    if j < n - 1 {
      ClaimCounts(rules, ctx, n - 1, ans, j);
    }
  }

  lemma RefundFits(w: World, rules: seq<Rule>, ctx: Context, ans: Answers, m: Meter, used: Option<nat>)
    requires InRange(w, rules, ctx, ans)
    ensures
      var refund: int := Refund(Request(m, ctx.budget), used);
      refund <= ctx.budget && AsI64(-AsI64(refund)) == -refund
    ensures 0 <= CounterOf(w.counters, m) && CounterOf(w.counters, m) + Claimed(rules, ctx, |rules|, ans, m) <= MAX_I64
  {
  }

  /** How many of the first `n` rules claim. */
  function ClaimCount(rules: seq<Rule>, ctx: Context, n: nat, ans: Answers): nat
    requires n <= |rules|
  {
    if n == 0 then 0
    else ClaimCount(rules, ctx, n - 1, ans) + if ClaimsAt(rules, ctx, n - 1, ans) then 1 else 0
  }

  /** The part of the budget that was not used. */
  function Unused(ctx: Context, used: Option<nat>): (u: nat)
    ensures u <= ctx.budget
  {
    match used
    case None => ctx.budget
    case Some(u) => if u <= ctx.budget then ctx.budget - u else 0
  }

  /** What a transaction should leave on a counter: what it was charged, for every claim it made there. */
  function ShouldLeave(rules: seq<Rule>, ctx: Context, n: nat, ans: Answers, charged: nat, m: Meter): nat
    requires n <= |rules|
  {
    if n == 0 then 0
    else ShouldLeave(rules, ctx, n - 1, ans, charged, m) + if ClaimsFrom(rules, ctx, n - 1, ans, m) then charged else 0
  }

  /** What should be given back to a counter. */
  function Surplus(rules: seq<Rule>, ctx: Context, n: nat, ans: Answers, charged: nat, m: Meter): nat
    requires n <= |rules| && charged <= ctx.budget
  {
    if n == 0 then 0
    else
      Surplus(rules, ctx, n - 1, ans, charged, m)
      + if ClaimsFrom(rules, ctx, n - 1, ans, m) then ctx.budget - charged else 0
  }

  lemma {:induction false} SurplusIs(rules: seq<Rule>, ctx: Context, n: nat, ans: Answers, charged: nat, m: Meter)
    requires n <= |rules| && charged <= ctx.budget
    ensures Claimed(rules, ctx, n, ans, m) ==
      ShouldLeave(rules, ctx, n, ans, charged, m) + Surplus(rules, ctx, n, ans, charged, m)
    ensures charged == ctx.budget || ClaimCount(rules, ctx, n, ans) == 0 ==>
      Surplus(rules, ctx, n, ans, charged, m) == 0
  {
    hide Claims, MeterOf;
    if n > 0 {
      SurplusIs(rules, ctx, n - 1, ans, charged, m);
    }
  }

  /** All claims are on this counter. */
  ghost predicate AllFrom(rules: seq<Rule>, ctx: Context, n: nat, ans: Answers, m: Meter)
    requires n <= |rules|
  {
    forall j :: 0 <= j < n && ClaimsAt(rules, ctx, j, ans) ==> ClaimsFrom(rules, ctx, j, ans, m)
  }

  lemma {:induction false} SurplusOfAll(rules: seq<Rule>, ctx: Context, n: nat, ans: Answers, charged: nat, m: Meter)
    requires n <= |rules| && charged <= ctx.budget && AllFrom(rules, ctx, n, ans, m)
    ensures Surplus(rules, ctx, n, ans, charged, m) == (ctx.budget - charged) * ClaimCount(rules, ctx, n, ans)
  {
    hide Claims, MeterOf;
    if n > 0 {
      SurplusOfAll(rules, ctx, n - 1, ans, charged, m);
      var surplus, count := ctx.budget - charged, ClaimCount(rules, ctx, n - 1, ans);
      assert surplus * (count + 1) == surplus * count + surplus;
      assert ClaimsFrom(rules, ctx, n - 1, ans, m) ==> ClaimsAt(rules, ctx, n - 1, ans);
    }
  }

  lemma {:induction false} SurplusOfNone(rules: seq<Rule>, ctx: Context, n: nat, ans: Answers, charged: nat, m: Meter,
      other: Meter)
    requires n <= |rules| && charged <= ctx.budget && AllFrom(rules, ctx, n, ans, m) && other != m
    ensures Surplus(rules, ctx, n, ans, charged, other) == 0
  {
    hide Claims, MeterOf;
    if n > 0 {
      SurplusOfNone(rules, ctx, n - 1, ans, charged, m, other);
    }
  }

  lemma {:induction false} SomeClaims(rules: seq<Rule>, ctx: Context, n: nat, ans: Answers, j: nat)
    requires j < n <= |rules| && ClaimsAt(rules, ctx, j, ans)
    ensures 0 < ClaimCount(rules, ctx, n, ans)
  {
    hide Claims;
    if j < n - 1 {
      SomeClaims(rules, ctx, n - 1, ans, j);
    }
  }

  lemma {:induction false} ClaimExists(rules: seq<Rule>, ctx: Context, n: nat, ans: Answers) returns (i: nat)
    requires n <= |rules| && 0 < ClaimCount(rules, ctx, n, ans)
    ensures i < n && ClaimsAt(rules, ctx, i, ans) && rules[i].gasUsage.Some?
  {
    hide PartlyMatches;
    if ClaimsAt(rules, ctx, n - 1, ans) {
      i := n - 1;
    } else {
      i := ClaimExists(rules, ctx, n - 1, ans);
    }
  }

  lemma {:induction false} SurplusAtLeast(rules: seq<Rule>, ctx: Context, n: nat, ans: Answers, charged: nat, i: nat)
    requires i < n <= |rules| && ClaimsAt(rules, ctx, i, ans) && charged <= ctx.budget
    ensures ctx.budget - charged <= Surplus(rules, ctx, n, ans, charged, MeterOf(rules[i], ctx))
  {
    hide Claims, MeterOf;
    if i < n - 1 {
      SurplusAtLeast(rules, ctx, n - 1, ans, charged, i);
    }
  }

  /** Every claim is settled: none was made, or one, which was remembered and then lowered. */
  predicate AllSettled(rules: seq<Rule>, ctx: Context, n: nat, ans: Answers, settle: TrackerAnswer)
    requires n <= |rules|
  {
    ClaimCount(rules, ctx, n, ans) == if LastClaim(rules, ctx, n, ans).Some? && !settle.Refused? then 1 else 0
  }

  /** The counter that the settlement lowers, and by how much. */
  function Returned(rules: seq<Rule>, ctx: Context, n: nat, ans: Answers, reported: Option<nat>,
      settle: TrackerAnswer): nat
    requires n <= |rules|
  {
    if LastClaim(rules, ctx, n, ans).Some? && !settle.Refused? then Unused(ctx, reported) else 0
  }

  /**
   * One settlement gives back what all claims should: either nothing is left over, or all claims are on one
   * counter and their surplus is together what is given back.
   */
  ghost predicate Balanced(
    rules: seq<Rule>, ctx: Context, n: nat, ans: Answers, reported: Option<nat>, charged: nat, settle: TrackerAnswer)
    requires n <= |rules| && charged <= ctx.budget
  {
    && (ctx.budget - charged) * ClaimCount(rules, ctx, n, ans) == Returned(rules, ctx, n, ans, reported, settle)
    && (charged == ctx.budget || exists m :: AllFrom(rules, ctx, n, ans, m))
  }

  /** If the execution reported what it was charged, that is: all was used, or every claim is settled. */
  lemma BalancedAsReported(
    rules: seq<Rule>, ctx: Context, n: nat, ans: Answers, reported: Option<nat>, charged: nat, settle: TrackerAnswer)
    requires n <= |rules| && charged <= ctx.budget && Unused(ctx, reported) == ctx.budget - charged
    ensures Balanced(rules, ctx, n, ans, reported, charged, settle) <==>
      charged == ctx.budget || AllSettled(rules, ctx, n, ans, settle)
  {
    hide Claims, MeterOf, Unused, LastClaim, ClaimsFrom;
    var count, surplus := ClaimCount(rules, ctx, n, ans), ctx.budget - charged;
    Cancel(surplus, count);
    if 0 < surplus && count == 0 {
      NoneFrom(rules, ctx, n, ans, MeterBy(Rule(Everyone, None, None, None, None, None, Always(Deny)), ctx, []));
    } else if 0 < surplus && count == 1 {
      var i := ClaimExists(rules, ctx, n, ans);
      OneFrom(rules, ctx, n, ans, i);
    }
  }

  lemma Cancel(a: nat, k: nat)
    ensures a * k == a <==> a == 0 || k == 1
    ensures a * k == 0 <==> a == 0 || k == 0
  {
    if 2 <= k && 0 < a {
      assert a * 2 <= a * k;
    }
  }

  lemma {:induction false} NoneFrom(rules: seq<Rule>, ctx: Context, n: nat, ans: Answers, m: Meter)
    requires n <= |rules| && ClaimCount(rules, ctx, n, ans) == 0
    ensures AllFrom(rules, ctx, n, ans, m)
  {
    hide Claims, MeterOf, ClaimsFrom;
    forall j | 0 <= j < n ensures !ClaimsAt(rules, ctx, j, ans) {
      if ClaimsAt(rules, ctx, j, ans) {
        SomeClaims(rules, ctx, n, ans, j);
        assert false;
      }
    }
  }

  lemma {:induction false} OneFrom(rules: seq<Rule>, ctx: Context, n: nat, ans: Answers, i: nat)
    requires i < n <= |rules| && ClaimsAt(rules, ctx, i, ans) && rules[i].gasUsage.Some?
    requires ClaimCount(rules, ctx, n, ans) == 1
    ensures AllFrom(rules, ctx, n, ans, MeterOf(rules[i], ctx))
  {
    hide Claims, MeterOf;
    if i == n - 1 {
      NoneFrom(rules, ctx, n - 1, ans, MeterOf(rules[i], ctx));
    } else {
      SomeClaims(rules, ctx, n - 1, ans, i);
      OneFrom(rules, ctx, n - 1, ans, i);
    }
  }

  /** What is given back is what should be, on all counters, exactly if the books are balanced. */
  lemma GivenBackExact(
    rules: seq<Rule>, ctx: Context, n: nat, ans: Answers, reported: Option<nat>, charged: nat, settle: TrackerAnswer)
    requires n <= |rules| && charged <= ctx.budget && ctx.budget - charged <= Unused(ctx, reported)
    ensures Balanced(rules, ctx, n, ans, reported, charged, settle) ==>
      forall m :: GivenBack(rules, ctx, n, ans, reported, settle, m) == Surplus(rules, ctx, n, ans, charged, m)
    ensures !Balanced(rules, ctx, n, ans, reported, charged, settle) ==>
      exists m :: GivenBack(rules, ctx, n, ans, reported, settle, m) != Surplus(rules, ctx, n, ans, charged, m)
  {
    hide ClaimsAt, MeterOf, Surplus, ClaimCount, LastClaim, ClaimsFrom, AllFrom;
    var claim := LastClaim(rules, ctx, n, ans);
    Cancel(ctx.budget - charged, ClaimCount(rules, ctx, n, ans));
    if Balanced(rules, ctx, n, ans, reported, charged, settle) {
      forall m ensures GivenBack(rules, ctx, n, ans, reported, settle, m) == Surplus(rules, ctx, n, ans, charged, m) {
        SurplusIs(rules, ctx, n, ans, charged, m);
        if charged < ctx.budget && claim.Some? && !settle.Refused? {
          var own :| AllFrom(rules, ctx, n, ans, own);
          OwnFrom(rules, ctx, n, ans, claim.value, own);
          SurplusOfAll(rules, ctx, n, ans, charged, own);
          if m != own {
            SurplusOfNone(rules, ctx, n, ans, charged, own, m);
          }
        }
      }
    } else {
      Unbalanced(rules, ctx, n, ans, reported, charged, settle);
    }
  }

  lemma OwnFrom(rules: seq<Rule>, ctx: Context, n: nat, ans: Answers, j: nat, m: Meter)
    requires j < n <= |rules| && AllFrom(rules, ctx, n, ans, m) && ClaimsAt(rules, ctx, j, ans)
    requires rules[j].gasUsage.Some?
    ensures MeterOf(rules[j], ctx) == m
  {
    assert ClaimsFrom(rules, ctx, j, ans, m);
  }

  lemma Unbalanced(
    rules: seq<Rule>, ctx: Context, n: nat, ans: Answers, reported: Option<nat>, charged: nat, settle: TrackerAnswer)
    requires n <= |rules| && charged <= ctx.budget && ctx.budget - charged <= Unused(ctx, reported)
    requires !Balanced(rules, ctx, n, ans, reported, charged, settle)
    ensures exists m :: GivenBack(rules, ctx, n, ans, reported, settle, m) != Surplus(rules, ctx, n, ans, charged, m)
  {
    hide ClaimsAt, MeterOf, Surplus, ClaimCount, LastClaim, ClaimsFrom, AllFrom;
    var claim := LastClaim(rules, ctx, n, ans);
    var surplus, count := ctx.budget - charged, ClaimCount(rules, ctx, n, ans);
    Cancel(surplus, count);
    if claim.Some? && !settle.Refused? {
      var own := MeterOf(rules[claim.value], ctx);
      if AllFrom(rules, ctx, n, ans, own) {
        SurplusOfAll(rules, ctx, n, ans, charged, own);
        assert GivenBack(rules, ctx, n, ans, reported, settle, own) != Surplus(rules, ctx, n, ans, charged, own);
      } else if surplus == 0 {
        SurplusIs(rules, ctx, n, ans, charged, own);
        assert GivenBack(rules, ctx, n, ans, reported, settle, own) != Surplus(rules, ctx, n, ans, charged, own);
      } else {
        var i := ElsewhereClaim(rules, ctx, n, ans, own);
        SurplusAtLeast(rules, ctx, n, ans, charged, i);
        var m := MeterOf(rules[i], ctx);
        assert GivenBack(rules, ctx, n, ans, reported, settle, m) != Surplus(rules, ctx, n, ans, charged, m);
      }
    } else {
      if count == 0 {
        NoneFrom(rules, ctx, n, ans, MeterBy(Rule(Everyone, None, None, None, None, None, Always(Deny)), ctx, []));
        assert false;
      }
      var i := ClaimExists(rules, ctx, n, ans);
      SurplusAtLeast(rules, ctx, n, ans, charged, i);
      var m := MeterOf(rules[i], ctx);
      assert GivenBack(rules, ctx, n, ans, reported, settle, m) != Surplus(rules, ctx, n, ans, charged, m);
    }
  }

  lemma ElsewhereClaim(rules: seq<Rule>, ctx: Context, n: nat, ans: Answers, m: Meter) returns (i: nat)
    requires n <= |rules| && !AllFrom(rules, ctx, n, ans, m)
    ensures i < n && ClaimsAt(rules, ctx, i, ans) && rules[i].gasUsage.Some? && MeterOf(rules[i], ctx) != m
  {
    hide MeterOf, PartlyMatches;
    i :| 0 <= i < n && ClaimsAt(rules, ctx, i, ans) && !ClaimsFrom(rules, ctx, i, ans, m);
  }

  /**
   * One transaction from check to settlement, with `k` the first rule that does not pass: no request stays
   * behind, and every counter is up by exactly what was charged for each claim on it if and only if the books
   * balance. With an execution that reports its charge that is: the whole budget was used, or every claim is
   * settled. A second claim overwrites the request of the first, whose unused part then stays on its counter;
   * so does that of a claim whose reply is lost or whose settlement the tracker refuses. A charge behind an
   * error makes the counter of a settled claim fall short by just that charge.
   */
  lemma TransactionNet(
    w: World, rules: seq<Rule>, policy: Policy, ctx: Context, ans: Answers, k: nat, reported: Option<nat>, charged: nat,
    settle: nat -> TrackerAnswer)
    requires policy != Disabled && k <= |rules|
    requires forall j :: 0 <= j < k ==> OutcomeAt(w, rules, ctx, j, ans) == Pass
    requires k < |rules| ==> OutcomeAt(w, rules, ctx, k, ans) != Pass
    requires InRange(w, rules, ctx, ans) && ctx.digest !in w.requests
    requires charged <= ctx.budget && (reported.Some? ==> reported.value == charged)
    ensures
      var n := if k < |rules| then k + 1 else k;
      var t := Confirm(CheckAccess(w, rules, policy, ctx, ans).1, ctx.digest, reported, settle);
      && t.requests == w.requests
      && (AsCharged(w, t, rules, ctx, n, ans, charged) <==> Balanced(rules, ctx, n, ans, reported, charged, settle(0)))
      && (reported.Some? || charged == 0 ==>
          (AsCharged(w, t, rules, ctx, n, ans, charged) <==> charged == ctx.budget || AllSettled(rules, ctx, n, ans,
            settle(0))))
      && (reported.None? && LastClaim(rules, ctx, n, ans).Some? && AllSettled(rules, ctx, n, ans, settle(0)) ==>
          var m := MeterOf(rules[LastClaim(rules, ctx, n, ans).value], ctx);
          CounterOf(t.counters, m) == CounterOf(w.counters, m) + ShouldLeave(rules, ctx, n, ans, charged, m) - charged)
  {
    hide Confirm, InRange, OutcomeAt, Claimed, WorldAt, Surplus, ShouldLeave, GivenBack, Balanced, AllSettled,
      LastClaim, MeterOf;
    var n := if k < |rules| then k + 1 else k;
    WorldAtStart(w, rules, ctx, ans);
    CheckFrom(w, rules, policy, ctx, 0, k, ans);
    var t := Confirm(CheckAccess(w, rules, policy, ctx, ans).1, ctx.digest, reported, settle);
    SettledNet(w, rules, ctx, ans, n, reported, settle,
      MeterBy(Rule(Everyone, None, None, None, None, None, Always(Deny)), ctx, []));
    forall m
      ensures CounterOf(t.counters, m) - CounterOf(w.counters, m) - ShouldLeave(rules, ctx, n, ans, charged, m) ==
        Surplus(rules, ctx, n, ans, charged, m) - GivenBack(rules, ctx, n, ans, reported, settle(0), m)
    {
      SettledNet(w, rules, ctx, ans, n, reported, settle, m);
      SurplusIs(rules, ctx, n, ans, charged, m);
    }
    GivenBackExact(rules, ctx, n, ans, reported, charged, settle(0));
    if reported.Some? || charged == 0 {
      BalancedAsReported(rules, ctx, n, ans, reported, charged, settle(0));
    }
    if reported.None? && LastClaim(rules, ctx, n, ans).Some? && AllSettled(rules, ctx, n, ans, settle(0)) {
      ShortByCharge(rules, ctx, n, ans, charged, settle(0));
    }
  }

  /** Every counter is up by what was charged, for each claim on it. */
  ghost predicate AsCharged(w: World, t: World, rules: seq<Rule>, ctx: Context, n: nat, ans: Answers, charged: nat)
    requires n <= |rules|
  {
    forall m :: CounterOf(t.counters, m) == CounterOf(w.counters, m) + ShouldLeave(rules, ctx, n, ans, charged, m)
  }

  /** One claim, settled as if nothing had been charged. */
  lemma ShortByCharge(rules: seq<Rule>, ctx: Context, n: nat, ans: Answers, charged: nat, settle: TrackerAnswer)
    requires n <= |rules| && charged <= ctx.budget
    requires LastClaim(rules, ctx, n, ans).Some? && AllSettled(rules, ctx, n, ans, settle)
    ensures
      var m := MeterOf(rules[LastClaim(rules, ctx, n, ans).value], ctx);
      GivenBack(rules, ctx, n, ans, None, settle, m) == Surplus(rules, ctx, n, ans, charged, m) + charged
  {
    hide ClaimsAt, MeterOf, Surplus, ClaimCount, LastClaim;
    var j := LastClaim(rules, ctx, n, ans).value;
    SomeClaims(rules, ctx, n, ans, j);
    OneFrom(rules, ctx, n, ans, j);
    SurplusOfAll(rules, ctx, n, ans, charged, MeterOf(rules[j], ctx));
  }
}
