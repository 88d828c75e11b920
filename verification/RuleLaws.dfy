/** What rules say in plain terms: the answer to one transaction, and which transactions share a counter. */
module RuleLaws {
  import opened Coins
  import opened Numerals
  import opened Operands
  import opened Rules

  /** A rule that looks at nothing. */
  function Plain(action: Action): Rule {
    Rule(Everyone, None, None, None, None, None, action)
  }

  /** The rule's decision if its condition holds, and the default policy's otherwise. */
  function Answer(holds: bool, d: Decision, policy: Policy): Outcome {
    Decided(if holds then d else if policy == DenyAll then Deny else Allow)
  }

  // ---------------------------------------------------------------- the conditions of a rule

  /** Without rules the policy answers; disabled, the controller allows everything and counts nothing. */
  lemma PoliciesDecide(w: World, rules: seq<Rule>, ctx: Context, ans: Answers)
    ensures CheckAccess(w, [], DenyAll, ctx, ans) == (Decided(Deny), w)
    ensures CheckAccess(w, [], AllowAll, ctx, ans) == (Decided(Allow), w)
    ensures CheckAccess(w, rules, Disabled, ctx, ans) == (Decided(Allow), w)
  {
  }

  /** A rule with nothing to claim and nobody to ask: its four conditions decide. */
  lemma OneRule(w: World, r: Rule, d: Decision, policy: Policy, ctx: Context, ans: Answers)
    requires policy != Disabled && r.action == Always(d) && r.gasUsage.None? && r.rego.None?
    ensures CheckAccess(w, [r], policy, ctx, ans) == (Answer(FourMatch(r, ctx), d, policy), w)
  {
    hide FourMatch;
    assert Check(w, [r], policy, ctx, 1, ans) == (Answer(false, d, policy), w);
  }

  /** The sender: anybody, this address, or one on the list. */
  lemma SendersDecide(w: World, list: seq<Address>, a: Address, d: Decision, policy: Policy, ctx: Context, ans: Answers)
    requires policy != Disabled
    ensures
      var r := Plain(Always(d));
      && CheckAccess(w, [r], policy, ctx, ans).0 == Decided(d)
      && CheckAccess(w, [r.(sender := Single(a))], policy, ctx, ans).0 == Answer(ctx.sender == a, d, policy)
      && CheckAccess(w, [r.(sender := Listed(list))], policy, ctx, ans).0 == Answer(ctx.sender in list, d, policy)
  {
    hide CheckAccess;
    var r := Plain(Always(d));
    OneRule(w, r, d, policy, ctx, ans);
    OneRule(w, r.(sender := Single(a)), d, policy, ctx, ans);
    OneRule(w, r.(sender := Listed(list)), d, policy, ctx, ans);
  }

  /** The gas budget, compared with a number as the rule's text says. */
  lemma BudgetsDecide(w: World, n: nat, d: Decision, policy: Policy, ctx: Context, ans: Answers)
    requires policy != Disabled && n < U64_LIMIT
    ensures
      var r := Plain(Always(d));
      var number := Print(n, 10);
      && CheckAccess(w, [r.(gasBudget := ParseValue(">=" + number))], policy, ctx, ans).0
           == Answer(ctx.budget >= n, d, policy)
      && CheckAccess(w, [r.(gasBudget := ParseValue("<=" + number))], policy, ctx, ans).0
           == Answer(ctx.budget <= n, d, policy)
      && CheckAccess(w, [r.(gasBudget := ParseValue("=" + number))], policy, ctx, ans).0
           == Answer(ctx.budget == n, d, policy)
      && CheckAccess(w, [r.(gasBudget := ParseValue("!=" + number))], policy, ctx, ans).0
           == Answer(ctx.budget != n, d, policy)
      && CheckAccess(w, [r.(gasBudget := ParseValue(">" + number))], policy, ctx, ans).0
           == Answer(ctx.budget > n, d, policy)
      && CheckAccess(w, [r.(gasBudget := ParseValue("<" + number))], policy, ctx, ans).0
           == Answer(ctx.budget < n, d, policy)
  {
    hide CheckAccess, ParseValue, Matches, Print, Answer;
    OperatorsAreRead(n, ctx.budget);
    var number := Print(n, 10);
    BudgetDecides(w, ParseValue(">=" + number), ctx.budget >= n, d, policy, ctx, ans);
    BudgetDecides(w, ParseValue("<=" + number), ctx.budget <= n, d, policy, ctx, ans);
    BudgetDecides(w, ParseValue("=" + number), ctx.budget == n, d, policy, ctx, ans);
    BudgetDecides(w, ParseValue("!=" + number), ctx.budget != n, d, policy, ctx, ans);
    BudgetDecides(w, ParseValue(">" + number), ctx.budget > n, d, policy, ctx, ans);
    BudgetDecides(w, ParseValue("<" + number), ctx.budget < n, d, policy, ctx, ans);
  }

  lemma BudgetDecides(w: World, v: Option<ValueNumber>, holds: bool, d: Decision, policy: Policy, ctx: Context,
      ans: Answers)
    requires policy != Disabled && v.Some? && (Matches(v.value, ctx.budget) <==> holds)
    ensures CheckAccess(w, [Plain(Always(d)).(gasBudget := v)], policy, ctx, ans).0 == Answer(holds, d, policy)
  {
    hide CheckAccess, Matches;
    OneRule(w, Plain(Always(d)).(gasBudget := v), d, policy, ctx, ans);
  }

  /** The packages: some package of the transaction is one of these. A transaction that calls none never passes. */
  lemma PackagesDecide(w: World, list: seq<Address>, a: Address, d: Decision, policy: Policy, ctx: Context,
      ans: Answers)
    requires policy != Disabled
    ensures
      var r := Plain(Always(d));
      && CheckAccess(w, [r.(movePackages := Some(Everyone))], policy, ctx, ans).0
           == Answer(ctx.packages != [], d, policy)
      && CheckAccess(w, [r.(movePackages := Some(Single(a)))], policy, ctx, ans).0
           == Answer(a in ctx.packages, d, policy)
      && CheckAccess(w, [r.(movePackages := Some(Listed(list)))], policy, ctx, ans).0
           == Answer(exists p :: p in ctx.packages && p in list, d, policy)
  {
    hide CheckAccess;
    var r := Plain(Always(d));
    OneRule(w, r.(movePackages := Some(Everyone)), d, policy, ctx, ans);
    OneRule(w, r.(movePackages := Some(Single(a))), d, policy, ctx, ans);
    OneRule(w, r.(movePackages := Some(Listed(list))), d, policy, ctx, ans);
    if ctx.packages != [] {
      assert ctx.packages[0] in ctx.packages;
    }
  }

  /** The number of commands, where the transaction has one; without one the condition holds. */
  lemma CommandsDecide(w: World, v: ValueNumber, d: Decision, policy: Policy, ctx: Context, ans: Answers)
    requires policy != Disabled
    ensures CheckAccess(w, [Plain(Always(d)).(ptbCommands := Some(v))], policy, ctx, ans).0 ==
      Answer(ctx.ptbCommands == None || exists n :: ctx.ptbCommands == Some(n) && Matches(v, n), d, policy)
  {
    hide CheckAccess, Matches;
    OneRule(w, Plain(Always(d)).(ptbCommands := Some(v)), d, policy, ctx, ans);
  }

  /** The Rego engine is asked if the other conditions hold, and only then is its failure one of the check. */
  lemma RegoDecides(w: World, expression: string, a: Address, d: Decision, policy: Policy, ctx: Context, ans: Answers)
    requires policy != Disabled
    ensures CheckAccess(w, [Plain(Always(d)).(rego := Some(expression), sender := Single(a))], policy, ctx, ans) ==
      (if ctx.sender == a && ans.rego(0) == None then Failed
       else Answer(ctx.sender == a && ans.rego(0) == Some(true), d, policy), w)
  {
    var r := Plain(Always(d)).(rego := Some(expression), sender := Single(a));
    assert Check(w, [r], policy, ctx, 1, ans) == (Answer(false, d, policy), w);
  }

  /** A hook's own decision counts; without one the next rule or the policy decides; its error ends the check. */
  lemma HookDecides(w: World, url: string, policy: Policy, ctx: Context, ans: Answers)
    requires policy != Disabled
    ensures
      var (outcome, after) := CheckAccess(w, [Plain(CallHook(url))], policy, ctx, ans);
      && after == w
      && (ans.hook(0) == None ==> outcome == Failed)
      && (ans.hook(0) == Some(Says(Allow)) ==> outcome == Decided(Allow))
      && (ans.hook(0) == Some(Says(Deny)) ==> outcome == Decided(Deny))
      && (ans.hook(0) == Some(NoDecision) ==> outcome == Decided(if policy == DenyAll then Deny else Allow))
  {
    assert Check(w, [Plain(CallHook(url))], policy, ctx, 1, ans) ==
      (Decided(if policy == DenyAll then Deny else Allow), w);
  }

  // ---------------------------------------------------------------- the gas limit

  /**
   * A limit compares what its counter holds with the claim on top. The claim is made and remembered either way,
   * and no other counter changes.
   */
  lemma LimitDecides(w: World, limit: Limit, d: Decision, policy: Policy, ctx: Context, ans: Answers)
    requires policy != Disabled && ans.tracker(0) == Replied
    requires
      var r := Plain(Always(d)).(gasUsage := Some(limit));
      && 0 <= CounterOf(w.counters, MeterOf(r, ctx))
      && CounterOf(w.counters, MeterOf(r, ctx)) + ctx.budget < 0x8000_0000_0000_0000
    ensures
      var r := Plain(Always(d)).(gasUsage := Some(limit));
      var m := MeterOf(r, ctx);
      var (outcome, after) := CheckAccess(w, [r], policy, ctx, ans);
      && outcome == Answer(Matches(limit.value, CounterOf(w.counters, m) + ctx.budget), d, policy)
      && CounterOf(after.counters, m) == CounterOf(w.counters, m) + ctx.budget
      && (forall other :: other != m ==> CounterOf(after.counters, other) == CounterOf(w.counters, other))
      && after.requests == w.requests[ctx.digest := [Request(m, ctx.budget)]]
  {
    hide MeterOf, Matches;
    var r := Plain(Always(d)).(gasUsage := Some(limit));
    CastsAreExact(ctx.budget, 0);
    CastsAreExact(CounterOf(w.counters, MeterOf(r, ctx)) + ctx.budget, 0);
    IncrementIsExact(w.counters, MeterOf(r, ctx), ctx.budget);
    hide AsI64, AsU64, Increment;
    var after := AfterRule(w, r, ctx, 0, ans);
    assert Check(after, [r], policy, ctx, 1, ans) == (Answer(false, d, policy), after);
  }

  /** Without the tracker's reply the check fails. A lost reply hides a claim that nobody remembers. */
  lemma TrackerFails(w: World, limit: Limit, d: Decision, policy: Policy, ctx: Context, ans: Answers)
    requires policy != Disabled && ans.tracker(0) != Replied
    ensures
      var r := Plain(Always(d)).(gasUsage := Some(limit));
      var (outcome, after) := CheckAccess(w, [r], policy, ctx, ans);
      && outcome == Failed && after.requests == w.requests
      && (ans.tracker(0) == Refused ==> after == w)
      && (ans.tracker(0) == ReplyLost ==>
          after.counters == Increment(w.counters, MeterOf(r, ctx), AsI64(ctx.budget)))
  {
    hide MeterOf, Increment, AsI64;
  }

  /** The casts between 64-bit integers keep all bits, and whatever fits both. */
  lemma CastsAreExact(n: nat, m: int)
    ensures n < 0x1_0000_0000_0000_0000 ==>
      && AsU64(AsI64(n)) == n && -0x8000_0000_0000_0000 <= AsI64(n) < 0x8000_0000_0000_0000
    ensures -0x8000_0000_0000_0000 <= m < 0x8000_0000_0000_0000 ==> AsI64(AsU64(m)) == m == AsI64(m)
    ensures n < 0x8000_0000_0000_0000 ==> AsI64(n) == n == AsU64(n)
  {
  }

  /** The script adds, and on an overflow in either direction sets the maximum; no other counter changes. */
  lemma IncrementIsExact(counters: Counters, m: Meter, amount: int)
    ensures
      var sum, after := CounterOf(counters, m) + amount, Increment(counters, m, amount);
      && (-0x8000_0000_0000_0000 <= sum < 0x8000_0000_0000_0000 ==> CounterOf(after, m) == sum)
      && (sum < -0x8000_0000_0000_0000 || 0x8000_0000_0000_0000 <= sum ==>
          CounterOf(after, m) == 0x7FFF_FFFF_FFFF_FFFF)
      && after.Keys == counters.Keys + {m}
      && forall other :: other != m ==> CounterOf(after, other) == CounterOf(counters, other)
  {
  }

  /**
   * Settling takes the request out and lowers its counter by what was not used: by all of it without a usage, and
   * by nothing if more was used. A refusal of the tracker leaves the counter, and the request is gone even so.
   */
  lemma SettlementIsExact(w: World, digest: Digest, m: Meter, budget: nat, used: Option<nat>,
      settle: nat -> TrackerAnswer)
    requires digest in w.requests && w.requests[digest] == [Request(m, budget)]
    requires budget < 0x8000_0000_0000_0000
    requires
      && -0x8000_0000_0000_0000 + budget <= CounterOf(w.counters, m) < 0x8000_0000_0000_0000
    ensures
      var after := Confirm(w, digest, used, settle);
      var before, now := CounterOf(w.counters, m), CounterOf(after.counters, m);
      && after.requests == w.requests - {digest}
      && (forall other :: other != m ==> CounterOf(after.counters, other) == CounterOf(w.counters, other))
      && (settle(0) == Refused ==> now == before)
      && (settle(0) != Refused ==>
          && (used == None ==> now == before - budget)
          && (forall u :: used == Some(u) ==> now == if u <= budget then before - budget + u else before))
  {
    hide AsI64, Increment, CounterOf;
    var refund := RefundIsUnused(m, budget, used);
    IncrementIsExact(w.counters, m, -refund);
    var requests := [Request(m, budget)];
    var lowered := Lowered(w.counters, requests[0], used);
    assert SettleFrom(lowered, requests, 1, used, settle) == lowered;
  }

  lemma RefundIsUnused(m: Meter, budget: nat, used: Option<nat>) returns (refund: int)
    requires budget < 0x8000_0000_0000_0000
    ensures refund == Refund(Request(m, budget), used) && 0 <= refund <= budget && AsI64(-AsI64(refund)) == -refund
    ensures used == None ==> refund == budget
    ensures forall u :: used == Some(u) ==> refund == if u <= budget then budget - u else 0
  {
    refund := Refund(Request(m, budget), used);
  }

  // ---------------------------------------------------------------- who shares a counter

  /** The same value of a header, where none is as good as an empty one. */
  predicate SameHeader(a: Context, b: Context, name: string) {
    if name in a.headers && a.headers[name] != "" then name in b.headers && b.headers[name] == a.headers[name]
    else name !in b.headers || b.headers[name] == ""
  }

  /**
   * Two rules put two transactions on one counter if and only if the rules differ at most in their senders,
   * and not in those unless counting by sender, and the transactions agree on everything that is counted.
   */
  lemma CountersAreExact(r: Rule, a: Context, q: Rule, b: Context)
    requires r.gasUsage.Some? && q.gasUsage.Some?
    ensures
      var countBy := r.gasUsage.value.countBy;
      MeterOf(r, a) == MeterOf(q, b) <==>
        && r.(sender := Everyone) == q.(sender := Everyone)
        && (if SenderAddress in countBy then a.sender == b.sender else r.sender == q.sender)
        && forall name :: HttpHeader(name) in countBy ==> SameHeader(a, b, name)
  {
    var countBy := r.gasUsage.value.countBy;
    var m, n := MeterOf(r, a), MeterOf(q, b);
    forall name ensures SameHeader(a, b, name) <==> HeaderOf(a, name) == HeaderOf(b, name) {
    }
    if m == n {
      assert m.rule.gasUsage == n.rule.gasUsage;
      assert r.(sender := Everyone) == m.rule.(sender := Everyone);
      assert q.(sender := Everyone) == n.rule.(sender := Everyone);
      forall name | HttpHeader(name) in countBy ensures SameHeader(a, b, name) {
        assert m.counted[HttpHeader(name)] == HeaderOf(a, name);
        assert n.counted[HttpHeader(name)] == HeaderOf(b, name);
      }
    }
    if r.(sender := Everyone) == q.(sender := Everyone)
      && forall name :: HttpHeader(name) in countBy ==> SameHeader(a, b, name)
    {
      assert q.gasUsage == r.(sender := Everyone).gasUsage;
      assert m.counted.Keys == n.counted.Keys;
      forall c | c in m.counted ensures m.counted[c] == n.counted[c] {
        assert HttpHeader(c.name) == c;
      }
      assert m.counted == n.counted;
    }
  }

  /** Under one rule: the same sender if senders are counted, and the same counted headers. */
  lemma CountersOfARule(r: Rule, a: Context, b: Context)
    requires r.gasUsage.Some?
    ensures MeterOf(r, a) == MeterOf(r, b) <==>
      && (SenderAddress in r.gasUsage.value.countBy ==> a.sender == b.sender)
      && forall name :: HttpHeader(name) in r.gasUsage.value.countBy ==> SameHeader(a, b, name)
  {
    hide MeterOf, SameHeader;
    CountersAreExact(r, a, r, b);
  }

  /**
   * The answer to a transaction does not depend on what another one has claimed before, if a counted sender or
   * header tells them apart.
   */
  lemma CountedApart(w: World, limit: Limit, d: Decision, policy: Policy, a: Context, b: Context, ans: Answers,
      later: Answers)
    requires policy != Disabled
    requires
      || (SenderAddress in limit.countBy && a.sender != b.sender)
      || (exists name :: HttpHeader(name) in limit.countBy && !SameHeader(a, b, name))
    ensures
      var r := Plain(Always(d)).(gasUsage := Some(limit));
      var after := CheckAccess(w, [r], policy, a, ans).1;
      CheckAccess(after, [r], policy, b, later).0 == CheckAccess(w, [r], policy, b, later).0
  {
    hide SameHeader, MeterOf, Matches, AsI64, AsU64, Increment;
    var r := Plain(Always(d)).(gasUsage := Some(limit));
    CountersOfARule(r, a, b);
    var after := CheckAccess(w, [r], policy, a, ans).1;
    IncrementIsExact(w.counters, MeterOf(r, a), AsI64(a.budget));
    CheckReads(w, r, d, policy, a, ans);
    assert CounterOf(after.counters, MeterOf(r, b)) == CounterOf(w.counters, MeterOf(r, b));
    CheckReads(w, r, d, policy, b, later);
    CheckReads(after, r, d, policy, b, later);
    IncrementReads(w.counters, after.counters, MeterOf(r, b), AsI64(b.budget));
  }

  /** One limited rule reads and raises its own counter only. */
  lemma CheckReads(w: World, r: Rule, d: Decision, policy: Policy, ctx: Context, ans: Answers)
    requires policy != Disabled && r.gasUsage.Some? && r == Plain(Always(d)).(gasUsage := r.gasUsage)
    ensures
      var m := MeterOf(r, ctx);
      var raised := Increment(w.counters, m, AsI64(ctx.budget));
      var (outcome, after) := CheckAccess(w, [r], policy, ctx, ans);
      && outcome == (if !ans.tracker(0).Replied? then Failed
                     else Answer(UsageMatches(r, CounterOf(raised, m)), d, policy))
      && (after.counters == w.counters || after.counters == raised)
  {
    hide MeterOf, UsageMatches, Increment, AsI64, CounterOf;
    var after := AfterRule(w, r, ctx, 0, ans);
    assert Check(after, [r], policy, ctx, 1, ans) == (Answer(false, d, policy), after);
  }

  lemma IncrementReads(a: Counters, b: Counters, m: Meter, amount: int)
    requires CounterOf(a, m) == CounterOf(b, m)
    ensures CounterOf(Increment(a, m, amount), m) == CounterOf(Increment(b, m, amount), m)
  {
  }
}
