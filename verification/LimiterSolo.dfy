/**
 * The concurrent steps and the sequential code are about the same thing: when one transaction takes its
 * steps alone, they lead where `Rules.Check` leads.
 */
module LimiterSolo {
  import opened Coins
  import opened Operands
  import opened Rules
  import opened Limiter

  ghost function Abs(s: Limiter): World {
    World(s.counters, map d | d in s.requests :: [s.requests[d]])
  }

  ghost predicate Leads(s: Limiter, steps: seq<Step>, u: Limiter)
    decreases |steps|
  {
    if steps == [] then s == u else Enabled(s, steps[0]) && Leads(Apply(s, steps[0]), steps[1..], u)
  }

  lemma LeadsOne(s: Limiter, st: Step)
    requires Enabled(s, st)
    ensures Leads(s, [st], Apply(s, st))
  {
    assert [st][1..] == [];
  }

  lemma {:induction false} LeadsOn(s: Limiter, a: seq<Step>, u: Limiter, b: seq<Step>, v: Limiter)
    requires Leads(s, a, u) && Leads(u, b, v)
    ensures Leads(s, a + b, v)
    decreases |a|
  {
    hide Enabled, Apply;
    if a == [] {
      assert a + b == b;
    } else {
      assert (a + b)[1..] == a[1..] + b;
      LeadsOn(Apply(s, a[0]), a[1..], u, b, v);
    }
  }

  /** Where an outcome leaves the transaction. */
  ghost predicate EndsAs(tx: Tx, o: Outcome, next: nat) {
    match o
    case Pass => tx.phase == Checking(next)
    case Decided(Allow) => tx.phase.Admitted?
    case _ => tx.phase == Finished(None)
  }

  predicate At(s: Limiter, d: Digest, i: nat) {
    d in s.txs && s.txs[d].ctx.digest == d && s.txs[d].phase == Checking(i)
  }

  lemma MoveSteps(s: Limiter, d: Digest, st: Step)
    requires Enabled(s, st) && !st.ClaimGas? && !st.Record?
    requires (st.Visit? && st.d == d) || (st.HookSays? && st.d == d) || (st.CheckFails? && st.d == d)
    ensures Abs(Apply(s, st)) == Abs(s) && Apply(s, st).rules == s.rules && Apply(s, st).policy == s.policy
  {
    hide Visited, Answered;
  }

  /** A hook that was asked, and its answer or failure. */
  lemma HookEnds(s: Limiter, d: Digest, answer: Option<HookAnswer>) returns (steps: seq<Step>, u: Limiter)
    requires d in s.txs && s.txs[d].phase.Asking?
    ensures Leads(s, steps, u) && Abs(u) == Abs(s) && u.rules == s.rules && u.policy == s.policy
    ensures d in u.txs && u.txs[d].ctx == s.txs[d].ctx
    ensures
      var outcome := match answer case None => Failed case Some(Says(x)) => Decided(x) case Some(NoDecision) => Pass;
      EndsAs(u.txs[d], outcome, s.txs[d].phase.rule + 1)
  {
    var st := if answer.None? then CheckFails(d) else HookSays(d, answer.value);
    LeadsOne(s, st);
    MoveSteps(s, d, st);
    steps, u := [st], Apply(s, st);
  }

  /** A fully matched rule acts, and its hook if it has one answers. */
  lemma ActEnds(s: Limiter, d: Digest, r: Rule, i: nat, ticket: Option<nat>, tx: Tx, answer: Option<HookAnswer>)
    returns (steps: seq<Step>, u: Limiter)
    requires d in s.txs && s.txs[d] == Act(tx, r.action, i, ticket)
    ensures Leads(s, steps, u) && Abs(u) == Abs(s) && u.rules == s.rules && u.policy == s.policy
    ensures d in u.txs && u.txs[d].ctx == tx.ctx && EndsAs(u.txs[d], Acted(r.action, answer), i + 1)
  {
    if r.action.CallHook? {
      steps, u := HookEnds(s, d, answer);
    } else {
      steps, u := [], s;
    }
  }

  /** A rule without a limit, or one that does not get as far as its limit. */
  lemma SoloVisit(s: Limiter, d: Digest, i: nat, ans: Answers) returns (steps: seq<Step>, u: Limiter)
    requires At(s, d, i) && i < |s.rules|
    requires s.rules[i].gasUsage.None? || !PartlyMatches(s.rules[i], s.txs[d].ctx, ans.rego(i))
    ensures Leads(s, steps, u) && Abs(u) == Abs(s) && u.rules == s.rules && u.policy == s.policy
    ensures d in u.txs && u.txs[d].ctx == s.txs[d].ctx
    ensures EndsAs(u.txs[d], RuleOutcome(Abs(s), s.rules[i], s.txs[d].ctx, i, ans), i + 1)
  {
    hide Claim, FourMatch, UsageMatches, Abs;
    var st := Visit(d, ans.rego(i));
    LeadsOne(s, st);
    MoveSteps(s, d, st);
    steps, u := [st], Apply(s, st);
    if PartlyMatches(s.rules[i], s.txs[d].ctx, ans.rego(i)) {
      var more: seq<Step>;
      var v := u;
      more, u := ActEnds(v, d, s.rules[i], i, None, s.txs[d], ans.hook(i));
      LeadsOn(s, steps, v, more, u);
      steps := steps + more;
    }
  }

  /** The tracker does not answer. */
  lemma SoloFails(s: Limiter, d: Digest, i: nat) returns (steps: seq<Step>, u: Limiter)
    requires At(s, d, i)
    ensures Leads(s, steps, u) && Abs(u) == Abs(s) && u.rules == s.rules && u.policy == s.policy
    ensures d in u.txs && u.txs[d].ctx == s.txs[d].ctx && u.txs[d].phase == Finished(None)
  {
    LeadsOne(s, CheckFails(d));
    MoveSteps(s, d, CheckFails(d));
    steps, u := [CheckFails(d)], Apply(s, CheckFails(d));
  }

  predicate RecordedAs(after: Tx, tx: Tx, ctx: Context, r: Rule, i: nat, ticket: Option<nat>, total: int) {
    && tx.ctx == ctx
    && after == if UsageMatches(r, total) then Act(tx, r.action, i, ticket) else tx.(phase := Checking(i + 1))
  }

  /** Claiming and recording together are `Rules.Claim`. */
  lemma ClaimAndRecord(s: Limiter, d: Digest, i: nat, rego: Option<bool>) returns (u: Limiter)
    requires At(s, d, i) && i < |s.rules| && s.rules[i].gasUsage.Some? && PartlyMatches(s.rules[i], s.txs[d].ctx, rego)
    ensures Leads(s, [ClaimGas(d, rego), Record(d)], u)
    ensures Abs(u) == Claim(Abs(s), s.rules[i], s.txs[d].ctx) && u.rules == s.rules && u.policy == s.policy
    ensures
      var r, ctx := s.rules[i], s.txs[d].ctx;
      var total := CounterOf(Claim(Abs(s), r, ctx).counters, MeterOf(r, ctx));
      d in u.txs && (exists tx: Tx :: RecordedAs(u.txs[d], tx, ctx, r, i, Some(s.nextTicket), total))
  {
    hide MeterOf, PartlyMatches, UsageMatches, Increment, AsI64, Act;
    var v := Apply(s, ClaimGas(d, rego));
    u := Apply(v, Record(d));
    LeadsOne(v, Record(d));
    assert [ClaimGas(d, rego), Record(d)][1..] == [Record(d)];
    CountersKeep(s.counters, MeterOf(s.rules[i], s.txs[d].ctx), AsI64(s.txs[d].ctx.budget));
    var total := CounterOf(v.counters, MeterOf(s.rules[i], s.txs[d].ctx));
    assert RecordedAs(u.txs[d], v.txs[d], s.txs[d].ctx, s.rules[i], i, Some(s.nextTicket), total);
    assert Abs(u).requests == Abs(s).requests[d := [Request(MeterOf(s.rules[i], s.txs[d].ctx), s.txs[d].ctx.budget)]];
  }

  /** Claiming without a reply raises the counter and ends the check. */
  lemma ClaimAndLose(s: Limiter, d: Digest, i: nat, rego: Option<bool>) returns (u: Limiter)
    requires At(s, d, i) && i < |s.rules| && s.rules[i].gasUsage.Some? && PartlyMatches(s.rules[i], s.txs[d].ctx, rego)
    ensures Leads(s, [ClaimGas(d, rego), ClaimLost(d)], u)
    ensures Abs(u) == Raised(Abs(s), s.rules[i], s.txs[d].ctx) && u.rules == s.rules && u.policy == s.policy
    ensures d in u.txs && u.txs[d].ctx == s.txs[d].ctx && u.txs[d].phase == Finished(None)
  {
    hide MeterOf, PartlyMatches, Increment, AsI64, Mark;
    var v := Apply(s, ClaimGas(d, rego));
    u := Apply(v, ClaimLost(d));
    LeadsOne(v, ClaimLost(d));
    assert [ClaimGas(d, rego), ClaimLost(d)][1..] == [ClaimLost(d)];
    CountersKeep(s.counters, MeterOf(s.rules[i], s.txs[d].ctx), AsI64(s.txs[d].ctx.budget));
  }

  lemma CountersKeep(counters: Counters, m: Meter, amount: int)
    ensures m in Increment(counters, m, amount)
  {
  }

  /** One rule. */
  lemma SoloRule(s: Limiter, d: Digest, i: nat, ans: Answers) returns (steps: seq<Step>, u: Limiter)
    requires At(s, d, i) && i < |s.rules|
    ensures Leads(s, steps, u) && u.rules == s.rules && u.policy == s.policy
    ensures Abs(u) == AfterRule(Abs(s), s.rules[i], s.txs[d].ctx, i, ans)
    ensures d in u.txs && u.txs[d].ctx == s.txs[d].ctx
    ensures EndsAs(u.txs[d], RuleOutcome(Abs(s), s.rules[i], s.txs[d].ctx, i, ans), i + 1)
  {
    hide Claim, Raised, FourMatch, UsageMatches, Abs, MeterOf, Leads;
    var r, ctx := s.rules[i], s.txs[d].ctx;
    if r.gasUsage.None? || !PartlyMatches(r, ctx, ans.rego(i)) {
      steps, u := SoloVisit(s, d, i, ans);
    } else if ans.tracker(i).Refused? {
      steps, u := SoloFails(s, d, i);
    } else if ans.tracker(i).ReplyLost? {
      u := ClaimAndLose(s, d, i, ans.rego(i));
      steps := [ClaimGas(d, ans.rego(i)), ClaimLost(d)];
    } else {
      u := ClaimAndRecord(s, d, i, ans.rego(i));
      steps := [ClaimGas(d, ans.rego(i)), Record(d)];
      if UsageMatches(r, CounterOf(Claim(Abs(s), r, ctx).counters, MeterOf(r, ctx))) {
        var tx: Tx :| RecordedAs(
          u.txs[d], tx, ctx, r, i, Some(s.nextTicket), CounterOf(Claim(Abs(s), r, ctx).counters, MeterOf(r, ctx)));
        var more: seq<Step>;
        var v := u;
        more, u := ActEnds(v, d, r, i, Some(s.nextTicket), tx, ans.hook(i));
        LeadsOn(s, steps, v, more, u);
        steps := steps + more;
      }
    }
  }

  /** A whole check, from rule `i` on. */
  lemma {:induction false} SoloCheck(s: Limiter, d: Digest, i: nat, ans: Answers) returns (steps: seq<Step>, u: Limiter)
    requires At(s, d, i) && i <= |s.rules| && s.policy != Disabled
    ensures
      var checked := Check(Abs(s), s.rules, s.policy, s.txs[d].ctx, i, ans);
      && Leads(s, steps, u) && Abs(u) == checked.1 && d in u.txs
      && (u.txs[d].phase.Admitted? <==> checked.0 == Decided(Allow))
      && (u.txs[d].phase == Finished(None) <==> checked.0 == Decided(Deny) || checked.0 == Failed)
    decreases |s.rules| - i
  {
    hide AfterRule, RuleOutcome, Abs, Leads;
    if i == |s.rules| {
      LeadsOne(s, Visit(d, None));
      MoveSteps(s, d, Visit(d, None));
      steps, u := [Visit(d, None)], Apply(s, Visit(d, None));
    } else {
      steps, u := SoloRule(s, d, i, ans);
      if RuleOutcome(Abs(s), s.rules[i], s.txs[d].ctx, i, ans) == Pass {
        var v := u;
        var more: seq<Step>;
        more, u := SoloCheck(v, d, i + 1, ans);
        LeadsOn(s, steps, v, more, u);
        steps := steps + more;
      }
    }
  }

  /** Settlement: taking the request out and lowering its counter are `Rules.Confirm`, whatever the tracker answers. */
  lemma SoloConfirm(s: Limiter, d: Digest, settle: nat -> TrackerAnswer) returns (steps: seq<Step>, u: Limiter)
    requires d in s.txs && s.txs[d].phase.Finished? && (d in s.requests ==> d in s.tickets)
    ensures Leads(s, steps, u) && d in u.txs && u.txs[d].phase.Done?
    ensures Abs(u) == Confirm(Abs(s), d, s.txs[d].phase.result, settle)
  {
    hide Refund, Increment, AsI64, Mark;
    var v := Apply(s, TakeRequest(d));
    LeadsOne(s, TakeRequest(d));
    if d in s.requests {
      var last := if settle(0).Replied? then Settle(d) else SettleFails(d, settle(0).ReplyLost?);
      u := Apply(v, last);
      LeadsOne(v, last);
      LeadsOn(s, [TakeRequest(d)], v, [last], u);
      steps := [TakeRequest(d)] + [last];
      var requests := [s.requests[d]];
      assert SettleFrom(s.counters, requests, 0, s.txs[d].phase.result, settle) == u.counters;
      assert Abs(u).requests == Abs(s).requests - {d};
    } else {
      steps, u := [TakeRequest(d)], v;
    }
  }
}
