/** The access controller as it runs: staged reports, claims while matching, settlement afterwards. */
module AccessController {
  import opened Coins
  import opened Operands
  import opened Rules

  datatype PredicateReport = PredicateReport(name: string, isMatched: bool)

  predicate AllMatched(reports: seq<PredicateReport>) {
    forall p :: p in reports ==> p.isMatched
  }

  class RuleReport {
    var reports: seq<PredicateReport>
    var isMatched: bool

    /** A new report counts as not matched, although it has no predicate that fails. */
    constructor ()
      ensures Valid() && reports == [] && !isMatched
    {
      reports, isMatched := [], false;
    }

    /** The flag is the conjunction of all reports, once there is one. */
    ghost predicate Valid()
      reads this
    {
      reports != [] ==> (isMatched <==> AllMatched(reports))
    }

    /** Recomputing the flag from all reports is keeping a running conjunction. */
    method AddPredicateReport(p: PredicateReport)
      requires Valid()
      modifies this
      ensures Valid() && reports == old(reports) + [p]
      ensures isMatched <==> p.isMatched && (old(reports) == [] || old(isMatched))
    {
      reports := reports + [p];
      isMatched := AllMatched(reports);
      assert p in reports && forall q :: q in old(reports) ==> q in reports;
    }

    /** The same for several reports. */
    method AddPredicateReports(ps: seq<PredicateReport>)
      requires Valid()
      modifies this
      ensures Valid() && reports == old(reports) + ps
      ensures isMatched <==> AllMatched(ps) && (old(reports) == [] || old(isMatched))
    {
      assert forall q :: q in reports + ps <==> q in reports || q in ps;
      reports := reports + ps;
      isMatched := AllMatched(reports);
    }
  }

  /** The counters in Redis. */
  class StatsTracker {
    var counters: Counters

    constructor ()
      ensures counters == map[]
    {
      counters := map[];
    }

    /** `aggr_increment_sum`. */
    method UpdateAggr(m: Meter, amount: int) returns (total: int)
      modifies this
      ensures counters == Increment(old(counters), m, amount) && total == CounterOf(counters, m)
    {
      if m !in counters {
        counters := counters[m := 0];
      }
      var sum := counters[m] + amount;
      if -MAX_I64 - 1 <= sum <= MAX_I64 {
        counters := counters[m := sum];
      } else {
        counters := counters[m := MAX_I64];
      }
      total := counters[m];
    }
  }

  /** The predicate reports of the stages of `matches`, in order. */
  function Stages(r: Rule, ctx: Context, rego: Option<bool>): seq<PredicateReport> {
    [PredicateReport("sender_address", SenderMatches(r, ctx)),
     PredicateReport("gas_budget", BudgetMatches(r, ctx)),
     PredicateReport("move_call_package_address", PackagesMatch(r, ctx)),
     PredicateReport("ptb_command_count", CommandsMatch(r, ctx)),
     PredicateReport("rego_expression", RegoMatches(r, rego))]
  }

  lemma StagesAre(r: Rule, ctx: Context, rego: Option<bool>)
    ensures AllMatched(Stages(r, ctx, rego)) <==> PartlyMatches(r, ctx, rego)
    ensures AllMatched(Stages(r, ctx, rego)[..4]) <==> FourMatch(r, ctx)
  {
    var s := Stages(r, ctx, rego);
    assert s[0] in s && s[1] in s && s[2] in s && s[3] in s && s[4] in s;
    var t := s[..4];
    assert t[0] in t && t[1] in t && t[2] in t && t[3] in t;
  }

  /** All reports up to and including the first that is not matched. */
  ghost predicate UpToFirstFailure(reports: seq<PredicateReport>, stages: seq<PredicateReport>) {
    && 0 < |reports| <= |stages| && reports == stages[..|reports|]
    && (forall k :: 0 <= k < |reports| - 1 ==> reports[k].isMatched)
    && (reports[|reports| - 1].isMatched ==> reports == stages)
  }

  /**
   * The staged evaluation: stops after the first predicate that fails, and asks the Rego engine only when
   * the four others hold. `None` is an error of the engine.
   */
  method MatchStages(r: Rule, ctx: Context, rego: Option<bool>) returns (report: Option<RuleReport>)
    ensures report.None? <==> FourMatch(r, ctx) && r.rego.Some? && rego.None?
    ensures report.Some? ==> fresh(report.value) && (report.value.isMatched <==> PartlyMatches(r, ctx, rego))
    ensures report.Some? ==> UpToFirstFailure(report.value.reports, Stages(r, ctx, rego))
  {
    ghost var stages := Stages(r, ctx, rego);
    StagesAre(r, ctx, rego);
    var rr := new RuleReport();
    rr.AddPredicateReport(PredicateReport("sender_address", SenderMatches(r, ctx)));
    assert rr.reports == stages[..1];
    if !rr.isMatched {
      NotAll(stages, 1);
      return Some(rr);
    }
    rr.AddPredicateReport(PredicateReport("gas_budget", BudgetMatches(r, ctx)));
    assert rr.reports == stages[..2];
    if !rr.isMatched {
      NotAll(stages, 2);
      return Some(rr);
    }
    rr.AddPredicateReport(PredicateReport("move_call_package_address", PackagesMatch(r, ctx)));
    assert rr.reports == stages[..3];
    if !rr.isMatched {
      NotAll(stages, 3);
      return Some(rr);
    }
    rr.AddPredicateReport(PredicateReport("ptb_command_count", CommandsMatch(r, ctx)));
    assert rr.reports == stages[..4];
    if !rr.isMatched {
      NotAll(stages, 4);
      return Some(rr);
    }
    if r.rego.Some? && rego.None? {
      return None;
    }
    rr.AddPredicateReport(PredicateReport("rego_expression", RegoMatches(r, rego)));
    assert rr.reports == stages[..5] == stages;
    return Some(rr);
  }

  lemma NotAll(reports: seq<PredicateReport>, n: nat)
    requires n <= |reports| && !AllMatched(reports[..n])
    ensures !AllMatched(reports) && forall k :: n <= k <= |reports| ==> !AllMatched(reports[..k])
  {
    var p :| p in reports[..n] && !p.isMatched;
    assert p in reports;
    forall k | n <= k <= |reports| ensures !AllMatched(reports[..k]) {
      assert reports[..n] == reports[..k][..n];
      assert p in reports[..k];
    }
  }

  /** The loop over `count_by` that rewrites the rule's own fields. */
  method GetRuleMeta(r: Rule, ctx: Context) returns (m: Meter)
    requires r.gasUsage.Some?
    ensures m == MeterOf(r, ctx)
  {
    var countBy := r.gasUsage.value.countBy;
    m := Meter(r, map[]);
    for i := 0 to |countBy|
      invariant m == MeterBy(r, ctx, countBy[..i])
    {
      match countBy[i] {
        case SenderAddress => m := m.(rule := m.rule.(sender := Single(ctx.sender)));
        case HttpHeader(name) => m := m.(counted := m.counted[countBy[i] := HeaderOf(ctx, name)]);
      }
      assert countBy[..i + 1] == countBy[..i] + [countBy[i]];
    }
    assert countBy[..|countBy|] == countBy;
  }

  /** `match_global_limits`: the claim is made first, and matched against the limit afterwards. */
  method MatchGlobalLimits(r: Rule, ctx: Context, tracker: StatsTracker, answer: TrackerAnswer)
    returns (report: Option<RuleReport>, requests: seq<Request>)
    modifies tracker
    ensures report.None? <==> r.gasUsage.Some? && !answer.Replied?
    ensures report.Some? ==> fresh(report.value) && report.value.Valid() && report.value.reports != []
    ensures report.Some? ==>
      var total := if r.gasUsage.Some? then CounterOf(tracker.counters, MeterOf(r, ctx)) else 0;
      report.value.isMatched <==> UsageMatches(r, total)
    ensures requests == if report.Some? && r.gasUsage.Some? then [Request(MeterOf(r, ctx), ctx.budget)] else []
    ensures tracker.counters ==
      if r.gasUsage.Some? && !answer.Refused? then Increment(old(tracker.counters), MeterOf(r, ctx), AsI64(ctx.budget))
      else old(tracker.counters)
  {
    requests := [];
    var rr := new RuleReport();
    if r.gasUsage.Some? {
      var meta := GetRuleMeta(r, ctx);
      if answer.Refused? {
        return None, [];
      }
      var total := tracker.UpdateAggr(meta, AsI64(ctx.budget));
      if answer.ReplyLost? {
        return None, [];
      }
      requests := requests + [Request(meta, ctx.budget)];
      rr.AddPredicateReport(PredicateReport("gas_usage", Matches(r.gasUsage.value.value, AsU64(total))));
    } else {
      rr.AddPredicateReport(PredicateReport("gas_usage", true));
    }
    assert rr.reports[0] in rr.reports;
    report := Some(rr);
  }

  datatype Reply = Executed(used: nat) | ExecutionFailed | Forbidden | BadRequest

  /** How an execution ends: with effects that say what was charged, or with an error that hides it. */
  datatype Execution = Effects(used: nat) | Error(charged: nat)

  function ReportOf(x: Execution): Option<nat> {
    if x.Effects? then Some(x.used) else None
  }

  function ChargeOf(x: Execution): nat {
    if x.Effects? then x.used else x.charged
  }

  /** The station behind the server: what it was asked to execute, and what the ledger has charged for it. */
  class Executor {
    const outcome: Digest -> Execution
    var executed: seq<Digest>
    var charged: nat

    constructor (outcome: Digest -> Execution)
      ensures this.outcome == outcome && executed == [] && charged == 0
    {
      this.outcome, this.executed, this.charged := outcome, [], 0;
    }

    method ExecuteTransaction(digest: Digest) returns (used: Option<nat>)
      modifies this
      ensures executed == old(executed) + [digest] && used == ReportOf(outcome(digest))
      ensures charged == old(charged) + ChargeOf(outcome(digest))
    {
      executed := executed + [digest];
      charged := charged + ChargeOf(outcome(digest));
      used := ReportOf(outcome(digest));
    }
  }

  class AccessController {
    var policy: Policy
    var rules: seq<Rule>
    var requests: map<Digest, seq<Request>>

    constructor (policy: Policy, rules: seq<Rule>)
      ensures this.policy == policy && this.rules == rules && requests == map[]
    {
      this.policy, this.rules, this.requests := policy, rules, map[];
    }

    ghost function Abs(tracker: StatsTracker): World
      reads this, tracker
    {
      World(tracker.counters, requests)
    }

    /** The rule loop refines `Rules.CheckAccess`: same answer, same counters, same requests. */
    method CheckAccess(ctx: Context, ans: Answers, tracker: StatsTracker) returns (outcome: Outcome)
      modifies this`requests, tracker
      ensures outcome == Rules.CheckAccess(old(Abs(tracker)), rules, policy, ctx, ans).0 && !outcome.Pass?
      ensures Abs(tracker) == Rules.CheckAccess(old(Abs(tracker)), rules, policy, ctx, ans).1
    {
      if policy == Disabled {
        return Decided(Allow);
      }
      var i := 0;
      while i < |rules|
        invariant i <= |rules| && policy != Disabled
        invariant Check(Abs(tracker), rules, policy, ctx, i, ans) ==
          Check(old(Abs(tracker)), rules, policy, ctx, 0, ans)
      {
        outcome := CheckRule(i, ctx, ans, tracker);
        if !outcome.Pass? {
          return outcome;
        }
        i := i + 1;
      }
      outcome := Decided(if policy == DenyAll then Deny else Allow);
    }

    /** One turn of the loop. */
    method CheckRule(i: nat, ctx: Context, ans: Answers, tracker: StatsTracker) returns (outcome: Outcome)
      requires i < |rules|
      modifies this`requests, tracker
      ensures outcome == RuleOutcome(old(Abs(tracker)), rules[i], ctx, i, ans)
      ensures Abs(tracker) == AfterRule(old(Abs(tracker)), rules[i], ctx, i, ans)
    {
      var rule := rules[i];
      var ruleReport := MatchStages(rule, ctx, ans.rego(i));
      if ruleReport.None? {
        return Failed;
      }
      outcome := Pass;
      var isPartiallyMatched := ruleReport.value.isMatched;
      if isPartiallyMatched {
        var limits, confirmations := MatchGlobalLimits(rule, ctx, tracker, ans.tracker(i));
        if limits.None? {
          return Failed;
        }
        if confirmations != [] {
          requests := requests[ctx.digest := confirmations];
        }
        ruleReport.value.AddPredicateReports(limits.value.reports);
        if limits.value.isMatched {
          match rule.action {
            case Always(decision) => outcome := Decided(decision);
            case CallHook(_) =>
              match ans.hook(i) {
                case None => return Failed;
                case Some(Says(decision)) => outcome := Decided(decision);
                case Some(NoDecision) => outcome := Pass;
              }
          }
        }
      }
    }

    /**
     * Takes the transaction's requests out and lowers their counters, until the tracker fails; `settle` is
     * its answer to each. The requests are gone even then.
     */
    method ConfirmTransaction(digest: Digest, used: Option<nat>, settle: nat -> TrackerAnswer, tracker: StatsTracker)
      returns (ok: bool)
      modifies this`requests, tracker
      ensures Abs(tracker) == Confirm(old(Abs(tracker)), digest, used, settle)
      ensures ok <==> digest !in old(requests) || forall i :: 0 <= i < |old(requests[digest])| ==> settle(i).Replied?
    {
      hide AsI64, Increment, CounterOf;
      ok := true;
      if digest in requests {
        var taken := requests[digest];
        requests := requests - {digest};
        var i := 0;
        while i < |taken|
          invariant i <= |taken| && requests == old(requests) - {digest}
          invariant forall j :: 0 <= j < i ==> settle(j).Replied?
          invariant SettleFrom(tracker.counters, taken, i, used, settle) ==
            SettleFrom(old(tracker.counters), taken, 0, used, settle)
        {
          var req := taken[i];
          var diff := req.gasUsage;
          if used.Some? {
            diff := if used.value <= req.gasUsage then req.gasUsage - used.value else 0;
          }
          assert diff == Refund(req, used);
          if settle(i).Refused? {
            return false;
          }
          var _ := tracker.UpdateAggr(req.meter, AsI64(AsI64(diff) * -1));
          if settle(i).ReplyLost? {
            return false;
          }
          i := i + 1;
        }
      }
    }

    /**
     * `execute_tx_impl`: the station is asked to execute exactly if access was granted, once, and every path
     * settles, once, with what the execution reported, or with nothing: without access, and on an error,
     * whatever that has charged. A settlement that fails changes no reply.
     */
    method ExecuteTx(ctx: Context, ans: Answers, settle: nat -> TrackerAnswer, station: Executor, tracker: StatsTracker)
      returns (reply: Reply)
      modifies this`requests, tracker, station
      ensures
        var checked := Rules.CheckAccess(old(Abs(tracker)), rules, policy, ctx, ans);
        var usage := if checked.0 == Decided(Allow) then ReportOf(station.outcome(ctx.digest)) else None;
        && station.charged == old(station.charged)
             + (if checked.0 == Decided(Allow) then ChargeOf(station.outcome(ctx.digest)) else 0)
        && station.executed == old(station.executed) + (if checked.0 == Decided(Allow) then [ctx.digest] else [])
        && (reply == Forbidden <==> checked.0 == Decided(Deny))
        && (reply == BadRequest <==> checked.0 == Failed)
        && (reply.Executed? <==> usage.Some?) && (reply.Executed? ==> reply.used == usage.value)
        && (reply.ExecutionFailed? <==> checked.0 == Decided(Allow) && usage.None?)
        && Abs(tracker) == Confirm(checked.1, ctx.digest, usage, settle)
    {
      var outcome := CheckAccess(ctx, ans, tracker);
      if outcome != Decided(Allow) {
        assert outcome.Decided? ==> outcome.decision.Deny?;
        var _ := ConfirmTransaction(ctx.digest, None, settle, tracker);
        return if outcome == Decided(Deny) then Forbidden else BadRequest;
      }
      var effects := station.ExecuteTransaction(ctx.digest);
      match effects {
        case Some(used) =>
          var _ := ConfirmTransaction(ctx.digest, Some(used), settle, tracker);
          reply := Executed(used);
        case None =>
          var _ := ConfirmTransaction(ctx.digest, None, settle, tracker);
          reply := ExecutionFailed;
      }
    }
  }
}
