/** Every step of the limiter keeps the invariant. */
module LimiterSteps {
  import opened Coins
  import opened Ledger
  import opened Operands
  import opened Rules
  import opened Limiter
  import opened LimiterInvariant

  // ---------------------------------------------------------------- steps of one transaction only

  predicate Early(p: Phase) {
    p.Checking? || p.Asking? || p.Admitted?
  }

  lemma KeepMove(s: Limiter, d: Digest, tx: Tx)
    requires Inv(s) && d in s.txs && Early(s.txs[d].phase)
    requires (Early(tx.phase) || tx.phase.Finished?) && Upto(s.txs[d].phase, |s.rules|) <= Upto(tx.phase, |s.rules|)
    requires tx.ctx == s.txs[d].ctx && Used(tx) <= tx.ctx.budget
    requires if tx.phase.Finished? then Reports(tx, tx.phase.result) else Used(tx) == 0
    requires FlowOk(Put(s, d, tx), d) && (tx.phase.Checking? || tx.phase.Asking? ==> tx.grant.None?)
    requires forall t :: t in s.charges && s.charges[t].digest == d ==> LeftBehind(Put(s, d, tx), s.charges[t], tx)
    ensures Inv(Put(s, d, tx))
  {
    hide CountersOk, BoundOk, FlowsOk, FlowOk, ChargeOk, TxOk, WindowsOk, TableOk, OnlyTouches;
    var u := Put(s, d, tx);
    SumsSame(s, u);
    FlowsFrame(s, u, d);
    MovedLinks(s, d, tx);
    NoCharge(s, u, d);
    MovedTable(s, d, tx);
    OthersLink(s, u, d);
  }

  /** A transaction that gets further leaves no claim behind that would have decided. */
  lemma MovedBehind(s: Limiter, d: Digest, tx: Tx)
    requires ChargesOk(s) && d in s.txs && Early(s.txs[d].phase)
    requires
      var first, end := Position(s, s.txs[d]), Upto(s.txs[d].phase, |s.rules|);
      forall i :: first <= i < Position(s, tx) && i < end && i < |s.rules| ==> !s.rules[i].action.Always?
    ensures forall t :: t in s.charges && s.charges[t].digest == d ==> LeftBehind(Put(s, d, tx), s.charges[t], tx)
  {
    hide FourMatch, MeterOf, UsageMatches;
    forall t | t in s.charges && s.charges[t].digest == d ensures LeftBehind(Put(s, d, tx), s.charges[t], tx) {
      assert ChargeOk(s, t);
    }
  }

  lemma MovedTable(s: Limiter, d: Digest, tx: Tx)
    requires TableOk(s) && d in s.txs && tx.ctx == s.txs[d].ctx
    ensures TableOk(Put(s, d, tx))
  {
  }

  lemma MovedLinks(s: Limiter, d: Digest, tx: Tx)
    requires ChargesOk(s) && TxsOk(s) && d in s.txs && Early(s.txs[d].phase)
    requires (Early(tx.phase) || tx.phase.Finished?) && Upto(s.txs[d].phase, |s.rules|) <= Upto(tx.phase, |s.rules|)
    requires tx.ctx == s.txs[d].ctx && Used(tx) <= tx.ctx.budget
    requires if tx.phase.Finished? then Reports(tx, tx.phase.result) else Used(tx) == 0
    requires forall t :: t in s.charges && s.charges[t].digest == d ==> LeftBehind(Put(s, d, tx), s.charges[t], tx)
    requires tx.phase.Checking? || tx.phase.Asking? ==> tx.grant.None?
    ensures
      var u := Put(s, d, tx);
      TxOk(u, d) && forall t :: t in u.charges && u.charges[t].digest == d ==> ChargeOk(u, t)
  {
    hide FourMatch, MeterOf;
    var u := Put(s, d, tx);
    assert TxOk(s, d);
    forall t | t in u.charges && u.charges[t].digest == d ensures ChargeOk(u, t) {
      assert ChargeOk(s, t);
    }
  }

  lemma KeepVisit(s: Limiter, d: Digest, rego: Option<bool>)
    requires Inv(s) && Enabled(s, Visit(d, rego))
    ensures Inv(Put(s, d, Visited(s, d, rego)))
  {
    hide CountersOk, BoundOk, WindowsOk, ChargesOk, TableOk, PartlyMatches, FourMatch, FlowOk;
    VisitedFlow(s, d, rego);
    assert TxOk(s, d);
    MovedBehind(s, d, Visited(s, d, rego));
    KeepMove(s, d, Visited(s, d, rego));
  }

  lemma VisitedFlow(s: Limiter, d: Digest, rego: Option<bool>)
    requires d in s.txs && TxOk(s, d) && FlowOk(s, d) && Enabled(s, Visit(d, rego))
    ensures FlowOk(Put(s, d, Visited(s, d, rego)), d)
  {
    hide FourMatch, UsageMatches, RegoMatches, MustClaim, Behind;
    var tx, u := s.txs[d], Put(s, d, Visited(s, d, rego));
    var n := tx.phase.next;
    PassedStays(s, u, d, n);
    forall i | 0 <= i < Position(u, u.txs[d]) && MustClaim(u.rules[i], u.txs[d], i)
      ensures exists t :: Behind(u, d, i, t)
    {
      StillMust(u.rules[i], tx, u.txs[d], i);
      if i == n {
        MustPartlyMatch(s.rules[n], u.txs[d], n, rego);
      }
    }
  }

  /** Without a veto, a limited rule whose other predicates hold is not just visited. */
  lemma MustPartlyMatch(r: Rule, tx: Tx, i: nat, rego: Option<bool>)
    requires MustClaim(r, tx, i)
    ensures
      || PartlyMatches(r, tx.ctx, rego)
      || (r.rego.Some? && rego != Some(true) && FourMatch(r, tx.ctx) && i !in tx.vetoed)
  {
  }

  lemma KeepHook(s: Limiter, d: Digest, answer: HookAnswer)
    requires Inv(s) && Enabled(s, HookSays(d, answer))
    ensures Inv(Put(s, d, Answered(s.txs[d], answer)))
  {
    hide CountersOk, BoundOk, WindowsOk, ChargesOk, TableOk, FlowOk;
    AnsweredFlow(s, d, answer);
    InsideRules(s, d);
    assert TxOk(s, d);
    MovedBehind(s, d, Answered(s.txs[d], answer));
    KeepMove(s, d, Answered(s.txs[d], answer));
  }

  lemma InsideRules(s: Limiter, d: Digest)
    requires d in s.txs && FlowOk(s, d)
    ensures Early(s.txs[d].phase) ==> Upto(s.txs[d].phase, |s.rules|) <= |s.rules|
    ensures s.txs[d].phase.Asking? ==> s.rules[s.txs[d].phase.rule].action.CallHook?
  {
    hide MustClaim, UsageMatches;
  }

  lemma AnsweredFlow(s: Limiter, d: Digest, answer: HookAnswer)
    requires d in s.txs && TxOk(s, d) && FlowOk(s, d) && s.txs[d].phase.Asking?
    ensures FlowOk(Put(s, d, Answered(s.txs[d], answer)), d)
  {
    hide UsageMatches, FourMatch;
    var tx, u := s.txs[d], Put(s, d, Answered(s.txs[d], answer));
    PassedStays(s, u, d, tx.phase.rule);
    if s.rules[tx.phase.rule].gasUsage.Some? {
      AskedIsPassed(s, d);
      assert exists t :: Behind(u, d, tx.phase.rule, t) by {
        var t :| Behind(s, d, tx.phase.rule, t);
        assert Behind(u, d, tx.phase.rule, t);
      }
    }
  }

  lemma AskedIsPassed(s: Limiter, d: Digest)
    requires d in s.txs && FlowOk(s, d) && s.txs[d].phase.Asking? && s.rules[s.txs[d].phase.rule].gasUsage.Some?
    ensures exists t :: Behind(s, d, s.txs[d].phase.rule, t)
  {
    var t := s.txs[d].phase.behind.value;
    assert Behind(s, d, s.txs[d].phase.rule, t);
  }

  lemma KeepFails(s: Limiter, d: Digest)
    requires Inv(s) && Enabled(s, CheckFails(d))
    ensures Inv(Put(s, d, s.txs[d].(phase := Finished(None))))
  {
    hide CountersOk, BoundOk, WindowsOk, ChargesOk, TableOk, MustClaim, LetBy;
    var tx := s.txs[d].(phase := Finished(None));
    assert FlowOk(s, d) && TxOk(s, d);
    InsideRules(s, d);
    FlowOn(s, Put(s, d, tx), d);
    MovedBehind(s, d, tx);
    KeepMove(s, d, tx);
  }

  lemma KeepExecuted(s: Limiter, d: Digest, result: Option<nat>, charged: nat)
    requires Inv(s) && Enabled(s, Execute(d, result, charged))
    ensures Inv(Apply(s, Execute(d, result, charged)))
  {
    hide CountersOk, BoundOk, WindowsOk, ChargesOk, TableOk, MustClaim, LetBy;
    var tx := Ran(s.txs[d], result, charged);
    assert FlowOk(s, d) && TxOk(s, d);
    FlowOn(s, Put(s, d, tx), d);
    MovedBehind(s, d, tx);
    KeepMove(s, d, tx);
  }

  lemma KeepArrive(s: Limiter, ctx: Context)
    requires Inv(s) && ctx.digest !in s.txs
    ensures Inv(DoArrive(s, ctx))
  {
    hide CountersOk, BoundOk, FlowsOk, ChargeOk, TxOk, FlowOk;
    var u := DoArrive(s, ctx);
    SumsSame(s, u);
    ArrivedAlone(s, ctx);
    FlowsFrame(s, u, ctx.digest);
    OthersLink(s, u, ctx.digest);
  }

  lemma ArrivedAlone(s: Limiter, ctx: Context)
    requires ChargesOk(s) && TableOk(s) && ctx.digest !in s.txs
    ensures var u := DoArrive(s, ctx);
      TxOk(u, ctx.digest) && FlowOk(u, ctx.digest) && forall t :: t in u.charges ==> u.charges[t].digest != ctx.digest
  {
    forall t | t in s.charges ensures s.charges[t].digest != ctx.digest {
      assert ChargeOk(s, t);
    }
  }

  // ---------------------------------------------------------------- claiming

  /** The counter after the claim is the sum of all charges of its window, with the new one. */
  lemma ClaimSums(s: Limiter, d: Digest, rego: Option<bool>)
    requires CountersOk(s) && BoundOk(s) && Enabled(s, ClaimGas(d, rego)) && SafeStep(s, ClaimGas(d, rego))
    requires s.nextTicket !in s.charges
    ensures
      var u := DoClaim(s, d);
      CountersOk(u) && BoundOk(u)
      && u.charges[s.nextTicket].total == CounterOf(s.counters, u.charges[s.nextTicket].meter) + s.txs[d].ctx.budget
  {
    hide Sum, MeterOf;
    var u := DoClaim(s, d);
    var t, c := s.nextTicket, u.charges[s.nextTicket];
    forall m
      ensures CounterOf(u.counters, m) == Sum(u.charges, m, WindowOf(u, m), None) && CounterOf(u.counters, m) <= MAX_I64
    {
      SumAdd(s.charges, t, c, m, WindowOf(s, m), None);
    }
    forall m, window, limit: nat ensures Sum(u.charges, m, window, Some(limit)) <= limit {
      SumAdd(s.charges, t, c, m, window, Some(limit));
      SumWithin(u.charges, m, window, Some(limit));
      if Counts(c, m, window, Some(limit)) {
        assert CounterOf(u.counters, m) == Sum(u.charges, m, WindowOf(u, m), None);
      }
    }
  }

  lemma KeepClaim(s: Limiter, d: Digest, rego: Option<bool>)
    requires Inv(s) && Enabled(s, ClaimGas(d, rego)) && SafeStep(s, ClaimGas(d, rego))
    ensures Inv(DoClaim(s, d))
  {
    hide CountersOk, BoundOk, WindowsOk, ChargesOk, TxsOk, TableOk, FlowsOk, ChargeOk, FlowOk;
    FreshTicket(s);
    ClaimSums(s, d, rego);
    ClaimLinks(s, d, rego);
    ClaimFlows(s, d, rego);
  }

  lemma FreshTicket(s: Limiter)
    requires ChargesOk(s)
    ensures s.nextTicket !in s.charges
  {
    hide ChargeOk;
    forall t | t in s.charges ensures t < s.nextTicket {
      TicketBelow(s, t);
    }
  }

  lemma TicketBelow(s: Limiter, t: nat)
    requires t in s.charges && ChargeOk(s, t)
    ensures t < s.nextTicket
  {
  }

  lemma ClaimLinks(s: Limiter, d: Digest, rego: Option<bool>)
    requires Inv(s) && Enabled(s, ClaimGas(d, rego)) && SafeStep(s, ClaimGas(d, rego)) && s.nextTicket !in s.charges
    ensures var u := DoClaim(s, d); WindowsOk(u) && ChargesOk(u) && TxsOk(u) && TableOk(u)
  {
    hide CountersOk, BoundOk, FlowsOk, ChargeOk, TxOk, Sum, PartlyMatches, MeterOf, OnlyTouches, WindowsOk, TableOk;
    var u := DoClaim(s, d);
    ClaimOwn(s, d, rego);
    ClaimRest(s, d);
    OthersLink(s, u, d);
  }

  lemma ClaimRest(s: Limiter, d: Digest)
    requires d in s.txs && s.txs[d].phase.Checking? && s.txs[d].phase.next < |s.rules|
    requires s.rules[s.txs[d].phase.next].gasUsage.Some?
    requires WindowsOk(s) && TableOk(s) && s.nextTicket !in s.charges
    ensures var u := DoClaim(s, d); OnlyTouches(s, u, d) && WindowsOk(u) && TableOk(u)
  {
    hide MeterOf, Increment, TableOk;
    ClaimTable(s, d);
  }

  lemma ClaimTable(s: Limiter, d: Digest)
    requires d in s.txs && s.txs[d].phase.Checking? && s.txs[d].phase.next < |s.rules|
    requires s.rules[s.txs[d].phase.next].gasUsage.Some?
    requires TableOk(s) && s.nextTicket !in s.charges
    ensures TableOk(DoClaim(s, d))
  {
    hide MeterOf, Increment;
  }

  lemma ClaimOwn(s: Limiter, d: Digest, rego: Option<bool>)
    requires CountersOk(s) && ChargesOk(s) && TxsOk(s) && Enabled(s, ClaimGas(d, rego))
    requires SafeStep(s, ClaimGas(d, rego))
    requires s.nextTicket !in s.charges
    ensures
      var u := DoClaim(s, d);
      TxOk(u, d) && forall t :: t in u.charges && u.charges[t].digest == d ==> ChargeOk(u, t)
  {
    hide Sum, FourMatch, RegoMatches, MeterOf;
    var u := DoClaim(s, d);
    assert TxOk(s, d);
    forall t | t in u.charges && u.charges[t].digest == d ensures ChargeOk(u, t) {
      if t != s.nextTicket {
        assert ChargeOk(s, t);
      }
    }
  }

  lemma ClaimFlows(s: Limiter, d: Digest, rego: Option<bool>)
    requires FlowsOk(s) && Enabled(s, ClaimGas(d, rego)) && s.nextTicket !in s.charges
    requires TxsOk(s)
    ensures FlowsOk(DoClaim(s, d))
  {
    hide MustClaim, MeterOf, LetBy;
    var u := DoClaim(s, d);
    assert FlowOk(s, d) && TxOk(s, d);
    FlowOn(s, u, d);
    FlowsFrame(s, u, d);
  }

  // ---------------------------------------------------------------- recording

  lemma KeepRecord(s: Limiter, d: Digest)
    requires Inv(s) && Enabled(s, Record(d))
    ensures Inv(DoRecord(s, d))
  {
    hide CountersOk, BoundOk, WindowsOk, ChargesOk, TxsOk, TableOk, FlowsOk, Act, UsageMatches;
    RecordSums(s, d);
    RecordLinks(s, d);
    RecordFlows(s, d);
  }

  lemma RecordSums(s: Limiter, d: Digest)
    requires CountersOk(s) && BoundOk(s) && Enabled(s, Record(d))
    ensures CountersOk(DoRecord(s, d)) && BoundOk(DoRecord(s, d))
  {
    hide Sum, Mark, CountersOk, BoundOk, Act, UsageMatches, MeterOf;
    var u := DoRecord(s, d);
    var lost := if d in s.tickets then Mark(s.charges, s.tickets[d], Lost) else s.charges;
    forall m, window, limit ensures Sum(u.charges, m, window, limit) == Sum(s.charges, m, window, limit) {
      if d in s.tickets {
        SumMark(s.charges, s.tickets[d], Lost, m, window, limit);
      }
      SumMark(lost, s.txs[d].phase.ticket, Recorded, m, window, limit);
    }
    SumsSame(s, u);
  }

  lemma ActKeeps(tx: Tx, action: Action, i: nat, ticket: Option<nat>)
    ensures var a := Act(tx, action, i, ticket);
      && !a.phase.Checking?
      && a.ctx == tx.ctx && Used(a) == Used(tx) && (Early(a.phase) || a.phase == Finished(None))
      && (a.phase.Asking? ==> a.grant == tx.grant)
      && forall n: nat :: i < n ==> i < Upto(a.phase, n)
  {
  }

  lemma RecordLinks(s: Limiter, d: Digest)
    requires Inv(s) && Enabled(s, Record(d))
    ensures var u := DoRecord(s, d); WindowsOk(u) && ChargesOk(u) && TxsOk(u) && TableOk(u)
  {
    hide CountersOk, BoundOk, FlowsOk, ChargeOk, TxOk, Act, UsageMatches, MeterOf;
    var u := DoRecord(s, d);
    RecordOwn(s, d);
    OthersLink(s, u, d);
  }

  lemma RecordOwn(s: Limiter, d: Digest)
    requires ChargesOk(s) && TxsOk(s) && TableOk(s) && WindowsOk(s) && Enabled(s, Record(d))
    ensures
      var u := DoRecord(s, d);
      && TxOk(u, d) && OnlyTouches(s, u, d) && WindowsOk(u) && TableOk(u)
      && forall t :: t in u.charges && u.charges[t].digest == d ==> ChargeOk(u, t)
  {
    hide Act, UsageMatches, MeterOf, ChargeOk, TxOk, Mark, OnlyTouches, WindowsOk;
    var u := DoRecord(s, d);
    var ticket := s.txs[d].phase.ticket;
    ActKeeps(s.txs[d], s.rules[s.txs[d].phase.rule].action, s.txs[d].phase.rule, Some(ticket));
    RecordCharges(s, d);
    RecordRest(s, d);
    forall t | t in u.charges && u.charges[t].digest == d ensures ChargeOk(u, t) {
      RecordCharge(s, d, t);
    }
  }

  /** What recording does to the charges: the new one is recorded, an earlier recorded one is lost. */
  lemma RecordCharges(s: Limiter, d: Digest)
    requires TxsOk(s) && TableOk(s) && Enabled(s, Record(d))
    ensures
      var u, ticket := DoRecord(s, d), s.txs[d].phase.ticket;
      && u.charges.Keys == s.charges.Keys && ticket in s.charges && s.charges[ticket].state.Fresh?
      && s.charges[ticket].digest == d
      && (d in s.tickets ==> s.tickets[d] != ticket && s.tickets[d] in s.charges && s.charges[s.tickets[d]].digest == d)
      && forall t :: t in s.charges ==> u.charges[t] == s.charges[t].(state :=
           if t == ticket then Recorded else if d in s.tickets && t == s.tickets[d] then Lost else s.charges[t].state)
  {
    hide Act, UsageMatches, MeterOf;
    assert TxOk(s, d);
  }

  /** The charges after recording, as one or two changes of `d`'s own. */
  lemma RecordRest(s: Limiter, d: Digest)
    requires ChargesOk(s) && TxsOk(s) && TableOk(s) && WindowsOk(s) && Enabled(s, Record(d))
    ensures var u := DoRecord(s, d); TxOk(u, d) && OnlyTouches(s, u, d) && WindowsOk(u) && TableOk(u)
  {
    hide Act, UsageMatches, MeterOf, Mark, ChargesOk, TxsOk, TxOk, TableOk;
    var u := DoRecord(s, d);
    RecordCharges(s, d);
    RecordTable(s, d);
    RecordTx(s, d);
  }

  lemma RecordTx(s: Limiter, d: Digest)
    requires TxsOk(s) && Enabled(s, Record(d))
    ensures TxOk(DoRecord(s, d), d)
  {
    hide Act, UsageMatches, MeterOf, Mark;
    var Claimed(i, total, ticket) := s.txs[d].phase;
    ActKeeps(s.txs[d], s.rules[i].action, i, Some(ticket));
    assert TxOk(s, d);
  }

  lemma RecordTable(s: Limiter, d: Digest)
    requires ChargesOk(s) && TxsOk(s) && TableOk(s) && Enabled(s, Record(d))
    ensures TableOk(DoRecord(s, d)) && DoRecord(s, d).txs[d].ctx == s.txs[d].ctx
  {
    hide Act, UsageMatches, MeterOf, Mark, ChargesOk, TxsOk;
    var Claimed(i, total, ticket) := s.txs[d].phase;
    RecordCharges(s, d);
    ActKeeps(s.txs[d], s.rules[i].action, i, Some(ticket));
    ClaimedMeter(s, d);
  }

  lemma ClaimedMeter(s: Limiter, d: Digest)
    requires ChargesOk(s) && TxsOk(s) && Enabled(s, Record(d))
    ensures s.txs[d].phase.ticket in s.charges
    ensures s.charges[s.txs[d].phase.ticket].meter == MeterOf(s.rules[s.txs[d].phase.rule], s.txs[d].ctx)
  {
    assert TxOk(s, d) && ChargeOk(s, s.txs[d].phase.ticket);
  }

  lemma RecordCharge(s: Limiter, d: Digest, t: nat)
    requires ChargesOk(s) && TxsOk(s) && TableOk(s) && Enabled(s, Record(d))
    requires t in s.charges && s.charges[t].digest == d && t in DoRecord(s, d).charges
    ensures ChargeOk(DoRecord(s, d), t)
  {
    hide Act, UsageMatches, MeterOf, Mark, TxsOk, TableOk, DoRecord, FourMatch;
    RecordCharges(s, d);
    RecordedTx(s, d);
    ClaimedUsed(s, d);
    assert ChargeOk(s, t);
  }

  lemma RecordedTx(s: Limiter, d: Digest)
    requires TxsOk(s) && Enabled(s, Record(d))
    ensures
      var u := DoRecord(s, d);
      && u.rules == s.rules && u.nextTicket == s.nextTicket && d in u.txs
      && u.txs[d].ctx == s.txs[d].ctx && Used(u.txs[d]) == Used(s.txs[d]) == 0
      && s.txs[d].phase.rule < Upto(u.txs[d].phase, |s.rules|)
      && u.tickets == s.tickets[d := s.txs[d].phase.ticket]
      && u.policy == s.policy
      && (Position(u, u.txs[d]) <= s.txs[d].phase.rule
          || (Position(u, u.txs[d]) == s.txs[d].phase.rule + 1
              && !UsageMatches(s.rules[s.txs[d].phase.rule], s.txs[d].phase.total)))
  {
    hide UsageMatches, MeterOf, Mark;
    ActKeeps(s.txs[d], s.rules[s.txs[d].phase.rule].action, s.txs[d].phase.rule, Some(s.txs[d].phase.ticket));
    ClaimedUsed(s, d);
  }

  lemma ClaimedUsed(s: Limiter, d: Digest)
    requires TxsOk(s) && Enabled(s, Record(d))
    ensures Used(s.txs[d]) == 0 && s.txs[d].grant.None?
    ensures
      var t := s.txs[d].phase.ticket;
      t in s.charges && s.charges[t].rule == s.txs[d].phase.rule && s.charges[t].total == s.txs[d].phase.total
  {
    assert TxOk(s, d);
  }

  lemma RecordFlows(s: Limiter, d: Digest)
    requires Inv(s) && Enabled(s, Record(d))
    ensures FlowsOk(DoRecord(s, d))
  {
    hide CountersOk, BoundOk, WindowsOk, ChargesOk, TableOk, UsageMatches, MeterOf, MustClaim, FlowOk, Act, Mark;
    var u := DoRecord(s, d);
    RecordExtends(s, d);
    RecordedFlow(s, u, d);
    FlowsFrame(s, u, d);
  }

  lemma RecordExtends(s: Limiter, d: Digest)
    requires Enabled(s, Record(d))
    ensures Extends(s.charges, DoRecord(s, d).charges)
  {
    hide UsageMatches, MeterOf, Act;
  }

  lemma RecordedFlow(s: Limiter, u: Limiter, d: Digest)
    requires d in s.txs && TxOk(s, d) && FlowOk(s, d) && Enabled(s, Record(d))
    requires Extends(s.charges, u.charges) && u.rules == s.rules && u.policy == s.policy
    requires d in u.txs && u.txs[d] == DoRecord(s, d).txs[d]
    ensures FlowOk(u, d)
  {
    hide UsageMatches, MeterOf, MustClaim, Mark;
    var Claimed(i, total, ticket) := s.txs[d].phase;
    PassedStays(s, u, d, i);
    forall j | 0 <= j < i && MustClaim(u.rules[j], u.txs[d], j) ensures exists t :: Behind(u, d, j, t) {
      StillMust(u.rules[j], s.txs[d], u.txs[d], j);
    }
    assert Behind(u, d, i, ticket) && u.charges[ticket].total == total;
  }

  // ---------------------------------------------------------------- losing the reply

  lemma KeepClaimLost(s: Limiter, d: Digest)
    requires Inv(s) && Enabled(s, ClaimLost(d))
    ensures Inv(Apply(s, ClaimLost(d)))
  {
    hide CountersOk, BoundOk, WindowsOk, TableOk, FlowOk, ChargeOk, TxOk, Sum, Mark;
    var u := Apply(s, ClaimLost(d));
    forall m, window, limit ensures Sum(u.charges, m, window, limit) == Sum(s.charges, m, window, limit) {
      SumMark(s.charges, s.txs[d].phase.ticket, Lost, m, window, limit);
    }
    SumsSame(s, u);
    DropOwn(s, d);
    DropFlow(s, d);
    FlowsFrame(s, u, d);
    OthersLink(s, u, d);
  }

  lemma DropOwn(s: Limiter, d: Digest)
    requires ChargesOk(s) && TxsOk(s) && TableOk(s) && WindowsOk(s) && Enabled(s, ClaimLost(d))
    ensures
      var u := Apply(s, ClaimLost(d));
      && TxOk(u, d) && OnlyTouches(s, u, d) && WindowsOk(u) && TableOk(u) && Extends(s.charges, u.charges)
      && forall t :: t in u.charges && u.charges[t].digest == d ==> ChargeOk(u, t)
  {
    hide ChargeOk, TxOk, OnlyTouches, WindowsOk, TableOk, Extends, Mark;
    var u := Apply(s, ClaimLost(d));
    DropRest(s, d);
    forall t | t in u.charges && u.charges[t].digest == d ensures ChargeOk(u, t) {
      DropCharge(s, d, t);
    }
  }

  lemma DropRest(s: Limiter, d: Digest)
    requires TxsOk(s) && TableOk(s) && WindowsOk(s) && Enabled(s, ClaimLost(d))
    ensures
      var u := Apply(s, ClaimLost(d));
      TxOk(u, d) && OnlyTouches(s, u, d) && WindowsOk(u) && TableOk(u) && Extends(s.charges, u.charges)
      && u.charges.Keys == s.charges.Keys
  {
    hide TxsOk, OnlyTouches, Extends, WindowsOk, TableOk, Pending;
    EachTx(s, d);
    var u, t := Apply(s, ClaimLost(d)), s.txs[d].phase.ticket;
    PendingStates(s.charges[t], u.charges[t]);
    OneCharge(s, u, d, t, s.charges[t].amount, Lost);
    DropTable(s, d);
  }

  /** The charge that loses its reply is not in the table. */
  lemma DropTable(s: Limiter, d: Digest)
    requires TableOk(s) && d in s.txs && TxOk(s, d) && Enabled(s, ClaimLost(d))
    ensures TableOk(Apply(s, ClaimLost(d)))
  {
    forall e | e in s.tickets ensures s.tickets[e] != s.txs[d].phase.ticket {
    }
  }

  lemma DropCharge(s: Limiter, d: Digest, t: nat)
    requires ChargesOk(s) && TxsOk(s) && Enabled(s, ClaimLost(d))
    requires var u := Apply(s, ClaimLost(d)); t in u.charges && u.charges[t].digest == d
    ensures ChargeOk(Apply(s, ClaimLost(d)), t)
  {
    hide FourMatch, MeterOf, TxsOk, UsageMatches;
    EachTx(s, d);
    assert ChargeOk(s, t) && ChargeOk(s, s.txs[d].phase.ticket);
  }

  lemma DropFlow(s: Limiter, d: Digest)
    requires FlowsOk(s) && TxsOk(s) && Enabled(s, ClaimLost(d)) && Extends(s.charges, Apply(s, ClaimLost(d)).charges)
    ensures FlowOk(Apply(s, ClaimLost(d)), d)
  {
    hide MustClaim, LetBy, Extends, Mark;
    assert FlowOk(s, d) && TxOk(s, d);
    FlowOn(s, Apply(s, ClaimLost(d)), d);
  }

  // ---------------------------------------------------------------- settling

  lemma KeepTake(s: Limiter, d: Digest)
    requires Inv(s) && Enabled(s, TakeRequest(d))
    ensures Inv(DoTake(s, d))
  {
    hide CountersOk, BoundOk, WindowsOk, TableOk, FlowOk, ChargeOk, TxOk, Sum, Mark;
    var u := DoTake(s, d);
    if d in s.requests {
      forall m, window, limit ensures Sum(u.charges, m, window, limit) == Sum(s.charges, m, window, limit) {
        SumMark(s.charges, s.tickets[d], Taken, m, window, limit);
      }
    }
    SumsSame(s, u);
    TakeOwn(s, d);
    EndFlow(s, u, d);
    FlowsFrame(s, u, d);
    OthersLink(s, u, d);
  }

  lemma TakeOwn(s: Limiter, d: Digest)
    requires ChargesOk(s) && TxsOk(s) && TableOk(s) && WindowsOk(s) && Enabled(s, TakeRequest(d))
    ensures
      var u := DoTake(s, d);
      && TxOk(u, d) && OnlyTouches(s, u, d) && WindowsOk(u) && TableOk(u) && Extends(s.charges, u.charges)
      && forall t :: t in u.charges && u.charges[t].digest == d ==> ChargeOk(u, t)
  {
    hide ChargeOk, TxOk, OnlyTouches, WindowsOk, TableOk, Mark, Extends;
    var u := DoTake(s, d);
    TakeRest(s, d);
    forall t | t in u.charges && u.charges[t].digest == d ensures ChargeOk(u, t) {
      TakeCharge(s, d, t);
    }
  }

  lemma TakeRest(s: Limiter, d: Digest)
    requires TxsOk(s) && TableOk(s) && WindowsOk(s) && Enabled(s, TakeRequest(d))
    ensures
      var u := DoTake(s, d);
      TxOk(u, d) && OnlyTouches(s, u, d) && WindowsOk(u) && TableOk(u) && Extends(s.charges, u.charges)
      && u.charges.Keys == s.charges.Keys
  {
    hide TxOk, TxsOk, OnlyTouches, Extends, WindowsOk, Pending;
    var u := DoTake(s, d);
    if d in s.requests {
      var t := s.tickets[d];
      PendingStates(s.charges[t], u.charges[t]);
      OneCharge(s, u, d, t, s.charges[t].amount, Taken);
    } else {
      assert u.tickets - {d} == s.tickets - {d};
      NoCharge(s, u, d);
    }
    assert u.requests == s.requests - {d} && u.tickets == s.tickets - {d};
    TableLoses(s, u, d);
    TakeTx(s, d);
  }

  lemma PendingStates(a: Charge, b: Charge)
    requires a.state.Fresh? || a.state.Recorded? || a.state.Taken?
    ensures Pending(b) ==> Pending(a)
  {
  }

  lemma NoCharge(s: Limiter, u: Limiter, d: Digest)
    requires u == s.(txs := u.txs) && d in u.txs && u.txs == s.txs[d := u.txs[d]]
    ensures OnlyTouches(s, u, d) && Extends(s.charges, u.charges) && (WindowsOk(s) ==> WindowsOk(u))
  {
  }

  lemma TakeTx(s: Limiter, d: Digest)
    requires TxsOk(s) && TableOk(s) && Enabled(s, TakeRequest(d))
    ensures TxOk(DoTake(s, d), d)
  {
    assert TxOk(s, d);
  }

  lemma TakeCharge(s: Limiter, d: Digest, t: nat)
    requires ChargesOk(s) && TxsOk(s) && TableOk(s) && Enabled(s, TakeRequest(d))
    requires t in DoTake(s, d).charges && DoTake(s, d).charges[t].digest == d
    ensures ChargeOk(DoTake(s, d), t)
  {
    hide FourMatch, MeterOf, UsageMatches, TxsOk, TxOk, TableOk, DoTake;
    TakenIs(s, d);
    assert ChargeOk(s, t);
    if d in s.tickets {
      assert t == s.tickets[d] || !s.charges[t].state.Recorded?;
    }
  }

  lemma TakenIs(s: Limiter, d: Digest)
    requires TxsOk(s) && TableOk(s) && Enabled(s, TakeRequest(d))
    ensures
      var u := DoTake(s, d);
      && u.charges.Keys == s.charges.Keys && (d in s.requests <==> d in s.tickets)
      && u.rules == s.rules && u.policy == s.policy && u.nextTicket == s.nextTicket
      && d in u.txs && u.txs[d].ctx == s.txs[d].ctx && u.txs[d].reported == s.txs[d].reported
      && u.txs[d].grant == s.txs[d].grant
      && (if d in s.tickets then
            u.txs[d].phase.Settling? && u.txs[d].phase.ticket == s.tickets[d]
            && s.tickets[d] in s.charges && s.charges[s.tickets[d]].state.Recorded?
            && u.charges == s.charges[s.tickets[d] := s.charges[s.tickets[d]].(state := Taken)]
          else u.charges == s.charges && u.txs[d].phase.Done?)
  {
  }

  /** On the way out, a transaction's grant and usage stay as they are. */
  lemma EndFlow(s: Limiter, u: Limiter, d: Digest)
    requires d in s.txs && FlowOk(s, d) && Extends(s.charges, u.charges) && u.rules == s.rules && u.policy == s.policy
    requires s.txs[d].phase.Finished? || s.txs[d].phase.Settling?
    requires d in u.txs && u.txs[d] == s.txs[d].(phase := u.txs[d].phase)
    requires (u.txs[d].phase.Settling? || u.txs[d].phase.Done?)
    ensures FlowOk(u, d)
  {
    hide MustClaim, LetBy;
    FlowOn(s, u, d);
  }

  lemma RefundIs(req: Request, result: Option<nat>)
    requires req.gasUsage <= MAX_I64 && (result.Some? ==> result.value <= req.gasUsage)
    ensures
      var refund: int := Refund(req, result);
      0 <= refund <= req.gasUsage && AsI64(-AsI64(refund)) == -refund
      && req.gasUsage - refund == if result.Some? then result.value else 0
  {
  }

  lemma SettleFacts(s: Limiter, d: Digest)
    requires ChargesOk(s) && TxsOk(s) && d in s.txs && s.txs[d].phase.Settling?
    ensures
      var Settling(req, result, t) := s.txs[d].phase;
      var refund: int := Refund(req, result);
      && t in s.charges && req.gasUsage == s.charges[t].amount == s.txs[d].ctx.budget && req.meter == s.charges[t].meter
      && 0 <= refund <= req.gasUsage && AsI64(-AsI64(refund)) == -refund
      && req.gasUsage - refund == s.txs[d].reported
      && s.charges[t].digest == d && s.charges[t].state.Taken?
  {
    hide MeterOf, AsI64, Refund;
    assert TxOk(s, d) && ChargeOk(s, s.txs[d].phase.ticket);
    RefundIs(s.txs[d].phase.request, s.txs[d].phase.result);
  }

  /** A settlement lowers a counter of the current window, and can only lower what counts under a limit. */
  lemma SettleSums(s: Limiter, d: Digest)
    requires Inv(s) && Enabled(s, Settle(d))
    ensures CountersOk(DoSettle(s, d)) && BoundOk(DoSettle(s, d))
  {
    hide Sum, ChargesOk, TxsOk, TableOk, FlowsOk, Refund, AsI64;
    SettleFacts(s, d);
    var u := DoSettle(s, d);
    var Settling(req, result, t) := s.txs[d].phase;
    assert Pending(s.charges[t]);
    SumChange(s.charges, t, s.txs[d].reported, Settled, req.meter, WindowOf(s, req.meter), None);
    forall m
      ensures CounterOf(u.counters, m) == Sum(u.charges, m, WindowOf(u, m), None) && CounterOf(u.counters, m) <= MAX_I64
    {
      SumChange(s.charges, t, s.txs[d].reported, Settled, m, WindowOf(s, m), None);
    }
    forall m, window, limit: nat ensures Sum(u.charges, m, window, Some(limit)) <= limit {
      SumChange(s.charges, t, s.txs[d].reported, Settled, m, window, Some(limit));
    }
  }

  lemma KeepSettle(s: Limiter, d: Digest)
    requires Inv(s) && Enabled(s, Settle(d))
    ensures Inv(DoSettle(s, d))
  {
    hide CountersOk, BoundOk, WindowsOk, TableOk, FlowOk, ChargeOk, TxOk, Sum, Refund, AsI64, Increment;
    SettleSums(s, d);
    SettleOwn(s, d);
    EndFlow(s, DoSettle(s, d), d);
    FlowsFrame(s, DoSettle(s, d), d);
    OthersLink(s, DoSettle(s, d), d);
  }

  lemma SettleOwn(s: Limiter, d: Digest)
    requires ChargesOk(s) && TxsOk(s) && TableOk(s) && WindowsOk(s) && Enabled(s, Settle(d))
    ensures
      var u := DoSettle(s, d);
      && TxOk(u, d) && OnlyTouches(s, u, d) && WindowsOk(u) && TableOk(u) && Extends(s.charges, u.charges)
      && forall t :: t in u.charges && u.charges[t].digest == d ==> ChargeOk(u, t)
  {
    hide ChargeOk, TxOk, OnlyTouches, WindowsOk, TableOk, Extends, Increment, Refund, AsI64;
    var u := DoSettle(s, d);
    SettleRest(s, d);
    forall t | t in u.charges && u.charges[t].digest == d ensures ChargeOk(u, t) {
      SettleCharge(s, d, t);
    }
  }

  lemma SettleRest(s: Limiter, d: Digest)
    requires ChargesOk(s) && TxsOk(s) && TableOk(s) && WindowsOk(s) && Enabled(s, Settle(d))
    ensures
      var u := DoSettle(s, d);
      TxOk(u, d) && OnlyTouches(s, u, d) && WindowsOk(u) && TableOk(u) && Extends(s.charges, u.charges)
      && u.charges.Keys == s.charges.Keys
  {
    hide Increment, Refund, AsI64, ChargesOk, TxsOk, TxOk, OnlyTouches, Extends, WindowsOk, TableOk, Pending;
    SettleFacts(s, d);
    EachTx(s, d);
    var u, t := DoSettle(s, d), s.txs[d].phase.ticket;
    PendingStates(s.charges[t], u.charges[t]);
    OneCharge(s, u, d, t, s.txs[d].reported, Settled);
    NotInTable(s, d);
    TableLoses(s, u, d);
    DoneTx(s, u, d);
  }

  lemma NotInTable(s: Limiter, d: Digest)
    requires TableOk(s) && d in s.txs && TxOk(s, d) && s.txs[d].phase.Settling?
    ensures d !in s.tickets && s.requests == s.requests - {d} && s.tickets == s.tickets - {d}
  {
  }

  lemma DoneTx(s: Limiter, u: Limiter, d: Digest)
    requires d in s.txs && TxOk(s, d) && s.txs[d].phase.Settling? && d in u.txs && u.txs[d] == s.txs[d].(phase := Done)
    requires u.tickets == s.tickets
    ensures TxOk(u, d)
  {
  }

  lemma EachTx(s: Limiter, d: Digest)
    requires TxsOk(s) && d in s.txs
    ensures TxOk(s, d)
  {
  }

  lemma SettleCharge(s: Limiter, d: Digest, t: nat)
    requires ChargesOk(s) && TxsOk(s) && Enabled(s, Settle(d))
    requires t in DoSettle(s, d).charges && DoSettle(s, d).charges[t].digest == d
    ensures ChargeOk(DoSettle(s, d), t)
  {
    hide FourMatch, MeterOf, TxsOk, Refund, AsI64, Increment, UsageMatches;
    SettleFacts(s, d);
    assert ChargeOk(s, t);
  }

  lemma KeepSettleFails(s: Limiter, d: Digest)
    requires Inv(s) && Enabled(s, SettleFails(d, false))
    ensures Inv(Apply(s, SettleFails(d, false)))
  {
    hide CountersOk, BoundOk, WindowsOk, TableOk, FlowOk, ChargeOk, TxOk, Sum, Mark;
    var u := Apply(s, SettleFails(d, false));
    forall m, window, limit ensures Sum(u.charges, m, window, limit) == Sum(s.charges, m, window, limit) {
      SumMark(s.charges, s.txs[d].phase.ticket, Lost, m, window, limit);
    }
    SumsSame(s, u);
    LoseOwn(s, d);
    EndFlow(s, u, d);
    FlowsFrame(s, u, d);
    OthersLink(s, u, d);
  }

  lemma LoseOwn(s: Limiter, d: Digest)
    requires ChargesOk(s) && TxsOk(s) && TableOk(s) && WindowsOk(s) && Enabled(s, SettleFails(d, false))
    ensures
      var u := Apply(s, SettleFails(d, false));
      && TxOk(u, d) && OnlyTouches(s, u, d) && WindowsOk(u) && TableOk(u) && Extends(s.charges, u.charges)
      && forall t :: t in u.charges && u.charges[t].digest == d ==> ChargeOk(u, t)
  {
    hide ChargeOk, TxOk, OnlyTouches, WindowsOk, TableOk, Extends, Mark;
    var u := Apply(s, SettleFails(d, false));
    LoseRest(s, d);
    forall t | t in u.charges && u.charges[t].digest == d ensures ChargeOk(u, t) {
      LoseCharge(s, d, t);
    }
  }

  lemma LoseRest(s: Limiter, d: Digest)
    requires TxsOk(s) && TableOk(s) && WindowsOk(s) && Enabled(s, SettleFails(d, false))
    ensures
      var u := Apply(s, SettleFails(d, false));
      TxOk(u, d) && OnlyTouches(s, u, d) && WindowsOk(u) && TableOk(u) && Extends(s.charges, u.charges)
      && u.charges.Keys == s.charges.Keys
  {
    hide TxsOk, OnlyTouches, Extends, WindowsOk, TableOk, Pending;
    EachTx(s, d);
    var u, t := Apply(s, SettleFails(d, false)), s.txs[d].phase.ticket;
    PendingStates(s.charges[t], u.charges[t]);
    OneCharge(s, u, d, t, s.charges[t].amount, Lost);
    NotInTable(s, d);
    TableLoses(s, u, d);
    DoneTx(s, u, d);
  }

  lemma LoseCharge(s: Limiter, d: Digest, t: nat)
    requires ChargesOk(s) && TxsOk(s) && Enabled(s, SettleFails(d, false))
    requires var u := Apply(s, SettleFails(d, false)); t in u.charges && u.charges[t].digest == d
    ensures ChargeOk(Apply(s, SettleFails(d, false)), t)
  {
    hide FourMatch, MeterOf, TxsOk, Refund, AsI64, UsageMatches;
    SettleFacts(s, d);
    assert ChargeOk(s, t);
  }

  // ---------------------------------------------------------------- a window ends

  lemma SumOfNone(charges: map<nat, Charge>, m: Meter, window: nat)
    requires forall t :: t in charges && charges[t].meter == m ==> charges[t].window < window
    ensures Sum(charges, m, window, None) == 0
  {
    assert Amounts(charges, m, window, None) == map[];
  }

  lemma KeepExpireCounter(s: Limiter, m: Meter)
    requires Inv(s) && NonePending(s, m)
    ensures Inv(Apply(s, ExpireCounter(m)))
  {
    hide FlowsOk, ChargesOk, TxsOk, TableOk, Sum;
    var u := Apply(s, ExpireCounter(m));
    forall n
      ensures CounterOf(u.counters, n) == Sum(u.charges, n, WindowOf(u, n), None) && CounterOf(u.counters, n) <= MAX_I64
    {
      if n == m {
        SumOfNone(s.charges, m, WindowOf(u, m));
        assert m !in u.counters;
      } else {
        assert WindowOf(u, n) == WindowOf(s, n) && CounterOf(u.counters, n) == CounterOf(s.counters, n);
      }
    }
    SameLinks(s, u);
  }

  lemma SameLinks(s: Limiter, u: Limiter)
    requires ChargesOk(s) && TxsOk(s) && TableOk(s) && FlowsOk(s)
    requires u == s.(counters := u.counters, windows := u.windows)
    ensures ChargesOk(u) && TxsOk(u) && TableOk(u) && FlowsOk(u)
  {
    hide ChargeOk, TxOk, FlowOk;
    forall t | t in u.charges ensures ChargeOk(u, t) {
      SameCharge(s, u, t);
    }
    forall e | e in u.txs ensures TxOk(u, e) && FlowOk(u, e) {
      SameTx(s, u, e);
      FlowFrame(s, u, e);
    }
  }

  lemma SameCharge(s: Limiter, u: Limiter, t: nat)
    requires t in s.charges && ChargeOk(s, t) && u == s.(counters := u.counters, windows := u.windows)
    ensures ChargeOk(u, t)
  {
  }

  lemma SameTx(s: Limiter, u: Limiter, e: Digest)
    requires e in s.txs && TxOk(s, e) && u == s.(counters := u.counters, windows := u.windows)
    ensures TxOk(u, e)
  {
  }

  // ---------------------------------------------------------------- all steps

  lemma KeepStep(s: Limiter, st: Step)
    requires Inv(s) && Enabled(s, st) && SafeStep(s, st)
    ensures Inv(Apply(s, st))
  {
    hide Inv, Visited, Answered, DoArrive, DoClaim, DoRecord, DoTake, DoSettle, NonePending;
    match st
    case Arrive(ctx) => KeepArrive(s, ctx);
    case Visit(d, rego) => KeepVisit(s, d, rego);
    case ClaimGas(d, rego) => KeepClaim(s, d, rego);
    case Record(d) => KeepRecord(s, d);
    case ClaimLost(d) => KeepClaimLost(s, d);
    case HookSays(d, answer) => KeepHook(s, d, answer);
    case CheckFails(d) => KeepFails(s, d);
    case Execute(d, result, charged) => KeepExecuted(s, d, result, charged);
    case TakeRequest(d) => KeepTake(s, d);
    case Settle(d) => KeepSettle(s, d);
    case SettleFails(d, applied) =>
      if applied {
        KeepSettle(s, d);
      } else {
        KeepSettleFails(s, d);
      }
    case ExpireCounter(m) => KeepExpireCounter(s, m);
  }

  lemma StartInv(rules: seq<Rule>, policy: Policy)
    ensures Inv(Start(rules, policy))
  {
    var s := Start(rules, policy);
    forall m, window, limit ensures Sum(s.charges, m, window, limit) == 0 {
      assert Amounts(s.charges, m, window, limit) == map[];
    }
  }

  lemma {:induction false} KeepRun(s: Limiter, steps: seq<Step>)
    requires Inv(s) && CanRun(s, steps)
    ensures Inv(Run(s, steps))
    decreases |steps|
  {
    hide Inv, Enabled, SafeStep, Apply;
    if steps != [] {
      KeepStep(s, steps[0]);
      KeepRun(Apply(s, steps[0]), steps[1..]);
    }
  }
}
