/** What every reachable state of the limiter keeps. */
module LimiterInvariant {
  import opened Coins
  import opened Ledger
  import opened Operands
  import opened Rules
  import opened Limiter

  // ---------------------------------------------------------------- sums of charges

  /** The charges of one counter in one of its windows; with a limit, those made while the counter stayed within it. */
  predicate Counts(c: Charge, m: Meter, window: nat, limit: Option<nat>) {
    c.meter == m && c.window == window && (limit.Some? ==> c.total <= limit.value)
  }

  ghost function Amounts(charges: map<nat, Charge>, m: Meter, window: nat, limit: Option<nat>): map<nat, nat> {
    map t | t in charges && Counts(charges[t], m, window, limit) :: charges[t].amount
  }

  ghost function Sum(charges: map<nat, Charge>, m: Meter, window: nat, limit: Option<nat>): nat {
    SumValues(Amounts(charges, m, window, limit))
  }

  lemma SumAdd(charges: map<nat, Charge>, t: nat, c: Charge, m: Meter, window: nat, limit: Option<nat>)
    requires t !in charges
    ensures Sum(charges[t := c], m, window, limit) ==
      Sum(charges, m, window, limit) + if Counts(c, m, window, limit) then c.amount else 0
  {
    var before := Amounts(charges, m, window, limit);
    var after := Amounts(charges[t := c], m, window, limit);
    if Counts(c, m, window, limit) {
      assert after == before[t := c.amount];
      SumInsert(before, t, c.amount);
    } else {
      assert after == before;
    }
  }

  /** Only the amount and the state of one charge change. */
  lemma SumChange(charges: map<nat, Charge>, t: nat, amount: nat, state: ChargeState, m: Meter, window: nat,
      limit: Option<nat>)
    requires t in charges
    ensures Sum(charges[t := charges[t].(amount := amount, state := state)], m, window, limit) ==
      Sum(charges, m, window, limit) + if Counts(charges[t], m, window, limit) then amount - charges[t].amount else 0
  {
    var before := Amounts(charges, m, window, limit);
    var after := Amounts(charges[t := charges[t].(amount := amount, state := state)], m, window, limit);
    if Counts(charges[t], m, window, limit) {
      assert after == before[t := amount];
      SumInsert(before, t, amount);
    } else {
      assert after == before;
    }
  }

  lemma SumMark(charges: map<nat, Charge>, t: nat, state: ChargeState, m: Meter, window: nat, limit: Option<nat>)
    ensures Sum(Mark(charges, t, state), m, window, limit) == Sum(charges, m, window, limit)
  {
    if t in charges {
      SumChange(charges, t, charges[t].amount, state, m, window, limit);
      assert Mark(charges, t, state) == charges[t := charges[t].(amount := charges[t].amount, state := state)];
    }
  }

  /** Termwise comparison along an injection. */
  lemma {:induction false} SumInjects(a: map<nat, nat>, b: map<nat, nat>, f: map<nat, nat>)
    requires f.Keys == a.Keys && (forall k :: k in a ==> f[k] in b && a[k] <= b[f[k]])
    requires forall j, k :: j in f && k in f && j != k ==> f[j] != f[k]
    ensures SumValues(a) <= SumValues(b)
    decreases |a|
  {
    if a != map[] {
      var k :| k in a;
      SumRemove(a, k);
      SumRemove(b, f[k]);
      SumInjects(a - {k}, b - {f[k]}, f - {k});
    }
  }

  /** Fewer charges count under a limit. */
  lemma SumWithin(charges: map<nat, Charge>, m: Meter, window: nat, limit: Option<nat>)
    ensures Sum(charges, m, window, limit) <= Sum(charges, m, window, None)
  {
    var a, b := Amounts(charges, m, window, limit), Amounts(charges, m, window, None);
    SumInjects(a, b, map t | t in a :: t);
  }

  // ---------------------------------------------------------------- the parts

  /** A counter holds what is left of the claims of its current window. */
  ghost predicate CountersOk(s: Limiter) {
    forall m: Meter ::
      && CounterOf(s.counters, m) == Sum(s.charges, m, WindowOf(s, m), None)
      && CounterOf(s.counters, m) <= MAX_I64
  }

  /** In every window, the claims made while the counter stayed within a limit never add up to more than it. */
  ghost predicate BoundOk(s: Limiter) {
    forall m: Meter, window: nat, limit: nat :: Sum(s.charges, m, window, Some(limit)) <= limit
  }

  ghost predicate WindowsOk(s: Limiter) {
    forall t :: t in s.charges ==>
      && s.charges[t].window <= WindowOf(s, s.charges[t].meter)
      && (Pending(s.charges[t]) ==> s.charges[t].window == WindowOf(s, s.charges[t].meter))
  }

  /** A transaction in phase `p` has claimed under earlier rules only; the claim it is just making aside. */
  function Upto(p: Phase, length: nat): nat {
    match p
    case Checking(n) => n
    case Claimed(i, _, _) => i
    case Asking(i, _) => i + 1
    case _ => length
  }

  /** How many rules a transaction has left behind without a decision. */
  function Position(s: Limiter, tx: Tx): nat {
    match tx.phase
    case Checking(n) => n
    case Claimed(i, _, _) => i
    case Asking(i, _) => i
    case _ =>
      match tx.grant
      case Some(ByRule(i, _)) => i
      case Some(ByDefault) => if s.policy == Disabled then 0 else |s.rules|
      case None => 0
  }

  /** A claim under a rule that was left behind did not match its limit, unless a hook had the word. */
  ghost predicate LeftBehind(s: Limiter, c: Charge, tx: Tx) {
    c.rule < |s.rules| && c.rule < Position(s, tx) && s.rules[c.rule].action.Always? ==>
      !UsageMatches(s.rules[c.rule], c.total)
  }

  ghost predicate ChargeOk(s: Limiter, t: nat)
    requires t in s.charges
  {
    var c := s.charges[t];
    && t < s.nextTicket && c.digest in s.txs && c.rule < |s.rules| && s.rules[c.rule].gasUsage.Some?
    && var tx := s.txs[c.digest];
    && c.meter == MeterOf(s.rules[c.rule], tx.ctx) && 0 <= c.total <= MAX_I64
    && FourMatch(s.rules[c.rule], tx.ctx) && (c.rule < Upto(tx.phase, |s.rules|) || c.state.Fresh?)
    && LeftBehind(s, c, tx)
    && tx.reported <= c.amount <= tx.ctx.budget <= MAX_I64
    && match c.state
       case Fresh => c.amount == tx.ctx.budget && tx.phase == Claimed(c.rule, c.total, t)
       case Recorded => c.amount == tx.ctx.budget && c.digest in s.tickets && s.tickets[c.digest] == t
       case Taken => c.amount == tx.ctx.budget && tx.phase.Settling? && tx.phase.ticket == t
       case Settled => c.amount == tx.reported && tx.phase.Done?
       case Lost => c.amount == tx.ctx.budget
  }

  ghost predicate ChargesOk(s: Limiter) {
    forall t :: t in s.charges ==> ChargeOk(s, t)
  }

  /** Ticket `t` is the claim of transaction `d` under rule `i`. */
  ghost predicate Behind(s: Limiter, d: Digest, i: nat, t: nat) {
    t in s.charges && s.charges[t].digest == d && s.charges[t].rule == i
  }

  /** The settlement knows what was reported, and that is all unless there was an error. */
  predicate Reports(tx: Tx, result: Option<nat>) {
    && tx.reported == (if result.Some? then result.value else 0)
    && (result.Some? ==> tx.hidden == 0)
  }

  ghost predicate TxOk(s: Limiter, d: Digest)
    requires d in s.txs
  {
    var tx := s.txs[d];
    && tx.ctx.digest == d && Used(tx) <= tx.ctx.budget
    && (tx.phase.Checking? || tx.phase.Claimed? || tx.phase.Asking? ==> tx.grant.None?)
    && match tx.phase
       case Claimed(i, total, t) =>
         Used(tx) == 0 && Behind(s, d, i, t) && s.charges[t].state.Fresh? && s.charges[t].total == total
       case Finished(result) => Reports(tx, result)
       case Settling(req, result, t) =>
         && Reports(tx, result) && d !in s.tickets
         && t in s.charges && s.charges[t].digest == d && s.charges[t].state.Taken?
         && req == Request(s.charges[t].meter, tx.ctx.budget)
       case Done => d !in s.tickets
       case _ => Used(tx) == 0
  }

  ghost predicate TxsOk(s: Limiter) {
    forall d :: d in s.txs ==> TxOk(s, d)
  }

  ghost predicate TableOk(s: Limiter) {
    && s.requests.Keys == s.tickets.Keys
    && forall d :: d in s.tickets ==>
         && d in s.txs && s.tickets[d] in s.charges && s.charges[s.tickets[d]].digest == d
         && s.charges[s.tickets[d]].state.Recorded?
         && s.requests[d] == Request(s.charges[s.tickets[d]].meter, s.txs[d].ctx.budget)
  }

  /** Rule `i` is one that the transaction does not get past without a claim. */
  predicate MustClaim(r: Rule, tx: Tx, i: nat) {
    r.gasUsage.Some? && FourMatch(r, tx.ctx) && i !in tx.vetoed
  }

  /** Let through, or sent to a hook, by rule `i`. */
  ghost predicate LetBy(s: Limiter, d: Digest, i: nat, ticket: Option<nat>) {
    && i < |s.rules| && s.rules[i].action != Always(Deny)
    && match ticket
       case None => s.rules[i].gasUsage.None?
       case Some(t) => Behind(s, d, i, t) && UsageMatches(s.rules[i], s.charges[t].total)
  }

  ghost predicate FlowOk(s: Limiter, d: Digest)
    requires d in s.txs
  {
    var tx := s.txs[d];
    && Position(s, tx) <= |s.rules|
    && (forall i :: 0 <= i < Position(s, tx) && MustClaim(s.rules[i], tx, i) ==> exists t :: Behind(s, d, i, t))
    && (tx.phase.Asking? ==> LetBy(s, d, tx.phase.rule, tx.phase.behind) && s.rules[tx.phase.rule].action.CallHook?)
    && (tx.grant.Some? && tx.grant.value.ByRule? ==> LetBy(s, d, tx.grant.value.rule, tx.grant.value.ticket))
    && (tx.grant == Some(ByDefault) ==> s.policy != DenyAll)
    && (0 < Used(tx) || tx.phase.Admitted? ==> tx.grant.Some?)
  }

  ghost predicate FlowsOk(s: Limiter) {
    forall d :: d in s.txs ==> FlowOk(s, d)
  }

  ghost predicate Inv(s: Limiter) {
    CountersOk(s) && BoundOk(s) && WindowsOk(s) && ChargesOk(s) && TxsOk(s) && TableOk(s) && FlowsOk(s)
  }

  // ---------------------------------------------------------------- frames

  /** Charges are added and change amount and state, but never what they were made for. */
  ghost predicate Extends(a: map<nat, Charge>, b: map<nat, Charge>) {
    forall t :: t in a ==>
      && t in b && b[t].digest == a[t].digest && b[t].rule == a[t].rule && b[t].total == a[t].total
      && b[t].meter == a[t].meter && b[t].window == a[t].window
  }

  lemma FlowFrame(s: Limiter, u: Limiter, d: Digest)
    requires d in s.txs && FlowOk(s, d) && Extends(s.charges, u.charges)
    requires u.rules == s.rules && u.policy == s.policy && d in u.txs && u.txs[d] == s.txs[d]
    ensures FlowOk(u, d)
  {
    hide UsageMatches, MustClaim;
    var tx := s.txs[d];
    forall i | 0 <= i < Position(u, tx) && MustClaim(u.rules[i], tx, i) ensures exists t :: Behind(u, d, i, t) {
      var t :| Behind(s, d, i, t);
      assert Behind(u, d, i, t);
    }
  }

  /** One transaction moves; all others flow as before. */
  lemma FlowsFrame(s: Limiter, u: Limiter, d: Digest)
    requires FlowsOk(s) && Extends(s.charges, u.charges)
    requires u.rules == s.rules && u.policy == s.policy
    requires d in u.txs && u.txs == s.txs[d := u.txs[d]] && FlowOk(u, d)
    ensures FlowsOk(u)
  {
    hide FlowOk;
    forall e | e in u.txs ensures FlowOk(u, e) {
      if e != d {
        FlowFrame(s, u, e);
      }
    }
  }

  lemma StillMust(r: Rule, before: Tx, after: Tx, i: nat)
    requires MustClaim(r, after, i) && after.ctx == before.ctx && before.vetoed <= after.vetoed
    ensures MustClaim(r, before, i) && r.gasUsage.Some?
  {
  }

  /** Moving on with nothing passed and nothing granted anew. */
  lemma FlowOn(s: Limiter, u: Limiter, d: Digest)
    requires d in s.txs && FlowOk(s, d) && Extends(s.charges, u.charges) && u.rules == s.rules && u.policy == s.policy
    requires d in u.txs && u.txs[d] == s.txs[d].(
      phase := u.txs[d].phase, grant := u.txs[d].grant, reported := u.txs[d].reported, hidden := u.txs[d].hidden)
    requires Position(u, u.txs[d]) <= Position(s, s.txs[d])
    requires !u.txs[d].phase.Checking? && !u.txs[d].phase.Asking? && (u.txs[d].phase.Claimed? ==> u.txs[d].grant.None?)
    requires u.txs[d].grant == s.txs[d].grant
    requires (u.txs[d].phase.Admitted? || 0 < Used(u.txs[d]) ==> u.txs[d].grant.Some?)
    ensures FlowOk(u, d)
  {
    hide UsageMatches, MustClaim;
    var tx := u.txs[d];
    forall i | 0 <= i < Position(u, tx) && MustClaim(u.rules[i], tx, i) ensures exists t :: Behind(u, d, i, t) {
      StillMust(u.rules[i], s.txs[d], tx, i);
      var t :| Behind(s, d, i, t);
      assert Behind(u, d, i, t);
    }
  }

  /** The rules behind a transaction stay behind it. */
  lemma PassedStays(s: Limiter, u: Limiter, d: Digest, n: nat)
    requires d in s.txs && FlowOk(s, d) && Extends(s.charges, u.charges) && u.rules == s.rules
    requires n == Position(s, s.txs[d])
    ensures n <= |u.rules| && forall i :: 0 <= i < n && MustClaim(u.rules[i], s.txs[d], i) ==>
      exists t :: Behind(u, d, i, t)
  {
    hide UsageMatches, MustClaim;
    forall i | 0 <= i < n && MustClaim(u.rules[i], s.txs[d], i) ensures exists t :: Behind(u, d, i, t) {
      var t :| Behind(s, d, i, t);
      assert Behind(u, d, i, t);
    }
  }

  /** One transaction moves, and touches only its own charges and its own entry of the table. */
  ghost predicate OnlyTouches(s: Limiter, u: Limiter, d: Digest) {
    && u.rules == s.rules && u.policy == s.policy && s.nextTicket <= u.nextTicket
    && d in u.txs && u.txs == s.txs[d := u.txs[d]]
    && (forall e :: e != d ==>
          (e in u.tickets <==> e in s.tickets) && (e in s.tickets ==> u.tickets[e] == s.tickets[e]))
    && (forall t :: t in s.charges && s.charges[t].digest != d ==> t in u.charges && u.charges[t] == s.charges[t])
    && (forall t :: t in u.charges && u.charges[t].digest != d ==> t in s.charges && u.charges[t] == s.charges[t])
  }

  lemma ChargeFrame(s: Limiter, u: Limiter, d: Digest, t: nat)
    requires OnlyTouches(s, u, d) && t in u.charges && u.charges[t].digest != d
    requires t in s.charges && ChargeOk(s, t)
    ensures ChargeOk(u, t)
  {
  }

  lemma TxFrame(s: Limiter, u: Limiter, d: Digest, e: Digest)
    requires OnlyTouches(s, u, d) && e != d && e in s.txs && TxOk(s, e)
    ensures TxOk(u, e)
  {
  }

  lemma OthersLink(s: Limiter, u: Limiter, d: Digest)
    requires ChargesOk(s) && TxsOk(s) && OnlyTouches(s, u, d)
    requires forall t :: t in u.charges && u.charges[t].digest == d ==> ChargeOk(u, t)
    requires TxOk(u, d)
    ensures ChargesOk(u) && TxsOk(u)
  {
    hide ChargeOk, TxOk;
    forall t | t in u.charges ensures ChargeOk(u, t) {
      if u.charges[t].digest != d {
        ChargeFrame(s, u, d, t);
      }
    }
    forall e | e in u.txs ensures TxOk(u, e) {
      if e != d {
        TxFrame(s, u, d, e);
      }
    }
  }

  /** One charge of `d` changes its amount or state. */
  lemma OneCharge(s: Limiter, u: Limiter, d: Digest, t: nat, amount: nat, state: ChargeState)
    requires t in s.charges && s.charges[t].digest == d
    requires u.charges == s.charges[t := s.charges[t].(amount := amount, state := state)]
    requires u.rules == s.rules && u.policy == s.policy && u.nextTicket == s.nextTicket && d in u.txs
    requires u.txs == s.txs[d := u.txs[d]]
    requires u.tickets - {d} == s.tickets - {d} && u.windows == s.windows
    ensures OnlyTouches(s, u, d) && Extends(s.charges, u.charges) && u.charges.Keys == s.charges.Keys
    ensures WindowsOk(s) && (Pending(u.charges[t]) ==> Pending(s.charges[t])) ==> WindowsOk(u)
  {
    forall e | e != d
      ensures (e in u.tickets <==> e in s.tickets) && (e in s.tickets ==> u.tickets[e] == s.tickets[e])
    {
      assert e in u.tickets <==> e in u.tickets - {d};
      assert e in s.tickets <==> e in s.tickets - {d};
      if e in s.tickets {
        assert (u.tickets - {d})[e] == (s.tickets - {d})[e];
      }
    }
  }

  /** The table loses the entry of `d`, if it had one, and the charges of others stay. */
  lemma TableLoses(s: Limiter, u: Limiter, d: Digest)
    requires TableOk(s) && OnlyTouches(s, u, d)
    requires u.requests == s.requests - {d} && u.tickets == s.tickets - {d}
    requires forall e :: e in s.txs ==> e in u.txs && u.txs[e].ctx == s.txs[e].ctx
    ensures TableOk(u)
  {
  }

  /** All sums stay as they are. */
  lemma SumsSame(s: Limiter, u: Limiter)
    requires CountersOk(s) && BoundOk(s)
    requires u.counters == s.counters && u.windows == s.windows
    requires forall m, window, limit :: Sum(u.charges, m, window, limit) == Sum(s.charges, m, window, limit)
    ensures CountersOk(u) && BoundOk(u)
  {
    hide Sum, Counts;
  }
}
