/** The maintenance lease over whole runs: who gets it, when, and what it holds off. */
module Leases {
  import opened Coins
  import opened Pool

  /** A granted lease, from the moment of the grant; history. */
  datatype Lease = Lease(from: nat, until: nat, released: Option<nat>)

  datatype State = State(pool: Registry, clock: nat, leases: seq<Lease>)

  datatype Step =
    | Acquire(now: nat, duration: nat)
    | Release(now: nat)
    | ReserveGas(budget: nat, expiration: nat, now: nat)
    | Clean(now: nat)
    | Other(pool: Registry, now: nat)     // any script that leaves the maintenance lock alone

  predicate Held(s: State) {
    s.leases != [] && s.leases[|s.leases| - 1].released.None?
  }

  /** The clock does not run backwards; only the holder releases, within its lease. */
  predicate Enabled(s: State, st: Step) {
    && s.clock <= st.now
    && (st.Release? ==> Held(s) && st.now <= s.leases[|s.leases| - 1].until)
    && (st.Other? ==> st.pool.maintenanceLock == s.pool.maintenanceLock)
  }

  function Apply(s: State, st: Step): State
    requires Enabled(s, st)
  {
    match st
    case Acquire(now, duration) =>
      var (granted, pool) := AcquireMaintenanceLock(s.pool, now, duration);
      State(pool, now, if granted then s.leases + [Lease(now, now + duration, None)] else s.leases)
    case Release(now) =>
      var n := |s.leases| - 1;
      State(ReleaseMaintenanceLock(s.pool), now, s.leases[n := s.leases[n].(released := Some(now))])
    case ReserveGas(budget, expiration, now) => State(Reserve(s.pool, budget, expiration, now).1, now, s.leases)
    case Clean(now) => State(CleanUp(s.pool), now, s.leases)
    case Other(pool, now) => State(pool, now, s.leases)
  }

  predicate CanRun(s: State, steps: seq<Step>)
    decreases |steps|
  {
    steps == [] || (Enabled(s, steps[0]) && CanRun(Apply(s, steps[0]), steps[1..]))
  }

  function Run(s: State, steps: seq<Step>): State
    requires CanRun(s, steps)
    decreases |steps|
  {
    if steps == [] then s else Run(Apply(s, steps[0]), steps[1..])
  }

  function End(l: Lease): nat {
    if l.released.Some? then l.released.value else l.until
  }

  /** Later leases begin no earlier than earlier ones end, and strictly later than one that ran out. */
  predicate Ordered(a: Lease, b: Lease) {
    End(a) <= b.from && (a.released.None? ==> a.until < b.from)
  }

  predicate Inv(s: State) {
    && (forall l :: l in s.leases ==> Past(l, s.clock))
    && (forall i, j :: 0 <= i < j < |s.leases| ==> Ordered(s.leases[i], s.leases[j]))
    && s.pool.maintenanceLock ==
         if s.leases == [] then None else if Held(s) then Some(s.leases[|s.leases| - 1].until) else Some(0)
  }

  /** A lease is well placed before `clock`. */
  predicate Past(l: Lease, clock: nat) {
    l.from <= clock && l.from <= l.until
    && (l.released.Some? ==> l.from <= l.released.value <= clock && l.released.value <= l.until)
  }

  lemma KeepOther(s: State, t: State)
    requires Inv(s) && t.leases == s.leases && s.clock <= t.clock && t.pool.maintenanceLock == s.pool.maintenanceLock
    ensures Inv(t)
  {
  }

  lemma KeepGrant(s: State, now: nat, duration: nat)
    requires Inv(s) && s.clock <= now && !Live(s.pool.maintenanceLock, now)
    ensures Inv(State(AcquireMaintenanceLock(s.pool, now, duration).1, now,
      s.leases + [Lease(now, now + duration, None)]))
  {
    var n, l := |s.leases|, Lease(now, now + duration, None);
    var leases := s.leases + [l];
    forall i, k | 0 <= i < k < |leases| ensures Ordered(leases[i], leases[k]) {
      if k == n {
        assert s.leases[i] in s.leases && s.leases[n - 1] in s.leases;
        assert i < n - 1 ==> Ordered(s.leases[i], s.leases[n - 1]);
      } else {
        assert Ordered(s.leases[i], s.leases[k]);
      }
    }
    forall x | x in leases ensures Past(x, now) {
      assert x in s.leases || x == l;
    }
  }

  lemma KeepRelease(s: State, now: nat)
    requires Inv(s) && Enabled(s, Release(now))
    ensures Inv(Apply(s, Release(now)))
  {
    var n := |s.leases| - 1;
    var l := s.leases[n].(released := Some(now));
    var leases := s.leases[n := l];
    forall i, k | 0 <= i < k < |leases| ensures Ordered(leases[i], leases[k]) {
      assert Ordered(s.leases[i], s.leases[k]);
    }
    forall x | x in leases ensures Past(x, now) {
      assert s.leases[n] in s.leases;
      assert x in s.leases || x == l;
    }
  }

  lemma KeepStep(s: State, st: Step)
    requires Inv(s) && Enabled(s, st)
    ensures Inv(Apply(s, st))
  {
    hide Taken, Total, Inv;
    match st
    case Acquire(now, duration) =>
      if Live(s.pool.maintenanceLock, now) {
        KeepOther(s, Apply(s, st));
      } else {
        KeepGrant(s, now, duration);
      }
    case Release(now) => KeepRelease(s, now);
    case ReserveGas(_, _, _) => KeepOther(s, Apply(s, st));
    case Clean(_) => KeepOther(s, Apply(s, st));
    case Other(_, _) => KeepOther(s, Apply(s, st));
  }

  lemma {:induction false} KeepRun(s: State, steps: seq<Step>)
    requires Inv(s) && CanRun(s, steps)
    ensures Inv(Run(s, steps))
    decreases |steps|
  {
    hide Inv, Enabled, Apply;
    if steps != [] {
      KeepStep(s, steps[0]);
      KeepRun(Apply(s, steps[0]), steps[1..]);
    }
  }

  const START: State := State(EMPTY, 0, [])

  /** The moments a lease covers. */
  predicate Covers(l: Lease, time: nat) {
    l.from <= time <= l.until && (l.released.Some? ==> time < l.released.value)
  }

  /** In no run do two granted leases ever cover the same moment. */
  lemma LeasesNeverOverlap(steps: seq<Step>, i: nat, j: nat, time: nat)
    requires CanRun(START, steps) && i < j < |Run(START, steps).leases|
    ensures var leases := Run(START, steps).leases; !(Covers(leases[i], time) && Covers(leases[j], time))
  {
    hide CanRun, Run;
    KeepRun(START, steps);
    assert Ordered(Run(START, steps).leases[i], Run(START, steps).leases[j]);
  }

  /** No reservation succeeds, at any time of any run, while some lease is in force. */
  lemma MaintenanceHoldsOff(steps: seq<Step>, budget: nat, expiration: nat, now: nat)
    requires CanRun(START, steps) && Run(START, steps).clock <= now
    requires Reserve(Run(START, steps).pool, budget, expiration, now).0.Reserved?
    ensures forall l :: l in Run(START, steps).leases ==> !Covers(l, now)
  {
    hide CanRun, Run, Taken, Total;
    KeepRun(START, steps);
    var s := Run(START, steps);
    forall l | l in s.leases ensures !Covers(l, now) {
      var i :| 0 <= i < |s.leases| && s.leases[i] == l;
      if i < |s.leases| - 1 {
        assert s.leases[|s.leases| - 1] in s.leases;
        assert Ordered(l, s.leases[|s.leases| - 1]);
      }
    }
  }
}
