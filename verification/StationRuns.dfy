/**
 * Runs of the initializer over time: who has the lock and until when, when two runs are active at once, when a
 * first start may scan, and when a run that an error has stopped goes on.
 */
module StationRuns {
  import opened Coins
  import opened SplitMath
  import opened Pool
  import opened Ledger
  import opened Station
  import opened StationInvariant
  import opened StationSteps
  import opened StationTheorems

  // ---------------------------------------------------------------- the init lock, in every run

  /** The last time the init lock was granted, if it was not freed since; a lost reply leaves it to no task. */
  datatype Lease = Free | Leased(until: nat, holder: Option<nat>)

  function LeaseAfter(s: Station, st: Step, lease: Lease): Lease {
    match st
    case StartRun(boot) => Leased(s.clock + MAX_INIT_DURATION, Some(RunTask(s, boot)))
    case AcquireLost => Leased(s.clock + MAX_INIT_DURATION, None)
    case EndRun(_) => Free
    case _ => lease
  }

  ghost function LeaseOf(s: Station, steps: seq<Step>, lease: Lease): Lease
    decreases |steps|
  {
    if steps == [] || !Enabled(s, steps[0]) then lease
    else LeaseOf(Apply(s, steps[0]), steps[1..], LeaseAfter(s, steps[0], lease))
  }

  ghost predicate Shows(p: Registry, lease: Lease) {
    match lease
    case Free => p.initLock.None? || p.initLock == Some(0)
    case Leased(until, _) => p.initLock == Some(until)
  }

  lemma LockKept(s: Station, st: Step)
    requires Enabled(s, st) && !st.StartRun? && !st.AcquireLost? && !st.EndRun?
    ensures Apply(s, st).pool.initLock == s.pool.initLock
  {
    hide SameClaims, RunsIn, LosesNobody, At, TaskIds, SetOf, IdSet, Lists, Selected, CanPay, SumOf, DoDeposit,
      DoReserve, DoExecute, DoFail, DoReadLatest, DoRelease, DoAbandon, DoReread, DoScan, DoSplit, DoHide, CanSplit,
      SplitOk, DoAddChunk, Own, ClaimedIds, Due, Pool.Claimed;
    match st
    case Deposit(coin) => DepositClaims(s, coin);
    case ReserveGas(budget, expiration, now) => ReserveClaims(s, budget, expiration, now);
    case ExecuteOk(k, e) => ExecuteClaims(s, k, e);
    case ExecuteErr(k, e) => FailClaims(s, k, e);
    case ReadLatest(k, listing) => LatestClaims(s, k, listing);
    case ReleaseCoins(k) => ReleaseClaims(s, k);
    case ReleaseErr(k, applied) => ResendClaims(s, k);
    case Abandon(k) => AbandonClaims(s, k);
    case Scan(k, gas, listing) => ScanClaims(s, k, gas, listing);
    case SplitCoin(k, i, x) => SplitClaims(s, k, i, x);
    case SplitErr(k, i, x) => if x.Some? { HideClaims(s, k, i, x.value); } else { RereadClaims(s, k, i); }
    case AddChunk(k) => ChunkClaims(s, k);
    case _ =>
  }

  lemma {:induction false} LockOverRun(s: Station, steps: seq<Step>, u: Station, lease: Lease)
    requires Leads(s, steps, u) && Shows(s.pool, lease)
    ensures Shows(u.pool, LeaseOf(s, steps, lease))
    decreases |steps|
  {
    if steps != [] {
      LockByStep(s, steps[0], lease);
      hide Enabled, Apply, Shows;
      LockOverRun(Apply(s, steps[0]), steps[1..], u, LeaseAfter(s, steps[0], lease));
    }
  }

  lemma LockByStep(s: Station, st: Step, lease: Lease)
    requires Enabled(s, st) && Shows(s.pool, lease)
    ensures Shows(Apply(s, st).pool, LeaseAfter(s, st, lease))
  {
    if !st.StartRun? && !st.AcquireLost? && !st.EndRun? {
      hide Enabled, Apply;
      LockKept(s, st);
    }
  }

  /**
   * In every run of the system, safe or not, the init lock is granted at `now` if and only if nobody has taken it
   * since it was last freed, by whatever run, or that lease is over.
   */
  lemma LockIsExact(target: nat, steps: seq<Step>, u: Station, now: nat)
    requires Leads(Fresh(target), steps, u) && 0 < now
    ensures
      var lease := LeaseOf(Fresh(target), steps, Free);
      AcquireInitLock(u.pool, now, MAX_INIT_DURATION).0 <==> lease.Free? || lease.until < now
  {
    hide Leads, LeaseOf;
    LockOverRun(Fresh(target), steps, u, Free);
  }

  // ---------------------------------------------------------------- whose lease it is

  ghost predicate ActiveRun(s: Station, k: nat) {
    k in s.tasks && IsRun(s.tasks[k])
  }

  lemma ReadyRuns(s: Station, id: ReservationId)
    requires TasksOk(s) && id in s.pool.reservations
    ensures RunsStay(s, DoReady(s, id))
  {
    hide TaskOk, Own, At;
  }

  lemma ExpiryRuns(s: Station, now: nat)
    requires TasksOk(s)
    ensures RunsStay(s, DoExpire(s, now))
  {
    hide TaskOk, Own, ClaimedIds, Pool.Claimed, Due;
  }

  lemma CleanRuns(s: Station)
    requires s.tasks == map[]
    ensures RunsStay(s, DoClean(s))
  {
  }

  lemma RunsIdle(s: Station, st: Step)
    requires Enabled(s, st) && (st.QueryTotal? || st.MaintenanceOn? || st.MaintenanceOff? || st.Tick?)
    ensures RunsStay(s, Apply(s, st))
  {
    hide SumOf;
  }

  /** Steps other than the start and the end of a run keep all runs. */
  lemma RunsGoOn(s: Station, st: Step)
    requires Inv(s) && Enabled(s, st) && !st.StartRun? && !st.AcquireLost? && !st.EndRun? && !st.Abandon?
    ensures RunsStay(s, Apply(s, st))
  {
    hide RunsStay, SameClaims, LosesNobody, At, TaskIds, SetOf, IdSet, Lists, Selected, CanPay, SumOf, Inv, DoDeposit,
      DoReserve, DoReady, DoExecute, DoFail, DoReadLatest, DoRelease, DoBoot, DoReread, DoExpire, DoClean, DoScan,
      DoSplit, DoHide, CanSplit, SplitOk, DoAddChunk;
    KnownTasks(s);
    match st
    case Deposit(coin) => DepositClaims(s, coin);
    case ReserveGas(budget, expiration, now) => ReserveClaims(s, budget, expiration, now);
    case ReadyForExecution(id) => ReadyRuns(s, id);
    case ExecuteOk(k, e) => ExecuteClaims(s, k, e);
    case ExecuteErr(k, e) => FailClaims(s, k, e);
    case ReadLatest(k, listing) => LatestClaims(s, k, listing);
    case ReleaseCoins(k) => ReleaseClaims(s, k);
    case ReleaseErr(k, applied) =>
      ResendClaims(s, k);
      SameRuns(s);
    case ExpireCoins(now) => ExpiryRuns(s, now);
    case Boot => BootClaims(s);
    case Scan(k, gas, listing) => ScanClaims(s, k, gas, listing);
    case SplitCoin(k, i, x) => SplitClaims(s, k, i, x);
    case SplitErr(k, i, x) =>
      if x.Some? {
        HideClaims(s, k, i, x.value);
      } else {
        RereadIsSame(s, k, i);
        SameRuns(s);
      }
    case AddChunk(k) => ChunkClaims(s, k);
    case CleanAndInit => CleanRuns(s);
    case _ => RunsIdle(s, st);
  }

  lemma SameRuns(s: Station)
    ensures RunsStay(s, s)
  {
  }

  lemma KnownTasks(s: Station)
    requires Inv(s)
    ensures TasksOk(s) && s.nextTask !in s.tasks
  {
    hide PoolOk, PromisesOk, ClaimsOk, OwnerOk, UsedOk, CustodyOk, ValueOk, TaskOk;
  }

  /** The task of the last lease is active, or its instance went down. */
  ghost predicate Accounted(s: Station, lease: Lease, down: set<nat>) {
    lease.Leased? && lease.holder.Some? ==> ActiveRun(s, lease.holder.value) || lease.holder.value in down
  }

  function DownAfter(st: Step, down: set<nat>): set<nat> {
    if st.Abandon? then down + {st.k} else down
  }

  lemma AccountedByStep(s: Station, st: Step, lease: Lease, down: set<nat>)
    requires Inv(s) && Enabled(s, st) && Accounted(s, lease, down)
    ensures Accounted(Apply(s, st), LeaseAfter(s, st, lease), DownAfter(st, down))
  {
    hide Inv;
    if !st.StartRun? && !st.AcquireLost? && !st.EndRun? && !st.Abandon? {
      hide Enabled, Apply;
      RunsGoOn(s, st);
    }
  }

  lemma {:induction false} AccountedOverRun(s: Station, steps: seq<Step>, lease: Lease, down: set<nat>)
    requires Inv(s) && CanRun(s, steps) && Accounted(s, lease, down)
    ensures
      var end := LeaseOf(s, steps, lease);
      end.Leased? && end.holder.Some? ==>
        ActiveRun(Run(s, steps), end.holder.value) || end.holder.value in down || Abandon(end.holder.value) in steps
    decreases |steps|
  {
    hide Inv, Enabled, SafeStep, Apply, Accounted, LeaseAfter;
    if steps == [] {
      AccountedMeans(s, lease, down);
    } else {
      KeepStep(s, steps[0]);
      AccountedByStep(s, steps[0], lease, down);
      AccountedOverRun(Apply(s, steps[0]), steps[1..], LeaseAfter(s, steps[0], lease), DownAfter(steps[0], down));
    }
  }

  lemma AccountedMeans(s: Station, lease: Lease, down: set<nat>)
    requires Accounted(s, lease, down)
    ensures lease.Leased? && lease.holder.Some? ==> ActiveRun(s, lease.holder.value) || lease.holder.value in down
  {
  }

  ghost predicate NoRun(s: Station) {
    forall k :: k in s.tasks ==> !IsRun(s.tasks[k])
  }

  lemma {:induction false} SafeLeads(s: Station, steps: seq<Step>)
    requires CanRun(s, steps)
    ensures Leads(s, steps, Run(s, steps))
    decreases |steps|
  {
    hide Enabled, SafeStep, Apply;
    if steps != [] {
      SafeLeads(Apply(s, steps[0]), steps[1..]);
    }
  }

  /**
   * While no run is in progress, the next one gets the lock, unless since it was last freed an acquisition lost
   * its reply, or an instance went down with its run, and that lease is not over.
   */
  lemma LockBetweenRuns(target: nat, steps: seq<Step>, now: nat)
    requires CanRun(Fresh(target), steps) && NoRun(Run(Fresh(target), steps)) && 0 < now
    ensures
      var lease := LeaseOf(Fresh(target), steps, Free);
      && (AcquireInitLock(Run(Fresh(target), steps).pool, now, MAX_INIT_DURATION).0 <==>
          lease.Free? || lease.until < now)
      && (lease.Leased? ==> lease.holder.None? || Abandon(lease.holder.value) in steps)
  {
    hide CanRun, Run, LeaseOf, Inv, AcquireInitLock;
    SafeLeads(Fresh(target), steps);
    LockIsExact(target, steps, Run(Fresh(target), steps), now);
    FreshInv(target);
    AccountedOverRun(Fresh(target), steps, Free, {});
  }

  // ---------------------------------------------------------------- two runs at once

  /** A run has outlived its lease. */
  ghost predicate Overdue(s: Station) {
    exists k :: ActiveRun(s, k) && s.tasks[k].lease < s.clock
  }

  /** No run outlives its lease on the way. */
  ghost predicate InTime(s: Station, steps: seq<Step>)
    requires CanRun(s, steps)
    decreases |steps|
  {
    !Overdue(s) && (steps == [] || InTime(Apply(s, steps[0]), steps[1..]))
  }

  /** At most one run, and the lock is its lease. */
  ghost predicate OneRun(s: Station) {
    && (forall k :: ActiveRun(s, k) ==> s.pool.initLock == Some(s.tasks[k].lease))
    && (forall j, k :: ActiveRun(s, j) && ActiveRun(s, k) ==> j == k)
  }

  lemma OneRunStays(s: Station, st: Step)
    requires Inv(s) && Enabled(s, st) && OneRun(s) && !Overdue(s)
    ensures OneRun(Apply(s, st))
  {
    hide Inv;
    if st.StartRun? || st.AcquireLost? {
      assert forall k :: !ActiveRun(s, k);
    } else if st.EndRun? {
      var ended := st.k;
      assert ActiveRun(s, ended);
      forall k ensures !ActiveRun(Apply(s, st), k) {
        assert ActiveRun(s, k) ==> k == ended;
      }
    } else {
      hide Enabled, Apply;
      if st.Abandon? {
        AbandonRuns(s, st.k);
      } else {
        RunsGoOn(s, st);
      }
      StillOneRun(s, Apply(s, st));
    }
  }

  lemma StillOneRun(s: Station, t: Station)
    requires OneRun(s) && RunsIn(t, s) && t.pool.initLock == s.pool.initLock
    ensures OneRun(t)
  {
    forall k | ActiveRun(t, k) ensures ActiveRun(s, k) && t.tasks[k].lease == s.tasks[k].lease {
    }
  }

  lemma AbandonRuns(s: Station, k: nat)
    requires Enabled(s, Abandon(k))
    ensures RunsIn(Apply(s, Abandon(k)), s) && Apply(s, Abandon(k)).pool.initLock == s.pool.initLock
  {
    AbandonClaims(s, k);
  }

  lemma {:induction false} OneRunOverRun(s: Station, steps: seq<Step>)
    requires Inv(s) && CanRun(s, steps) && InTime(s, steps) && OneRun(s)
    ensures Inv(Run(s, steps)) && OneRun(Run(s, steps)) && !Overdue(Run(s, steps))
    decreases |steps|
  {
    hide Inv, Enabled, SafeStep, Apply, OneRun, Overdue;
    if steps != [] {
      KeepStep(s, steps[0]);
      OneRunStays(s, steps[0]);
      OneRunOverRun(Apply(s, steps[0]), steps[1..]);
    }
  }

  /** As long as no run outlives its lease, at most one is active, and meanwhile the lock script refuses everybody. */
  lemma RunsAreExclusive(target: nat, steps: seq<Step>, j: nat, k: nat)
    requires CanRun(Fresh(target), steps) && InTime(Fresh(target), steps)
    requires ActiveRun(Run(Fresh(target), steps), j) && ActiveRun(Run(Fresh(target), steps), k)
    ensures
      var s := Run(Fresh(target), steps);
      j == k && !AcquireInitLock(s.pool, s.clock, MAX_INIT_DURATION).0
  {
    hide CanRun, Run, Inv, InTime;
    FreshInv(target);
    OneRunOverRun(Fresh(target), steps);
  }

  /**
   * From there on time passes, and a second run is granted the lock exactly when the first has outlived its
   * lease. Then both are active.
   */
  lemma SecondRunExact(target: nat, steps: seq<Step>, k: nat, to: nat, boot: Option<nat>)
    requires CanRun(Fresh(target), steps) && InTime(Fresh(target), steps)
    requires
      var s := Run(Fresh(target), steps);
      && ActiveRun(s, k) && s.clock <= to
      && (boot.Some? ==> boot.value in s.tasks && s.tasks[boot.value].Booted?)
    ensures
      var s := Run(Fresh(target), steps);
      var t := s.(clock := to);
      && Enabled(s, Tick(to)) && Apply(s, Tick(to)) == t
      && (Enabled(t, StartRun(boot)) <==> s.tasks[k].lease < to)
      && (s.tasks[k].lease < to ==>
          var u := Apply(t, StartRun(boot));
          ActiveRun(u, k) && ActiveRun(u, RunTask(s, boot)) && k != RunTask(s, boot))
  {
    hide CanRun, Run, Inv, InTime;
    FreshInv(target);
    OneRunOverRun(Fresh(target), steps);
    KnownTasks(Run(Fresh(target), steps));
  }

  // ---------------------------------------------------------------- the first start

  /** As long as the registry is not marked, nothing is in it, and nobody but a run has a coin in hand. */
  ghost predicate UnmarkedIsEmpty(s: Station) {
    !s.pool.initialized ==>
      && s.pool.available == [] && s.pool.reservations == map[]
      && forall k :: k in s.tasks && !IsRun(s.tasks[k]) ==> TaskIds(s.tasks[k]) == {}
  }

  /** The mark stays once it is set, until a clean-up. */
  lemma MarkStays(s: Station, st: Step)
    requires Enabled(s, st) && s.pool.initialized && st != CleanAndInit
    ensures Apply(s, st).pool.initialized
  {
    hide RunsStay, RunsIn, LosesNobody, At, TaskIds, SetOf, IdSet, Lists, Selected, CanPay, SumOf, DoDeposit, DoReserve,
      DoExecute, DoFail, DoReadLatest, DoRelease, DoAbandon, DoBoot, DoReread, DoStart, DoScan, DoSplit, DoHide,
      CanSplit, SplitOk, DoAddChunk, Own, ClaimedIds, Due, Pool.Claimed;
    match st
    case Deposit(coin) => DepositClaims(s, coin);
    case ReserveGas(budget, expiration, now) => ReserveClaims(s, budget, expiration, now);
    case ExecuteOk(k, e) => ExecuteClaims(s, k, e);
    case ExecuteErr(k, e) => FailClaims(s, k, e);
    case ReadLatest(k, listing) => LatestClaims(s, k, listing);
    case ReleaseCoins(k) => ReleaseClaims(s, k);
    case ReleaseErr(k, applied) => ResendClaims(s, k);
    case Abandon(k) => AbandonClaims(s, k);
    case Boot => BootClaims(s);
    case StartRun(boot) => StartClaims(s, boot);
    case Scan(k, gas, listing) => ScanClaims(s, k, gas, listing);
    case SplitCoin(k, i, x) => SplitClaims(s, k, i, x);
    case SplitErr(k, i, x) => if x.Some? { HideClaims(s, k, i, x.value); } else { RereadClaims(s, k, i); }
    case AddChunk(k) => ChunkClaims(s, k);
    case _ =>
  }

  /** Nothing is lent from an empty list. */
  lemma NothingToReserve(s: Station, budget: nat, expiration: nat, now: nat)
    requires 0 < budget && s.pool.available == []
    ensures DoReserve(s, budget, expiration, now) == s
  {
    assert Taken(s.pool.available, budget, MAX_GAS_PER_QUERY) == 0 && s.pool.available[..0] == [];
  }

  lemma NothingDue(s: Station, now: nat)
    requires s.pool.reservations == map[]
    ensures DoExpire(s, now) == s.(pool := Expire(s.pool, now)) && Expire(s.pool, now).reservations == map[]
  {
    assert Pool.Claimed(s.pool, now) == {};
  }

  /** Who has something to pay with or to give back holds it. */
  lemma FirstInHand(x: Task)
    ensures (x.Claimed? || x.Queried? || x.Failed?) && x.ids != [] ==> x.ids[0] in TaskIds(x)
    ensures x.Settled? && x.coins != [] ==> x.coins[0].id in TaskIds(x)
  {
    if x.Settled? && x.coins != [] {
      assert x.coins[0] in x.coins;
    }
  }

  lemma NothingAdded(p: Registry)
    ensures
      var q := Add(p, []).1;
      q.available == p.available && q.reservations == p.reservations && q.initialized == p.initialized
  {
    assert p.available + [] == p.available;
  }

  /** Steps of an executor or an unlocker. */
  predicate OfAPayment(st: Step) {
    st.QueryTotal? || st.ExecuteOk? || st.ExecuteErr? || st.ReadLatest? || st.ReleaseCoins? || st.ReleaseErr?
  }

  /** Steps of a run, and of what comes before it. */
  predicate OfARun(st: Step) {
    || st.Scan? || st.SplitCoin? || st.SplitErr? || st.AddChunk? || st.EndRun?
    || st.StartRun? || st.Boot? || st.AcquireLost?
  }

  /** Steps of an executor or an unlocker with empty hands. */
  lemma UnmarkedHands(s: Station, st: Step)
    requires Enabled(s, st) && UnmarkedIsEmpty(s) && !s.pool.initialized
    requires OfAPayment(st)
    ensures UnmarkedIsEmpty(Apply(s, st))
  {
    hide SumOf, Post, Smashed, Add, Own, Oversized;
    FirstInHand(s.tasks[st.k]);
    NothingAdded(s.pool);
  }

  /** Steps of a run, and of nobody. */
  lemma UnmarkedRuns(s: Station, st: Step)
    requires Enabled(s, st) && UnmarkedIsEmpty(s) && !s.pool.initialized
    requires OfARun(st)
    ensures UnmarkedIsEmpty(Apply(s, st))
  {
    hide At, SetOf, IdSet, Lists, Selected, Post, Own, SplitOk, SplitParts, CountOf, Large, Small, Total, KeepLimit;
  }

  lemma UnmarkedStays(s: Station, st: Step)
    requires Enabled(s, st) && UnmarkedIsEmpty(s)
    ensures UnmarkedIsEmpty(Apply(s, st))
  {
    hide Apply;
    if st == CleanAndInit {
      CleanIsEmpty(s);
    } else if s.pool.initialized {
      MarkStays(s, st);
    } else if st.ReserveGas? {
      NothingToReserve(s, st.budget, st.expiration, st.now);
      ReserveApplied(s, st);
    } else if st.ExpireCoins? {
      NothingDue(s, st.now);
      ExpireApplied(s, st);
    } else if OfAPayment(st) {
      UnmarkedHands(s, st);
    } else if OfARun(st) {
      UnmarkedRuns(s, st);
    } else {
      UnmarkedElse(s, st);
    }
  }

  lemma CleanIsEmpty(s: Station)
    requires Enabled(s, CleanAndInit)
    ensures UnmarkedIsEmpty(Apply(s, CleanAndInit))
  {
  }

  lemma ReserveApplied(s: Station, st: Step)
    requires st.ReserveGas? && Enabled(s, st)
    ensures Apply(s, st) == DoReserve(s, st.budget, st.expiration, st.now)
  {
  }

  lemma ExpireApplied(s: Station, st: Step)
    requires st.ExpireCoins? && Enabled(s, st)
    ensures Apply(s, st) == DoExpire(s, st.now)
  {
  }

  lemma UnmarkedElse(s: Station, st: Step)
    requires Enabled(s, st) && UnmarkedIsEmpty(s) && !s.pool.initialized
    requires st.Deposit? || st.ReadyForExecution? || st.Abandon? || st.MaintenanceOn? || st.MaintenanceOff? || st.Tick?
    ensures UnmarkedIsEmpty(Apply(s, st))
  {
    hide TaskIds;
  }

  lemma {:induction false} UnmarkedOverRun(s: Station, steps: seq<Step>)
    requires CanRun(s, steps) && UnmarkedIsEmpty(s)
    ensures UnmarkedIsEmpty(Run(s, steps))
    decreases |steps|
  {
    hide Enabled, SafeStep, Apply, UnmarkedIsEmpty;
    if steps != [] {
      UnmarkedStays(s, steps[0]);
      UnmarkedOverRun(Apply(s, steps[0]), steps[1..]);
    }
  }

  /**
   * An Init scan is safe whenever the registry is still unmarked at the scan and no other run is active. So the
   * one thing that can go wrong with a first start is that the mark was read too early.
   */
  lemma FirstStartIsSafe(s: Station, k: nat, gas: nat, listing: seq<GasCoin>)
    requires Reachable(s) && Enabled(s, Scan(k, gas, listing)) && s.tasks[k].init
    requires !s.pool.initialized && forall j :: ActiveRun(s, j) ==> j == k
    ensures SafeStep(s, Scan(k, gas, listing)) && NothingHeld(s) && Exclusive(DoScan(s, k, gas, listing))
  {
    hide CanRun, Run, Inv, DoScan, Exclusive, Lists;
    var steps :| CanRun(Fresh(s.target), steps) && Run(Fresh(s.target), steps) == s;
    UnmarkedOverRun(Fresh(s.target), steps);
    forall j | j in s.tasks ensures TaskIds(s.tasks[j]) == {} {
      assert IsRun(s.tasks[j]) ==> ActiveRun(s, j);
    }
    ReachableInv(s);
    InitScanExact(s, k, gas, listing);
  }

  // ---------------------------------------------------------------- a stuck run and its coin

  /** The run only has coins under this id that cannot pay the budget it keeps asking for. */
  ghost predicate Starved(s: Station, k: nat, id: ObjectId, budget: nat) {
    && k in s.tasks && s.tasks[k].Splitting? && id in s.used
    && id in s.tasks[k].counts && s.tasks[k].gas * s.tasks[k].counts[id] == budget
    && (exists c :: c in s.tasks[k].work && c.id == id)
    && forall c :: c in s.tasks[k].work && c.id == id ==> c.balance < budget
  }

  ghost predicate Short(l: Ledger, id: ObjectId, budget: nat) {
    id in l ==> l[id].balance < budget
  }

  /** At no moment of the run does the ledger hold the budget under this id. */
  ghost predicate StaysShort(s: Station, steps: seq<Step>, id: ObjectId, budget: nat)
    decreases |steps|
  {
    Short(s.ledger, id, budget)
    && (steps == [] || (Enabled(s, steps[0]) ==> StaysShort(Apply(s, steps[0]), steps[1..], id, budget)))
  }

  /** Stuck, or down. */
  ghost predicate StuckOrDown(s: Station, k: nat, id: ObjectId, budget: nat) {
    k < s.nextTask && (k !in s.tasks || Starved(s, k, id, budget))
  }

  /** A coin that was not there, or was the coin of another id, stays that. */
  lemma ReplacedCoin(work: seq<GasCoin>, i: nat, c: GasCoin, id: ObjectId, budget: nat)
    requires i < |work| && c.id == work[i].id && (c.id == id ==> c.balance < budget)
    requires exists d :: d in work && d.id == id
    requires forall d :: d in work && d.id == id ==> d.balance < budget
    ensures exists d :: d in work[i := c] && d.id == id
    ensures forall d :: d in work[i := c] && d.id == id ==> d.balance < budget
  {
    var w := work[i := c];
    var d :| d in work && d.id == id;
    var j :| 0 <= j < |work| && work[j] == d;
    assert w[j] in w && w[j].id == id;
    forall e | e in w && e.id == id ensures e.balance < budget {
      var m :| 0 <= m < |w| && w[m] == e;
      if m != i {
        assert work[m] == e;
      }
    }
  }

  lemma ReserveTasks(s: Station, b: nat, e: nat, n: nat)
    ensures
      var t := DoReserve(s, b, e, n);
      t.tasks == s.tasks && t.used == s.used && t.nextTask == s.nextTask && t.ledger == s.ledger
  {
  }

  lemma ExpireTasks(s: Station, now: nat, k: nat)
    requires k < s.nextTask
    ensures
      var t := DoExpire(s, now);
      && (k in t.tasks <==> k in s.tasks) && (k in s.tasks ==> t.tasks[k] == s.tasks[k])
      && t.used == s.used && s.nextTask <= t.nextTask
  {
    hide ClaimedIds, Own, Due, Pool.Claimed;
  }

  /** A step that is not its own leaves a run with queued coins as it is. */
  ghost predicate Foreign(st: Step, k: nat) {
    && st != Abandon(k) && !(st.SplitCoin? && st.k == k) && !(st.SplitErr? && st.k == k)
  }

  ghost predicate Untouched(s: Station, t: Station, k: nat) {
    && s.used <= t.used && s.nextTask <= t.nextTask
    && (k in t.tasks <==> k in s.tasks) && (k in s.tasks ==> t.tasks[k] == s.tasks[k])
  }

  lemma PayersLeave(s: Station, st: Step, k: nat)
    requires Enabled(s, st) && k < s.nextTask && (k in s.tasks ==> s.tasks[k].Splitting?)
    requires OfAPayment(st)
    ensures Untouched(s, Apply(s, st), k)
  {
    hide SumOf, Post, Smashed, Add, Own, Oversized, CanPay, Lists, TaskIds, At;
  }

  lemma RunnersLeave(s: Station, st: Step, k: nat)
    requires Enabled(s, st) && k < s.nextTask && Foreign(st, k)
    requires k in s.tasks ==> s.tasks[k].Splitting? && s.tasks[k].work != []
    requires st.Scan? || st.SplitCoin? || st.SplitErr? || st.AddChunk? || st.EndRun? || st.Abandon?
    ensures Untouched(s, Apply(s, st), k)
  {
    hide Post, Add, Own, Lists, TaskIds, At, SplitOk, SplitParts, CountOf, Large, Small, IdSet, Selected, KeepLimit;
  }

  lemma OthersLeave(s: Station, st: Step, k: nat)
    requires Enabled(s, st) && k < s.nextTask && (k in s.tasks ==> s.tasks[k].Splitting? && s.tasks[k].work != [])
    requires Foreign(st, k)
    ensures Untouched(s, Apply(s, st), k)
  {
    hide SumOf, Post, Smashed, Add, Own, Oversized, CanPay, Lists, TaskIds, At, SplitOk, CanSplit, CountOf, IdSet,
      Selected, DoReserve, DoExpire, DoExecute, DoFail, DoReadLatest, DoRelease, DoAbandon, DoScan, DoSplit, DoHide,
      DoReread, DoAddChunk;
    if OfAPayment(st) {
      hide Enabled, Apply, Untouched;
      PayersLeave(s, st, k);
    } else if st.Scan? || st.SplitCoin? || st.SplitErr? || st.AddChunk? || st.EndRun? || st.Abandon? {
      hide Enabled, Apply, Untouched;
      RunnersLeave(s, st, k);
    } else if st.ReserveGas? {
      ReserveTasks(s, st.budget, st.expiration, st.now);
    } else if st.ExpireCoins? {
      ExpireTasks(s, st.now, k);
    }
  }

  /** Its own steps do not help a starved coin as long as the ledger has too little under its id. */
  lemma OwnSplit(s: Station, k: nat, i: nat, x: Split, id: ObjectId, budget: nat)
    requires Starved(s, k, id, budget) && k < s.nextTask && CanSplit(s, k, i) && SplitOk(s, k, i, x)
    ensures StuckOrDown(DoSplit(s, k, i, x), k, id, budget)
  {
    hide Post, Own, PartsBy, KeepLimit;
    var t := DoSplit(s, k, i, x);
    var w, parts := s.tasks[k].work, SplitParts(s, k, i, x);
    assert w[i] in w;
    PartsByIds(s, k, i, x, id);
    var d :| d in w && d.id == id;
    assert d in w[..i] + w[i + 1..] by {
      var j :| 0 <= j < |w| && w[j] == d;
      assert j != i;
      assert if j < i then w[..i][j] == d else w[i + 1..][j - i - 1] == d;
    }
    LargeOfParts(parts, KeepLimit(s.tasks[k].gas, s.target));
    assert d in t.tasks[k].work;
    forall c | c in t.tasks[k].work && c.id == id ensures c.balance < budget {
      assert c !in Large(parts, KeepLimit(s.tasks[k].gas, s.target));
      assert c in w;
    }
  }

  lemma {:induction false} LargeOfParts(coins: seq<GasCoin>, limit: nat)
    ensures forall c :: c in Large(coins, limit) ==> c in coins
  {
    if coins != [] {
      LargeOfParts(coins[1..], limit);
    }
  }

  /** No part of another coin's split has this id. */
  lemma PartsByIds(s: Station, k: nat, i: nat, x: Split, id: ObjectId)
    requires CanSplit(s, k, i) && SplitOk(s, k, i, x) && id in s.used && s.tasks[k].work[i].id != id
    ensures forall c :: c in SplitParts(s, k, i, x) ==> c.id != id
    ensures |SplitParts(s, k, i, x)| == |x.created| + 1 && SplitParts(s, k, i, x)[|x.created|].id == x.left.id
  {
    hide PartsBy, NewBalance;
    var c, parts := s.tasks[k].work[i], SplitParts(s, k, i, x);
    PartsByExact(c, CountOf(s, k, i), s.tasks[k].gas * CountOf(s, k, i), x.net, x.created, x.left);
    forall p | p in parts ensures p.id != id {
      var j :| 0 <= j < |parts| && parts[j] == p;
      assert j < |x.created| ==> x.created[j].id !in s.used;
    }
  }

  lemma OwnHide(s: Station, k: nat, i: nat, x: Split, id: ObjectId, budget: nat)
    requires Starved(s, k, id, budget) && k < s.nextTask && CanSplit(s, k, i) && SplitOk(s, k, i, x)
    ensures StuckOrDown(DoHide(s, k, i, x), k, id, budget)
  {
    hide Post, Own, PartsBy, KeepLimit;
    assert s.tasks[k].work[i] in s.tasks[k].work;
    PartsByIds(s, k, i, x, id);
    ReplacedCoin(s.tasks[k].work, i, SplitParts(s, k, i, x)[|x.created|], id, budget);
  }

  lemma OwnReread(s: Station, k: nat, i: nat, id: ObjectId, budget: nat)
    requires Starved(s, k, id, budget) && k < s.nextTask && i < |s.tasks[k].work| && 0 < s.target
    requires Short(s.ledger, id, budget) && forall j :: j in s.ledger ==> s.ledger[j].id == j
    ensures StuckOrDown(DoReread(s, k, i), k, id, budget)
  {
    hide Own;
    if s.tasks[k].work[i].id in s.ledger {
      ReplacedCoin(s.tasks[k].work, i, s.ledger[s.tasks[k].work[i].id], id, budget);
    }
  }

  /** The ledger files its coins under their ids. */
  ghost predicate Filed(l: Ledger) {
    forall id :: id in l ==> l[id].id == id
  }

  lemma {:induction false} AddAllFiled(l: Ledger, coins: seq<GasCoin>)
    requires Filed(l)
    ensures Filed(AddAll(l, coins))
    decreases |coins|
  {
    if coins != [] {
      AddAllFiled(l[coins[0].id := coins[0]], coins[1..]);
    }
  }

  lemma PostFiled(l: Ledger, spent: set<ObjectId>, made: seq<GasCoin>)
    requires Filed(l)
    ensures Filed(Post(l, spent, made))
  {
    AddAllFiled(l - spent, made);
  }

  lemma FiledByPayment(s: Station, st: Step)
    requires Enabled(s, st) && Filed(s.ledger) && (st.ExecuteOk? || st.ExecuteErr?)
    ensures Filed(Apply(s, st).ledger)
  {
    hide Filed, Post, Own, Oversized, SumOf, Smashed;
    match st
    case ExecuteOk(k, e) => PostFiled(s.ledger, SetOf(s.tasks[k].ids), [Smashed(s, s.tasks[k].ids, e)]);
    case ExecuteErr(k, e) =>
      if e.Some? { PostFiled(s.ledger, SetOf(s.tasks[k].ids), [Smashed(s, s.tasks[k].ids, e.value)]); }
  }

  lemma FiledBySplit(s: Station, st: Step)
    requires Enabled(s, st) && Filed(s.ledger) && (st.SplitCoin? || st.SplitErr?)
    ensures Filed(Apply(s, st).ledger)
  {
    hide Filed, Post, Own, TaskIds, IdSet, Large, Small, SplitParts, CountOf;
    match st
    case SplitCoin(k, i, x) => PostFiled(s.ledger, {s.tasks[k].work[i].id}, SplitParts(s, k, i, x));
    case SplitErr(k, i, x) => if x.Some? { PostFiled(s.ledger, {s.tasks[k].work[i].id}, SplitParts(s, k, i, x.value)); }
  }

  lemma FiledStays(s: Station, st: Step)
    requires Enabled(s, st) && Filed(s.ledger)
    ensures Filed(Apply(s, st).ledger)
  {
    hide Own, Oversized, Lists, Selected, CanPay, SumOf, TaskIds, At, IdSet, Large, Small, Add, CanSplit, SplitOk,
      DoExecute, DoFail, DoSplit, DoHide, DoReread, DoReserve, ClaimedIds, Due, Pool.Claimed;
    if st.ExecuteOk? || st.ExecuteErr? {
      hide Apply, Enabled, Filed;
      FiledByPayment(s, st);
    } else if st.SplitCoin? || st.SplitErr? {
      hide Apply, Enabled, Filed;
      FiledBySplit(s, st);
    } else if st.ReserveGas? {
      ReserveTasks(s, st.budget, st.expiration, st.now);
    }
  }

  lemma StuckByStep(s: Station, st: Step, k: nat, id: ObjectId, budget: nat)
    requires Enabled(s, st) && StuckOrDown(s, k, id, budget) && Filed(s.ledger) && Short(s.ledger, id, budget)
    ensures StuckOrDown(Apply(s, st), k, id, budget) && st != EndRun(k) && st != AddChunk(k)
  {
    hide SumOf, Post, Smashed, Add, Own, Oversized, CanPay, Lists, TaskIds, At, SplitOk, CountOf, IdSet, Selected,
      DoReserve, DoExpire, DoExecute, DoFail, DoReadLatest, DoRelease, DoScan, DoSplit, DoHide, DoReread, DoAddChunk;
    if Foreign(st, k) {
      OthersLeave(s, st, k);
      hide Enabled, Apply;
      StillStarved(s, Apply(s, st), k, id, budget);
    } else if st.SplitCoin? {
      OwnSplit(s, k, st.i, st.split, id, budget);
    } else if st.SplitErr? {
      if st.hidden.Some? {
        OwnHide(s, k, st.i, st.hidden.value, id, budget);
      } else {
        OwnReread(s, k, st.i, id, budget);
      }
    }
  }

  lemma StillStarved(s: Station, t: Station, k: nat, id: ObjectId, budget: nat)
    requires StuckOrDown(s, k, id, budget) && Untouched(s, t, k)
    ensures StuckOrDown(t, k, id, budget)
  {
  }

  /**
   * In every run of the system, safe or not and for any length of time: as long as the ledger never holds the
   * kept budget under the coin's id, a stuck run does not end and adds nothing.
   */
  lemma {:induction false} StuckUntilFed(s: Station, steps: seq<Step>, u: Station, k: nat, id: ObjectId, budget: nat)
    requires Leads(s, steps, u) && StuckOrDown(s, k, id, budget) && Filed(s.ledger) && StaysShort(s, steps, id, budget)
    ensures StuckOrDown(u, k, id, budget) && EndRun(k) !in steps && AddChunk(k) !in steps
    decreases |steps|
  {
    hide Enabled, Apply, StuckOrDown, Filed, Short;
    if steps != [] {
      StuckByStep(s, steps[0], k, id, budget);
      FiledStays(s, steps[0]);
      StuckUntilFed(Apply(s, steps[0]), steps[1..], u, k, id, budget);
    }
  }

  /** Read again, a queued coin pays the next attempt exactly if the ledger holds the kept budget under its id. */
  lemma PaysIfFed(s: Station, k: nat, i: nat)
    requires Enabled(s, SplitErr(k, i, None)) && 0 < CountOf(s, k, i)
    requires s.tasks[k].work[i].id in s.ledger && Filed(s.ledger)
    ensures
      var t, id := DoReread(s, k, i), s.tasks[k].work[i].id;
      CanSplit(t, k, i) <==> s.tasks[k].gas * CountOf(s, k, i) <= s.ledger[id].balance
    ensures forall x ::
      var t := DoReread(s, k, i);
      CanSplit(t, k, i) && SplitOk(t, k, i, x) ==> s.tasks[k].work[i].id !in DoSplit(t, k, i, x).tasks[k].counts
  {
    hide Post, Own, PartsBy, Large, Small, IdSet, KeepLimit, SplitOk;
  }
}
