/**
 * Runs that may interleave in any way, of which only this is asked: no execution leaves a payment of
 * exactly the threshold, no refresh scan comes between a failed execution that did take effect and the
 * look at its coins or while another run has a large coin queued, no Init scan comes while coins are held, and
 * no release is lost after it was done. In these no refresh scan ever selects
 * a coin that somebody holds: the exact threshold is the only balance at which the release rule of
 * execution and the selection rule of the scan overlap.
 */
module StationThreshold {
  import opened Coins
  import opened SplitMath
  import opened Pool
  import opened Ledger
  import opened Station
  import opened StationInvariant
  import opened StationSteps
  import opened StationTheorems

  /** The surviving payment coin does not end up at exactly the threshold. */
  ghost predicate MissesThreshold(s: Station, st: Step)
    requires Enabled(s, st)
  {
    match st
    case ExecuteOk(k, e) => Smashed(s, s.tasks[k].ids, e).balance != Threshold(s)
    case ExecuteErr(k, e) => e.Some? ==> Smashed(s, s.tasks[k].ids, e.value).balance != Threshold(s)
    case Scan(k, _, _) => if s.tasks[k].init then NothingHeld(s) else !UnreadMerge(s) && !QueuedElsewhere(s, k)
    case ReleaseErr(k, applied) => applied ==> s.tasks[k].coins == []
    case _ => true
  }

  ghost predicate CanGo(s: Station, steps: seq<Step>)
    decreases |steps|
  {
    steps == [] || (Enabled(s, steps[0]) && MissesThreshold(s, steps[0]) && CanGo(Apply(s, steps[0]), steps[1..]))
  }

  /** No coin of exactly the threshold is held outside of a run. */
  ghost predicate NotAt(s: Station) {
    forall id :: id in s.owner && id in s.ledger && s.ledger[id].balance == Threshold(s) ==> InRun(s, s.owner[id])
  }

  lemma NotAtMeans(s: Station)
    requires Inv(s) && NotAt(s)
    ensures !AtThreshold(s)
  {
    hide At, PoolOk, PromisesOk, ClaimsOk, TasksOk, UsedOk, CustodyOk, ValueOk;
    forall p, id | id in At(s, p) && id in s.ledger && s.ledger[id].balance == Threshold(s) ensures InRun(s, p) {
      assert Holds(s, p, id);
    }
  }

  /** Every coin held outside of runs was so before, and is the same coin. */
  ghost predicate Calm(s: Station, t: Station) {
    && t.target == s.target
    && forall id :: id in t.owner && id in t.ledger && !InRun(t, t.owner[id]) ==>
         && id in s.ledger && t.ledger[id] == s.ledger[id]
         && id in s.owner && !InRun(s, s.owner[id])
  }

  lemma CalmKeeps(s: Station, t: Station)
    requires NotAt(s) && Calm(s, t)
    ensures NotAt(t)
  {
  }

  lemma OwnedBy(s: Station, p: Place)
    requires Inv(s)
    ensures forall id :: id in At(s, p) ==> id in s.owner && s.owner[id] == p
  {
    hide At, PoolOk, PromisesOk, ClaimsOk, TasksOk, UsedOk, CustodyOk, ValueOk;
    forall id | id in At(s, p) ensures id in s.owner && s.owner[id] == p {
      assert Holds(s, p, id);
    }
  }

  /** A place that is still free holds nothing. */
  lemma NextIsFree(s: Station)
    requires Inv(s)
    ensures forall id :: id in s.owner ==> s.owner[id] != Busy(s.nextTask)
    ensures s.nextTask !in s.tasks
  {
    hide TaskOk, PoolOk, PromisesOk, ClaimsOk, UsedOk, CustodyOk, ValueOk;
    forall id | id in s.owner ensures s.owner[id] != Busy(s.nextTask) {
      assert Holds(s, s.owner[id], id);
    }
  }

  lemma CalmDeposit(s: Station, coin: GasCoin)
    requires Inv(s) && coin.id !in s.used
    ensures Calm(s, DoDeposit(s, coin))
  {
    hide PoolOk, PromisesOk, ClaimsOk, TasksOk, OwnerOk, CustodyOk, ValueOk;
  }

  lemma CalmReserve(s: Station, budget: nat, expiration: nat, now: nat)
    requires Inv(s)
    ensures Calm(s, DoReserve(s, budget, expiration, now))
  {
    hide Inv, Taken, Total, IdSet;
    if Reserve(s.pool, budget, expiration, now).0.Reserved? {
      ReservedWasListed(s, budget, expiration, now);
      OwnedBy(s, Avail);
    }
  }

  lemma ReservedWasListed(s: Station, budget: nat, expiration: nat, now: nat)
    requires Inv(s) && Reserve(s.pool, budget, expiration, now).0.Reserved?
    ensures IdSet(Reserve(s.pool, budget, expiration, now).0.coins) <= At(s, Avail)
  {
    hide TaskOk, PromisesOk, ClaimsOk, OwnerOk, UsedOk, CustodyOk, ValueOk;
    ReserveMoves(s, budget, expiration, now);
  }

  lemma CalmReady(s: Station, id: ReservationId)
    requires Inv(s) && id in s.pool.reservations
    ensures Calm(s, DoReady(s, id))
  {
    hide Inv, At;
    OwnedBy(s, Resv(id));
    NextIsFree(s);
  }

  lemma CalmTask(s: Station, k: nat, x: Task)
    requires k in s.tasks && !IsRun(s.tasks[k])
    ensures Calm(s, s.(tasks := s.tasks[k := x]))
  {
  }

  lemma CalmLatest(s: Station, k: nat, listing: seq<GasCoin>)
    requires Inv(s) && k in s.tasks && (s.tasks[k].Failed? || s.tasks[k].Expired?)
    requires Lists(listing, s.ledger, TaskIds(s.tasks[k]))
    ensures Calm(s, DoReadLatest(s, k, listing))
  {
    hide Inv, Oversized, TaskIds, IdSet;
    OwnedBy(s, Busy(k));
  }

  lemma CalmRelease(s: Station, k: nat)
    requires Inv(s) && k in s.tasks && s.tasks[k].Settled?
    ensures Calm(s, DoRelease(s, k))
  {
    hide Inv, Add, TaskIds;
    OwnedBy(s, Busy(k));
  }

  lemma CalmAbandon(s: Station, k: nat)
    requires Inv(s) && k in s.tasks
    ensures Calm(s, DoAbandon(s, k))
  {
    hide TaskIds, PoolOk, PromisesOk, ClaimsOk, TasksOk, UsedOk, CustodyOk, ValueOk;
    forall id | id in s.owner && s.owner[id] == Busy(k) ensures id in TaskIds(s.tasks[k]) {
      assert Holds(s, Busy(k), id);
    }
  }

  lemma CalmBoot(s: Station)
    requires Inv(s)
    ensures Calm(s, DoBoot(s))
  {
    hide Inv;
    NextIsFree(s);
  }

  lemma CalmExpire(s: Station, now: nat)
    requires Inv(s)
    ensures Calm(s, DoExpire(s, now))
  {
    hide Inv, ClaimedIds, Due;
    NextIsFree(s);
    LapsedWasReserved(s, now);
  }

  lemma LapsedWasReserved(s: Station, now: nat)
    requires Inv(s)
    ensures forall id :: id in ClaimedIds(s.pool, now) ==> id in s.owner && s.owner[id].Resv?
  {
    hide Inv;
    forall id | id in ClaimedIds(s.pool, now) ensures id in s.owner && s.owner[id].Resv? {
      var r :| r in Pool.Claimed(s.pool, now) && id in s.pool.reservations[r];
      OwnedBy(s, Resv(r));
      assert id in At(s, Resv(r));
    }
  }

  lemma CalmStart(s: Station, boot: Option<nat>)
    requires Inv(s)
    ensures Calm(s, DoStart(s, boot))
  {
    hide Inv;
    NextIsFree(s);
  }

  lemma CalmScan(s: Station, k: nat, gas: nat, listing: seq<GasCoin>)
    requires k in s.tasks && s.tasks[k].Locked?
    ensures Calm(s, DoScan(s, k, gas, listing))
  {
    hide Large, Small, IdSet, Own;
    assert forall id :: id in DoScan(s, k, gas, listing).owner && id !in IdSet(listing) ==> id in s.owner by {
      OwnMeans(s.owner, IdSet(listing), Busy(k));
    }
    OwnMeans(s.owner, IdSet(listing), Busy(k));
  }

  lemma OwnMeans(owner: map<ObjectId, Place>, ids: set<ObjectId>, p: Place)
    ensures forall id :: id in Own(owner, ids, p) <==> id in owner || id in ids
    ensures forall id :: id in Own(owner, ids, p) ==> Own(owner, ids, p)[id] == if id in ids then p else owner[id]
  {
  }

  lemma CalmEnd(s: Station, k: nat)
    requires Inv(s) && Enabled(s, EndRun(k))
    ensures Calm(s, s.(pool := ReleaseInitLock(s.pool), tasks := s.tasks - {k}))
  {
    hide TaskOk, PoolOk, PromisesOk, ClaimsOk, TasksOk, UsedOk, CustodyOk, ValueOk;
    assert TaskIds(s.tasks[k]) == {};
    forall id | id in s.owner ensures s.owner[id] != Busy(k) {
      assert Holds(s, s.owner[id], id);
    }
  }

  /** What a run hands over is smaller than the threshold, by the guard on the gas cost. */
  lemma ChunkNotAt(s: Station, k: nat)
    requires Inv(s) && NotAt(s) && Enabled(s, AddChunk(k))
    ensures NotAt(DoAddChunk(s, k))
  {
    hide Inv, Add, IdSet, Own, TaskIds, Large, Small;
    var done := s.tasks[k].done;
    var n := if |done| < CHUNK then |done| else CHUNK;
    DoneBelow(s, k, n);
    OwnMeans(s.owner, IdSet(done[..n]), Avail);
  }

  lemma DoneBelow(s: Station, k: nat, n: nat)
    requires Inv(s) && k in s.tasks && s.tasks[k].Splitting? && n <= |s.tasks[k].done|
    ensures forall id :: id in IdSet(s.tasks[k].done[..n]) && id in s.ledger ==> s.ledger[id].balance < Threshold(s)
  {
    hide PoolOk, PromisesOk, ClaimsOk, OwnerOk, UsedOk, CustodyOk, ValueOk;
    assert TaskOk(s.tasks[k], s.ledger, s.target);
    var part := s.tasks[k].done[..n];
    assert forall c :: c in part ==> c in s.tasks[k].done;
    KeepLimitBelowThreshold(s.tasks[k].gas, s.target);
  }

  lemma SplitCalm(s: Station, k: nat, i: nat, x: Split)
    requires Inv(s) && Enabled(s, SplitCoin(k, i, x))
    ensures Calm(s, DoSplit(s, k, i, x))
  {
    hide Inv, TaskIds, Large, Small, Own, IdSet, Post, PartsBy, Worth, Total, OnlyOwn, CountOf;
    SplitFrame(s, k, i, x);
    OwnMeans(s.owner, IdSet(SplitParts(s, k, i, x)), Busy(k));
  }

  lemma HideCalm(s: Station, k: nat, i: nat, x: Split)
    requires Inv(s) && CanSplit(s, k, i) && SplitOk(s, k, i, x)
    ensures Calm(s, DoHide(s, k, i, x))
  {
    hide Inv, TaskIds, Own, IdSet, Post, PartsBy, Worth, Total, OnlyOwn, CountOf;
    SplitFrame(s, k, i, x);
    assert SplitOwn(s, k, i, x) by { HiddenOwn(s, k, i, x); }
  }

  /** A held coin among the parts is the split coin itself, which the run holds. */
  ghost predicate SplitOwn(s: Station, k: nat, i: nat, x: Split)
    requires CanSplit(s, k, i) && SplitOk(s, k, i, x)
  {
    forall id :: id in IdSet(SplitParts(s, k, i, x)) && id in s.owner ==> s.owner[id] == Busy(k)
  }

  lemma HiddenOwn(s: Station, k: nat, i: nat, x: Split)
    requires Inv(s) && CanSplit(s, k, i) && SplitOk(s, k, i, x)
    ensures SplitOwn(s, k, i, x)
  {
    hide TaskIds, OwnerOk, PromisesOk, TasksOk, Worth, Total, PoolOk, ClaimsOk, Own, IdSet, SetOf, Post, PartsBy,
      OnlyOwn, Distinct, CustodyOk, ValueOk, CountOf;
    WorkFacts(s, k, i);
    PartsFacts(s, k, i, x);
    SplitLedger(s, k, s.tasks[k].work[i], SplitParts(s, k, i, x), x.net,
      Post(s.ledger, {s.tasks[k].work[i].id}, SplitParts(s, k, i, x)));
  }

  lemma SplitFrame(s: Station, k: nat, i: nat, x: Split)
    requires Inv(s) && CanSplit(s, k, i) && SplitOk(s, k, i, x)
    ensures
      var parts := SplitParts(s, k, i, x);
      var m := Post(s.ledger, {s.tasks[k].work[i].id}, parts);
      forall id :: id in m && id !in IdSet(parts) ==> id in s.ledger && m[id] == s.ledger[id]
  {
    hide TaskIds, OwnerOk, PromisesOk, TasksOk, Worth, Total, PoolOk, ClaimsOk, Own, IdSet, SetOf, Post, PartsBy,
      OnlyOwn, Distinct, CustodyOk, ValueOk, CountOf;
    var c := s.tasks[k].work[i];
    var parts := SplitParts(s, k, i, x);
    WorkFacts(s, k, i);
    PartsFacts(s, k, i, x);
    SplitLedger(s, k, c, parts, x.net, Post(s.ledger, {c.id}, parts));
  }

  /** A payment is the one way to a new balance outside of runs. */
  lemma PaidNotAt(s: Station, t: Station, k: nat, ids: seq<ObjectId>, coin: GasCoin, net: int)
    requires NotAt(s) && k in s.tasks && !IsRun(s.tasks[k]) && Paid(s, t.ledger, k, ids, coin, net)
    requires coin.balance != Threshold(s) && t.target == s.target
    requires t.owner.Keys <= s.owner.Keys
    requires forall id :: id in t.owner && id !in ids ==> t.owner[id] == s.owner[id]
    requires forall j :: j != k ==> (j in t.tasks <==> j in s.tasks) && (j in t.tasks ==> t.tasks[j] == s.tasks[j])
    ensures NotAt(t)
  {
    hide OnlyOwn, Merged, Worth;
  }

  lemma ExecuteNotAt(s: Station, k: nat, e: Effects)
    requires Inv(s) && NotAt(s) && Enabled(s, ExecuteOk(k, e)) && Smashed(s, s.tasks[k].ids, e).balance != Threshold(s)
    ensures NotAt(DoExecute(s, k, e))
  {
    hide Inv, NotAt, SumOf, Worth, Post, Paid, Oversized, Own;
    var ids := s.tasks[k].ids;
    var t := DoExecute(s, k, e);
    PaymentIsPaid(s, k, e);
    RecordedIsSmashed(s, k, e);
    OwnMeans(s.owner - SetOf(ids), {ids[0]}, Busy(k));
    PaidOwned(s, t.ledger, k, ids, Smashed(s, ids, e), e.net);
    PaidNotAt(s, t, k, ids, Smashed(s, ids, e), e.net);
  }

  lemma PaidOwned(s: Station, m: Ledger, k: nat, ids: seq<ObjectId>, coin: GasCoin, net: int)
    requires Paid(s, m, k, ids, coin, net)
    ensures ids[0] in ids && forall id :: id in ids ==> id in s.owner
  {
  }

  lemma FailNotAt(s: Station, k: nat, e: Option<Effects>)
    requires Inv(s) && NotAt(s) && Enabled(s, ExecuteErr(k, e)) && MissesThreshold(s, ExecuteErr(k, e))
    ensures NotAt(DoFail(s, k, e))
  {
    hide Inv, SumOf, Worth, Post, Paid, Own;
    var ids := s.tasks[k].ids;
    if e.Some? {
      PaymentIsPaid(s, k, e.value);
      PaidNotAt(s, DoFail(s, k, e), k, ids, Smashed(s, ids, e.value), e.value.net);
    }
  }

  lemma StepNotAt(s: Station, st: Step)
    requires Inv(s) && NotAt(s) && Enabled(s, st) && MissesThreshold(s, st)
    ensures NotAt(Apply(s, st))
  {
    hide Inv, NotAt, Calm, NothingHeld, UnreadMerge, QueuedElsewhere, TaskIds, At, CanPay, SumOf, Lists, DoDeposit,
      DoReserve, DoReady, DoExecute, DoFail, DoReadLatest, DoRelease, DoAbandon, DoBoot, DoReread, DoExpire, DoStart,
      DoScan, DoSplit, DoHide, CanSplit, SplitOk, DoAddChunk, Selected;
    match st
    case ExecuteOk(k, e) => ExecuteNotAt(s, k, e);
    case ExecuteErr(k, e) => FailNotAt(s, k, e);
    case AddChunk(k) => ChunkNotAt(s, k);
    case CleanAndInit => CleanNotAt(s);
    case _ =>
      StepCalm(s, st);
      CalmKeeps(s, Apply(s, st));
  }

  lemma CleanNotAt(s: Station)
    ensures NotAt(DoClean(s))
  {
  }

  lemma StepCalm(s: Station, st: Step)
    requires Inv(s) && Enabled(s, st)
    requires !st.ExecuteOk? && !st.ExecuteErr? && !st.AddChunk? && !st.CleanAndInit?
    ensures Calm(s, Apply(s, st))
  {
    hide Inv, NotAt, Calm, NothingHeld, UnreadMerge, QueuedElsewhere, TaskIds, At, CanPay, SumOf, Lists, DoDeposit,
      DoReserve, DoReady, DoExecute, DoFail, DoReadLatest, DoRelease, DoAbandon, DoBoot, DoReread, DoExpire, DoStart,
      DoScan, DoSplit, DoHide, CanSplit, SplitOk, DoAddChunk, Selected;
    match st
    case Deposit(coin) => CalmDeposit(s, coin);
    case ReserveGas(budget, expiration, now) => CalmReserve(s, budget, expiration, now);
    case ReadyForExecution(id) => CalmReady(s, id);
    case QueryTotal(k) => CalmTask(s, k, Queried(s.tasks[k].ids, SumOf(s.ledger, s.tasks[k].ids)));
    case ReadLatest(k, listing) => CalmLatest(s, k, listing);
    case ReleaseCoins(k) => CalmRelease(s, k);
    case ReleaseErr(k, applied) => CalmPool(s, Apply(s, st));
    case Abandon(k) => CalmAbandon(s, k);
    case ExpireCoins(now) => CalmExpire(s, now);
    case Boot => CalmBoot(s);
    case StartRun(boot) => CalmStart(s, boot);
    case AcquireLost => CalmPool(s, Apply(s, st));
    case Scan(k, gas, listing) => CalmScan(s, k, gas, listing);
    case SplitCoin(k, i, x) => SplitCalm(s, k, i, x);
    case SplitErr(k, i, x) => if x.Some? { HideCalm(s, k, i, x.value); } else { CalmReread(s, k, i); }
    case EndRun(k) => CalmEnd(s, k);
    case MaintenanceOn(_, _) => CalmPool(s, Apply(s, st));
    case MaintenanceOff => CalmPool(s, Apply(s, st));
    case Tick(_) => CalmPool(s, Apply(s, st));
  }

  lemma CalmReread(s: Station, k: nat, i: nat)
    requires Inv(s) && k in s.tasks && s.tasks[k].Splitting? && i < |s.tasks[k].work| && 0 < s.target
    ensures Calm(s, DoReread(s, k, i))
  {
    hide Inv, DoReread;
    RereadIsSame(s, k, i);
    CalmPool(s, s);
  }

  lemma CalmPool(s: Station, t: Station)
    requires t == s.(pool := t.pool, clock := t.clock)
    ensures Calm(s, t)
  {
  }

  /** The main result: such runs are among the safe ones, and no refresh scan in them can go wrong. */
  lemma {:induction false} MissedThresholdIsSafe(s: Station, steps: seq<Step>)
    requires Inv(s) && NotAt(s) && CanGo(s, steps)
    ensures CanRun(s, steps) && Inv(Run(s, steps)) && !AtThreshold(Run(s, steps))
    decreases |steps|
  {
    hide Inv, NotAt, Enabled, Apply, AtThreshold, UnreadMerge, QueuedElsewhere, NothingHeld;
    NotAtMeans(s);
    if steps != [] {
      KeepStep(s, steps[0]);
      StepNotAt(s, steps[0]);
      MissedThresholdIsSafe(Apply(s, steps[0]), steps[1..]);
    }
  }

  lemma ThresholdIsTheOnlyGap(target: nat, steps: seq<Step>)
    requires CanGo(Fresh(target), steps)
    ensures CanRun(Fresh(target), steps) && Exclusive(Run(Fresh(target), steps))
    ensures !AtThreshold(Run(Fresh(target), steps))
  {
    hide Inv, CanGo, CanRun, Run, AtThreshold, Exclusive;
    FreshInv(target);
    assert NotAt(Fresh(target));
    MissedThresholdIsSafe(Fresh(target), steps);
    InvIsExclusive(Run(Fresh(target), steps));
  }
}
