/**
 * What becomes of a split that happened behind an error. The created coins are nobody's until a scan selects
 * them; and the run may be left with a coin that can never pay, so that it never ends.
 */
module StationHidden {
  import opened Coins
  import opened SplitMath
  import opened Pool
  import opened Ledger
  import opened Station
  import opened StationInvariant
  import opened StationSteps
  import opened StationTheorems

  /** A scan that selects this coin. */
  ghost predicate Finds(s: Station, st: Step, id: ObjectId)
    requires Enabled(s, st)
  {
    st.Scan? && id in Selected(s.ledger, ScanThreshold(s, s.tasks[st.k].init))
  }

  // ---------------------------------------------------------------- the created coins

  /** In every reachable state the coins of hidden splits are owned, and held by nobody. */
  lemma StrandedIsUnheld(s: Station, id: ObjectId)
    requires Reachable(s) && id in s.stranded
    ensures id in s.ledger && forall p :: id !in At(s, p)
  {
    hide Reachable, At;
    ReachableInv(s);
    forall p ensures id !in At(s, p) {
      assert Holds(s, p, id) ==> id in s.owner;
    }
  }

  /** Steps act on the ledger only through coins they hold, and on new ids. */
  lemma NobodysCoin(s: Station, st: Step, id: ObjectId)
    requires Inv(s) && Enabled(s, st) && id in s.ledger && id !in s.owner
    ensures id in Apply(s, st).ledger && Apply(s, st).ledger[id] == s.ledger[id]
  {
    hide Inv, At, TaskIds, CanPay, SumOf, Lists, Selected, DoExecute, DoFail, DoReadLatest, DoSplit, DoHide, CanSplit,
      SplitOk, DoReread, DoReserve, DoExpire, IdSet, Own, Add, Large, Small, IsRun;
    IsUsed(s, id);
    match st
    case ExecuteOk(k, e) => ExecuteLedger(s, k, e, id);
    case ExecuteErr(k, e) => FailLedger(s, k, e, id);
    case SplitCoin(k, i, x) => SplitOthers(s, k, i, x, id);
    case SplitErr(k, i, x) =>
      if x.Some? {
        SplitOthers(s, k, i, x.value, id);
        HideLedger(s, k, i, x.value);
      } else {
        RereadIsSame(s, k, i);
      }
    case ReserveGas(b, e, n) => ReserveLedger(s, b, e, n);
    case ReadLatest(k, listing) => LatestLedger(s, k, listing);
    case ExpireCoins(now) => ExpireLedger(s, now);
    case _ =>
  }

  lemma IsUsed(s: Station, id: ObjectId)
    requires Inv(s) && id in s.ledger
    ensures id in s.used
  {
  }

  lemma ReserveLedger(s: Station, b: nat, e: nat, n: nat)
    ensures DoReserve(s, b, e, n).ledger == s.ledger && DoReserve(s, b, e, n).stranded == s.stranded
  {
  }

  lemma LatestLedger(s: Station, k: nat, listing: seq<GasCoin>)
    requires k in s.tasks
    ensures DoReadLatest(s, k, listing).ledger == s.ledger && DoReadLatest(s, k, listing).stranded == s.stranded
  {
    hide Oversized;
  }

  lemma ExpireLedger(s: Station, now: nat)
    ensures DoExpire(s, now).ledger == s.ledger && DoExpire(s, now).stranded == s.stranded
  {
  }

  lemma ExecuteLedger(s: Station, k: nat, e: Effects, id: ObjectId)
    requires Inv(s) && k in s.tasks && s.tasks[k].Queried? && CanPay(s, s.tasks[k].ids, e)
    requires id in s.ledger && id !in s.owner && id in s.used
    ensures DoExecute(s, k, e).ledger == Post(s.ledger, SetOf(s.tasks[k].ids), [Smashed(s, s.tasks[k].ids, e)])
    ensures DoExecute(s, k, e).stranded == s.stranded
    ensures id in DoExecute(s, k, e).ledger && DoExecute(s, k, e).ledger[id] == s.ledger[id]
  {
    hide Inv, Post, Oversized, SumOf, Smashed, Own, TaskIds, CanPay, Worth;
    PaymentIsPaid(s, k, e);
  }

  lemma FailLedger(s: Station, k: nat, e: Option<Effects>, id: ObjectId)
    requires Inv(s) && k in s.tasks && s.tasks[k].Queried? && (e.Some? ==> CanPay(s, s.tasks[k].ids, e.value))
    requires id in s.ledger && id !in s.owner && id in s.used
    ensures id in DoFail(s, k, e).ledger && DoFail(s, k, e).ledger[id] == s.ledger[id]
    ensures DoFail(s, k, e).stranded == s.stranded
  {
    hide Inv, Post, SumOf, Smashed, TaskIds, CanPay, Worth;
    if e.Some? {
      PaymentIsPaid(s, k, e.value);
    }
  }

  lemma SplitOthers(s: Station, k: nat, i: nat, x: Split, id: ObjectId)
    requires Inv(s) && CanSplit(s, k, i) && SplitOk(s, k, i, x) && id in s.ledger && id !in s.owner && id in s.used
    ensures id in DoSplit(s, k, i, x).ledger && DoSplit(s, k, i, x).ledger[id] == s.ledger[id]
    ensures DoSplit(s, k, i, x).stranded == s.stranded
    ensures s.tasks[k].work[i].id in s.used
  {
    hide TaskIds, OwnerOk, PromisesOk, TasksOk, Worth, Total, PoolOk, ClaimsOk, Own, IdSet, SetOf, Post, PartsBy,
      Distinct, CustodyOk, ValueOk, CountOf, Large, Small;
    WorkFacts(s, k, i);
    PartsFacts(s, k, i, x);
    SplitLedger(s, k, s.tasks[k].work[i], SplitParts(s, k, i, x), x.net, DoSplit(s, k, i, x).ledger);
  }

  lemma HideLedger(s: Station, k: nat, i: nat, x: Split)
    requires CanSplit(s, k, i) && SplitOk(s, k, i, x)
    ensures DoHide(s, k, i, x).ledger == DoSplit(s, k, i, x).ledger
    ensures |x.created| <= |SplitParts(s, k, i, x)|
    ensures DoHide(s, k, i, x).stranded == s.stranded + IdSet(SplitParts(s, k, i, x)[..|x.created|])
  {
    hide Post, Large, Small, Own, IdSet, CountOf;
  }

  /** A stranded coin stays as it is and stranded through every step but one: a scan that selects it. */
  lemma StrandedExact(s: Station, st: Step, id: ObjectId)
    requires Inv(s) && Enabled(s, st) && id in s.stranded
    ensures
      var t := Apply(s, st);
      && id in t.ledger && t.ledger[id] == s.ledger[id]
      && (id in t.stranded <==> !Finds(s, st, id))
  {
    hide Inv, At, TaskIds, CanPay, SumOf, Lists, Selected, DoExecute, DoFail, DoReadLatest, DoSplit, DoHide, CanSplit,
      SplitOk, DoReread, DoReserve, DoExpire, IdSet, Own, Add, Large, Small, IsRun;
    StrandedOwned(s, id);
    NobodysCoin(s, st, id);
    match st
    case Scan(k, gas, listing) => SelectedIds(s.ledger, ScanThreshold(s, s.tasks[k].init), listing);
    case ExecuteOk(k, e) => ExecuteLedger(s, k, e, id);
    case ExecuteErr(k, e) => FailLedger(s, k, e, id);
    case SplitCoin(k, i, x) => SplitOthers(s, k, i, x, id);
    case SplitErr(k, i, x) => if x.Some? { HideLedger(s, k, i, x.value); } else { RereadIsSame(s, k, i); }
    case ReserveGas(b, e, n) => ReserveLedger(s, b, e, n);
    case ReadLatest(k, listing) => LatestLedger(s, k, listing);
    case ExpireCoins(now) => ExpireLedger(s, now);
    case _ =>
  }

  lemma StrandedOwned(s: Station, id: ObjectId)
    requires Inv(s) && id in s.stranded
    ensures id in s.ledger && id !in s.owner && id in s.used
  {
  }

  /** Some step of the run is a scan that selects the coin. */
  ghost predicate Found(s: Station, steps: seq<Step>, id: ObjectId)
    requires CanRun(s, steps)
    decreases |steps|
  {
    steps != [] && (Finds(s, steps[0], id) || Found(Apply(s, steps[0]), steps[1..], id))
  }

  /** Over whole runs: unless some scan selects it, a stranded coin stays nobody's, and unchanged. */
  lemma {:induction false} StrandedForGood(s: Station, steps: seq<Step>, id: ObjectId)
    requires Inv(s) && CanRun(s, steps) && id in s.stranded && !Found(s, steps, id)
    ensures
      var t := Run(s, steps);
      && Inv(t) && id in t.stranded && id in t.ledger && t.ledger[id] == s.ledger[id]
      && forall p :: id !in At(t, p)
    decreases |steps|
  {
    hide Inv, Enabled, SafeStep, Apply, At, Finds;
    StrandedOwned(s, id);
    if steps != [] {
      KeepStep(s, steps[0]);
      StrandedExact(s, steps[0], id);
      StrandedForGood(Apply(s, steps[0]), steps[1..], id);
    } else {
      Unheld(s, id);
    }
  }

  lemma Unheld(s: Station, id: ObjectId)
    requires Inv(s) && id !in s.owner
    ensures forall p :: id !in At(s, p)
  {
    hide At, PoolOk, PromisesOk, ClaimsOk, TasksOk, UsedOk, CustodyOk, ValueOk;
    forall p ensures id !in At(s, p) {
      assert Holds(s, p, id) ==> id in s.owner;
    }
  }

  /**
   * The split itself. All created coins are stranded, nobody holds them, and a refresh scan can find them if
   * and only if the split coin was so large that the count was capped with a threshold to spare for each.
   */
  lemma HiddenSplitStrands(s: Station, k: nat, i: nat, x: Split)
    requires Inv(s) && CanSplit(s, k, i) && SplitOk(s, k, i, x) && s.tasks[k].work[i].id !in s.tasks[k].counts
    ensures
      var c, t := s.tasks[k].work[i], DoHide(s, k, i, x);
      && Inv(t) && 1 <= |x.created|
      && forall j :: 0 <= j < |x.created| ==>
           var id := x.created[j].id;
           && id in t.stranded && id in t.ledger && (forall p :: id !in At(t, p))
           && (id in Selected(t.ledger, Threshold(t)) <==> MAX_SPLIT * (s.tasks[k].gas + 200 * s.target) <= c.balance)
  {
    hide TaskOk, TaskIds, At, OwnerOk, PromisesOk, TasksOk, Worth, Total, PoolOk, ClaimsOk, Own, IdSet, SetOf, Post,
      PartsBy, Distinct, CustodyOk, ValueOk, UsedOk, NewBalance, SplitCount, KeepLimit;
    var c, g, t := s.tasks[k].work[i], s.tasks[k].gas, DoHide(s, k, i, x);
    KeepHide(s, k, i, x);
    FreshWork(s, k, i);
    HiddenSplitIsFound(c.balance, g, s.target);
    forall j | 0 <= j < |x.created|
      ensures
        var id := x.created[j].id;
        && id in t.stranded && id in t.ledger && (forall p :: id !in At(t, p))
        && (id in Selected(t.ledger, Threshold(t)) <==> MAX_SPLIT * (s.tasks[k].gas + 200 * s.target) <= c.balance)
    {
      CreatedOnLedger(s, k, i, x, j);
      StrandedOwned(t, x.created[j].id);
      Unheld(t, x.created[j].id);
    }
  }

  lemma FreshWork(s: Station, k: nat, i: nat)
    requires Inv(s) && CanSplit(s, k, i) && s.tasks[k].work[i].id !in s.tasks[k].counts
    ensures s.tasks[k].gas < s.target * 99 && KeepLimit(s.tasks[k].gas, s.target) < s.tasks[k].work[i].balance
  {
    hide OwnerOk, PromisesOk, PoolOk, ClaimsOk, CustodyOk, ValueOk, UsedOk;
    RunFacts(s, k);
    assert s.tasks[k].work[i] in s.tasks[k].work;
  }

  lemma CreatedOnLedger(s: Station, k: nat, i: nat, x: Split, j: nat)
    requires Inv(s) && CanSplit(s, k, i) && SplitOk(s, k, i, x) && j < |x.created|
    ensures
      var c, t, id := s.tasks[k].work[i], DoHide(s, k, i, x), x.created[j].id;
      && id in t.stranded && id in t.ledger
      && s.tasks[k].gas * CountOf(s, k, i) <= c.balance
      && t.ledger[id].balance == NewBalance(c.balance, s.tasks[k].gas * CountOf(s, k, i), CountOf(s, k, i))
  {
    hide TaskOk, TaskIds, OwnerOk, PromisesOk, TasksOk, Worth, Total, PoolOk, ClaimsOk, Own, SetOf, Post, PartsBy,
      NewBalance, CountOf, ValueOk, CustodyOk;
    var parts, c := SplitParts(s, k, i, x), s.tasks[k].work[i];
    WorkFacts(s, k, i);
    PartsFacts(s, k, i, x);
    PartsByExact(c, CountOf(s, k, i), s.tasks[k].gas * CountOf(s, k, i), x.net, x.created, x.left);
    PostContents(s.ledger, {c.id}, parts);
    assert parts[j] in parts && parts[..|x.created|][j] == parts[j];
    assert parts[j] in parts[..|x.created|];
  }

  // ---------------------------------------------------------------- the run

  /** A queued coin that cannot pay the transaction the run keeps sending for it. */
  ghost predicate NeverPays(s: Station, k: nat, id: ObjectId) {
    && k in s.tasks && s.tasks[k].Splitting? && id in s.tasks[k].counts
    && exists c :: c in s.tasks[k].work && c.id == id && c.balance < s.tasks[k].gas * s.tasks[k].counts[id]
  }

  /** No step changes that, as long as the instance is up. */
  lemma StuckStays(s: Station, st: Step, k: nat, id: ObjectId)
    requires Inv(s) && Enabled(s, st) && NeverPays(s, k, id) && st != Abandon(k)
    ensures NeverPays(Apply(s, st), k, id)
    ensures st != EndRun(k) && st != AddChunk(k)
  {
    hide Inv, At, TaskIds, CanPay, SumOf, Lists, Selected, DoExecute, DoFail, DoReadLatest, DoSplit, DoHide, DoReserve,
      DoExpire, IdSet, DoDeposit, DoReady, DoRelease, DoAbandon, DoBoot, DoReread, DoStart, DoScan, DoAddChunk, DoClean,
      CanSplit, SplitOk, Add;
    var c :| c in s.tasks[k].work && c.id == id && c.balance < s.tasks[k].gas * s.tasks[k].counts[id];
    match st
    case SplitCoin(j, i, x) => SplitKeepsStuck(s, j, i, x, k, id, c);
    case SplitErr(j, i, x) => if x.Some? { HideKeepsStuck(s, j, i, x.value, k, id, c); } else { RereadIsSame(s, j, i); }
    case _ => TaskStays(s, st, k);
  }

  /** A run with queued coins only changes by its own splits. */
  lemma TaskStays(s: Station, st: Step, k: nat)
    requires Inv(s) && Enabled(s, st) && !st.SplitCoin? && !st.SplitErr? && st != Abandon(k)
    requires k in s.tasks && s.tasks[k].Splitting? && s.tasks[k].work != []
    ensures k in Apply(s, st).tasks && Apply(s, st).tasks[k] == s.tasks[k]
  {
    hide Inv, At, TaskIds, CanPay, SumOf, Lists, Selected, DoExecute, DoFail, DoReadLatest, DoReserve, DoExpire, IdSet,
      SplitOk, Own, Add, Large, Small;
    OldTask(s, k);
    match st
    case ExecuteOk(j, e) => ExecuteTasks(s, j, e, k);
    case ExecuteErr(j, e) => FailTasks(s, j, e, k);
    case ReadLatest(j, listing) => LatestTasks(s, j, listing, k);
    case ReserveGas(b, e, n) => ReserveTasks(s, b, e, n);
    case ExpireCoins(now) => ExpireTasks(s, now, k);
    case _ =>
  }

  lemma OldTask(s: Station, k: nat)
    requires Inv(s) && k in s.tasks
    ensures k < s.nextTask
  {
    hide TaskOk;
  }

  lemma ReserveTasks(s: Station, b: nat, e: nat, n: nat)
    ensures DoReserve(s, b, e, n).tasks == s.tasks
  {
  }

  lemma ExecuteTasks(s: Station, j: nat, e: Effects, k: nat)
    requires j in s.tasks && s.tasks[j].Queried? && CanPay(s, s.tasks[j].ids, e) && k in s.tasks && k != j
    ensures k in DoExecute(s, j, e).tasks && DoExecute(s, j, e).tasks[k] == s.tasks[k]
  {
    hide Oversized, SumOf, Post, Smashed, CanPay;
  }

  lemma FailTasks(s: Station, j: nat, e: Option<Effects>, k: nat)
    requires j in s.tasks && s.tasks[j].Queried? && (e.Some? ==> CanPay(s, s.tasks[j].ids, e.value)) && k in s.tasks
    requires k != j
    ensures k in DoFail(s, j, e).tasks && DoFail(s, j, e).tasks[k] == s.tasks[k]
  {
    hide SumOf, Post, Smashed, CanPay;
  }

  lemma LatestTasks(s: Station, j: nat, listing: seq<GasCoin>, k: nat)
    requires j in s.tasks && k in s.tasks && k != j
    ensures k in DoReadLatest(s, j, listing).tasks && DoReadLatest(s, j, listing).tasks[k] == s.tasks[k]
  {
    hide Oversized;
  }

  lemma ExpireTasks(s: Station, now: nat, k: nat)
    requires k in s.tasks && k < s.nextTask
    ensures k in DoExpire(s, now).tasks && DoExpire(s, now).tasks[k] == s.tasks[k]
  {
  }

  /** The stuck coin is not the one that was split. */
  lemma OtherCoin(s: Station, k: nat, i: nat, id: ObjectId, c: GasCoin)
    requires Inv(s) && CanSplit(s, k, i) && c in s.tasks[k].work && c.id == id && id in s.tasks[k].counts
    requires c.balance < s.tasks[k].gas * s.tasks[k].counts[id]
    ensures s.tasks[k].work[i].id != id
  {
    hide OwnerOk, PromisesOk, PoolOk, ClaimsOk, CustodyOk, ValueOk, UsedOk, SplitCount;
    RunFacts(s, k);
    if s.tasks[k].work[i].id == id {
      OneWithId(s.tasks[k].work, s.tasks[k].done, i, c);
    }
  }

  lemma OneWithId(work: seq<GasCoin>, done: seq<GasCoin>, i: nat, c: GasCoin)
    requires i < |work| && Distinct(work + done) && c in work && c.id == work[i].id
    ensures c == work[i]
  {
    var j :| 0 <= j < |work| && work[j] == c;
    assert (work + done)[i] == work[i] && (work + done)[j] == c;
  }

  lemma SplitKeepsStuck(s: Station, j: nat, i: nat, x: Split, k: nat, id: ObjectId, c: GasCoin)
    requires Inv(s) && CanSplit(s, j, i) && SplitOk(s, j, i, x) && NeverPays(s, k, id)
    requires c in s.tasks[k].work && c.id == id && c.balance < s.tasks[k].gas * s.tasks[k].counts[id]
    ensures NeverPays(DoSplit(s, j, i, x), k, id)
  {
    hide Inv, Post, PartsBy, Large, Small, Own, IdSet, CountOf, SplitOk;
    var t := DoSplit(s, j, i, x);
    if j == k {
      OtherCoin(s, k, i, id, c);
      var work := s.tasks[k].work;
      var n :| 0 <= n < |work| && work[n] == c;
      assert c in work[..i] + work[i + 1..] by {
        if n < i {
          assert work[..i][n] == c;
        } else {
          assert work[i + 1..][n - i - 1] == c;
        }
      }
      assert c in t.tasks[k].work;
    }
  }

  lemma HideKeepsStuck(s: Station, j: nat, i: nat, x: Split, k: nat, id: ObjectId, c: GasCoin)
    requires Inv(s) && CanSplit(s, j, i) && SplitOk(s, j, i, x) && NeverPays(s, k, id)
    requires c in s.tasks[k].work && c.id == id && c.balance < s.tasks[k].gas * s.tasks[k].counts[id]
    ensures NeverPays(DoHide(s, j, i, x), k, id)
  {
    hide Inv, Post, PartsBy, Own, IdSet, CountOf, SplitOk;
    var t := DoHide(s, j, i, x);
    if j == k {
      OtherCoin(s, k, i, id, c);
      var work := s.tasks[k].work;
      var n :| 0 <= n < |work| && work[n] == c;
      assert t.tasks[k].work[n] == c;
    }
  }

  /**
   * In every safe run from there on, also long after the lease, the run neither ends nor adds anything to the
   * pool, unless its instance goes down.
   */
  lemma {:induction false} StuckForGood(s: Station, steps: seq<Step>, k: nat, id: ObjectId)
    requires Inv(s) && CanRun(s, steps) && NeverPays(s, k, id) && Abandon(k) !in steps
    ensures NeverPays(Run(s, steps), k, id)
    ensures EndRun(k) !in steps && AddChunk(k) !in steps
    decreases |steps|
  {
    hide Inv, Enabled, SafeStep, Apply, NeverPays;
    if steps != [] {
      KeepStep(s, steps[0]);
      StuckStays(s, steps[0], k, id);
      StuckForGood(Apply(s, steps[0]), steps[1..], k, id);
      assert steps == [steps[0]] + steps[1..];
    }
  }

  /**
   * A hidden split leaves its run stuck for good if and only if the hidden attempt charged more than one
   * created coin and the rest of the division.
   */
  lemma HiddenSplitStalls(s: Station, k: nat, i: nat, x: Split)
    requires Inv(s) && CanSplit(s, k, i) && SplitOk(s, k, i, x)
    ensures
      var c, n := s.tasks[k].work[i], CountOf(s, k, i);
      var budget := s.tasks[k].gas * n;
      NeverPays(DoHide(s, k, i, x), k, c.id) <==> NewBalance(c.balance, budget, n) + (c.balance - budget) % n < x.net
  {
    hide OwnerOk, PromisesOk, PoolOk, ClaimsOk, CustodyOk, ValueOk, UsedOk, Post, PartsBy, NewBalance, IdSet, Own,
      TasksOk, TaskOk;
    var c, n, t := s.tasks[k].work[i], CountOf(s, k, i), DoHide(s, k, i, x);
    var parts := SplitParts(s, k, i, x);
    PartsByExact(c, n, s.tasks[k].gas * n, x.net, x.created, x.left);
    RetryIsPayable(c.balance, s.tasks[k].gas, n, x.net);
    var rest := parts[n - 1];
    assert t.tasks[k].work[i] == rest;
    forall d | d in t.tasks[k].work && d.id == c.id ensures d == rest {
      HiddenAlone(s, k, i, rest, d);
    }
  }

  lemma HiddenAlone(s: Station, k: nat, i: nat, rest: GasCoin, d: GasCoin)
    requires TasksOk(s) && k in s.tasks && s.tasks[k].Splitting? && i < |s.tasks[k].work|
    requires rest.id == s.tasks[k].work[i].id
    requires d in s.tasks[k].work[i := rest] && d.id == rest.id
    ensures d == rest
  {
    RunFacts(s, k);
    var work, done := s.tasks[k].work, s.tasks[k].done;
    SameIds(work, done, i, rest);
    OneWithId(work[i := rest], done, i, d);
  }
}
