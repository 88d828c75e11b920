/** The whole-run properties of the station, for all safe runs. */
module StationTheorems {
  import opened Coins
  import opened SplitMath
  import opened Pool
  import opened Ledger
  import opened Station
  import opened StationInvariant
  import opened StationSteps

  lemma ReachableInv(s: Station)
    requires Reachable(s)
    ensures Inv(s)
  {
    hide Inv, CanRun, Run;
    var steps :| CanRun(Fresh(s.target), steps) && Run(Fresh(s.target), steps) == s;
    FreshInv(s.target);
    KeepRun(Fresh(s.target), steps);
  }

  lemma InvIsExclusive(s: Station)
    requires Inv(s)
    ensures Exclusive(s)
  {
    hide At;
    forall p, q | p != q ensures At(s, p) !! At(s, q) {
      PlacesApart(s, p, q);
    }
  }

  /** No double lending: in every reachable state every coin id is in at most one place. */
  lemma ReachableIsExclusive(s: Station)
    requires Reachable(s)
    ensures Exclusive(s)
    ensures forall r, q :: r in s.pool.reservations && q in s.pool.reservations && r != q ==>
      SetOf(s.pool.reservations[r]) !! SetOf(s.pool.reservations[q])
  {
    hide Inv, Reachable;
    ReachableInv(s);
    InvIsExclusive(s);
    forall r, q | r in s.pool.reservations && q in s.pool.reservations && r != q
      ensures SetOf(s.pool.reservations[r]) !! SetOf(s.pool.reservations[q])
    {
      assert At(s, Resv(r)) !! At(s, Resv(q));
    }
  }

  /** The registry agrees with the ledger, for listed coins and for the coins a caller holds reserved. */
  lemma RegistryAgrees(s: Station)
    requires Reachable(s)
    ensures forall c :: c in s.pool.available ==>
      c.id in s.ledger && s.ledger[c.id] == c && c.balance <= Threshold(s)
    ensures s.pool.coinCount == Some(|s.pool.available|) && s.pool.totalBalance == Some(Total(s.pool.available))
    ensures forall r :: r in s.pool.reservations ==>
      && r in s.promised && s.pool.reservations[r] == IdsOf(s.promised[r].coins)
      && (forall c :: c in s.promised[r].coins ==> c.id in s.ledger && s.ledger[c.id] == c)
      && s.promised[r].budget <= Total(s.promised[r].coins)
  {
    hide Reachable;
    ReachableInv(s);
    forall r | r in s.pool.reservations ensures PromiseOk(s, r) {
    }
  }

  // ---------------------------------------------------------------- claims

  /** Every reservation ever issued is live or was claimed, not both; live ones will come due. */
  lemma NothingStranded(s: Station)
    requires Reachable(s)
    ensures s.claims.Keys !! s.pool.reservations.Keys
    ensures forall r :: r in s.claims || r in s.pool.reservations <==> 1 <= r <= s.pool.lastReservation
    ensures forall r :: r in s.pool.reservations ==> r in s.pool.expirations
  {
    hide Reachable;
    ReachableInv(s);
    forall r | r in s.pool.reservations ensures r in s.pool.expirations {
      assert PromiseOk(s, r);
    }
  }

  /** A claim is made once and stays as it is, until a clean-up starts the numbering again. */
  lemma ClaimsAreFinal(s: Station, st: Step)
    requires Inv(s) && Enabled(s, st) && st != CleanAndInit
    ensures
      var t := Apply(s, st);
      && (forall r :: r in s.claims ==> r in t.claims && t.claims[r] == s.claims[r])
      && s.pool.lastReservation <= t.pool.lastReservation
      && (forall r :: r in t.claims && r !in s.claims ==>
           && r in s.pool.reservations && r !in t.pool.reservations
           && (t.claims[r] == ByExecutor <==> st == ReadyForExecution(r))
           && (t.claims[r] == ByExpiry <==> st.ExpireCoins? && s.pool.expirations[r] <= st.now))
  {
    hide Inv, SafeStep;
    match st
    case ReadyForExecution(id) => ReadyClaimsOne(s, id);
    case ExpireCoins(now) => ExpiryClaimsDue(s, now);
    case _ => ClaimsUnchanged(s, st);
  }

  lemma ReadyClaimsOne(s: Station, id: ReservationId)
    requires Inv(s) && id in s.pool.reservations
    ensures id !in s.claims && DoReady(s, id).claims == s.claims[id := ByExecutor]
    ensures id !in DoReady(s, id).pool.reservations
  {
  }

  lemma ExpiryClaimsDue(s: Station, now: nat)
    requires Inv(s)
    ensures
      var t := DoExpire(s, now);
      && t.pool.lastReservation == s.pool.lastReservation
      && (forall r :: r in s.claims ==> r in t.claims && t.claims[r] == s.claims[r])
      && (forall r :: r in t.claims && r !in s.claims ==>
           && r in s.pool.reservations && r !in t.pool.reservations && t.claims[r] == ByExpiry
           && r in s.pool.expirations && s.pool.expirations[r] <= now)
  {
    hide TaskOk, PoolOk, PromisesOk, TasksOk, OwnerOk, UsedOk, CustodyOk, ValueOk, Own, ClaimedIds;
  }

  lemma ClaimsUnchanged(s: Station, st: Step)
    requires Enabled(s, st) && st != CleanAndInit && !st.ReadyForExecution? && !st.ExpireCoins?
    ensures Apply(s, st).claims == s.claims && s.pool.lastReservation <= Apply(s, st).pool.lastReservation
  {
    hide At, TaskIds, SetOf, IdSet, Lists, Selected, CanPay, SumOf, DoDeposit, DoReserve, DoExecute, DoFail,
      DoReadLatest, DoRelease, DoAbandon, DoBoot, DoReread, DoStart, DoScan, DoSplit, DoHide, CanSplit, SplitOk,
      DoAddChunk;
    match st
    case Deposit(coin) => DepositClaims(s, coin);
    case ReserveGas(budget, expiration, now) => ReserveClaims(s, budget, expiration, now);
    case ExecuteOk(k, e) => ExecuteClaims(s, k, e);
    case ExecuteErr(k, e) => FailClaims(s, k, e);
    case ReadLatest(k, listing) => LatestClaims(s, k, listing);
    case ReleaseCoins(k) => ReleaseClaims(s, k);
    case ReleaseErr(k, applied) => ResendClaims(s, k);
    case Abandon(k) => AbandonClaims(s, k);
    case Boot => BootClaims(s);
    case StartRun(boot) => StartClaims(s, boot);
    case Scan(k, gas, listing) => ScanClaims(s, k, gas, listing);
    case SplitCoin(k, i, x) => SplitClaims(s, k, i, x);
    case SplitErr(k, i, x) => if x.Some? { HideClaims(s, k, i, x.value); } else { RereadClaims(s, k, i); }
    case AddChunk(k) => ChunkClaims(s, k);
    case _ =>
  }

  ghost predicate SameClaims(s: Station, t: Station) {
    && t.claims == s.claims && s.pool.lastReservation <= t.pool.lastReservation
    && t.target == s.target && t.unregistered <= s.unregistered && t.stranded <= s.stranded
    && (s.pool.initialized ==> t.pool.initialized)
  }

  /** Every run of the first state goes on in the second, under the same lease. */
  ghost predicate RunsIn(s: Station, t: Station) {
    forall k :: k in s.tasks && IsRun(s.tasks[k]) ==>
      k in t.tasks && IsRun(t.tasks[k]) && t.tasks[k].lease == s.tasks[k].lease
  }

  /** The same runs, and the init lock as it was. */
  ghost predicate RunsStay(s: Station, t: Station) {
    t.pool.initLock == s.pool.initLock && RunsIn(s, t) && RunsIn(t, s)
  }

  ghost predicate LosesNobody(s: Station, t: Station) {
    s.owner.Keys <= t.owner.Keys
  }

  lemma DepositClaims(s: Station, coin: GasCoin)
    ensures SameClaims(s, DoDeposit(s, coin).(unregistered := s.unregistered)) && LosesNobody(s, DoDeposit(s, coin))
    ensures DoDeposit(s, coin).unregistered == s.unregistered + {coin.id}
    ensures RunsStay(s, DoDeposit(s, coin))
  {
  }

  lemma ReserveClaims(s: Station, budget: nat, expiration: nat, now: nat)
    ensures SameClaims(s, DoReserve(s, budget, expiration, now))
    ensures LosesNobody(s, DoReserve(s, budget, expiration, now))
    ensures RunsStay(s, DoReserve(s, budget, expiration, now))
  {
    hide Taken, Total, Own, IdSet;
  }

  lemma ExecuteClaims(s: Station, k: nat, e: Effects)
    requires k in s.tasks && s.tasks[k].Queried? && CanPay(s, s.tasks[k].ids, e)
    ensures SameClaims(s, DoExecute(s, k, e))
    ensures RunsStay(s, DoExecute(s, k, e))
  {
    hide Own, Post, Oversized, SetOf, Smashed, SumOf;
  }

  lemma FailClaims(s: Station, k: nat, e: Option<Effects>)
    requires k in s.tasks && s.tasks[k].Queried? && (e.Some? ==> CanPay(s, s.tasks[k].ids, e.value))
    ensures SameClaims(s, DoFail(s, k, e)) && LosesNobody(s, DoFail(s, k, e))
    ensures RunsStay(s, DoFail(s, k, e))
  {
    hide Post, SetOf, Smashed, SumOf;
  }

  lemma LatestClaims(s: Station, k: nat, listing: seq<GasCoin>)
    requires k in s.tasks && (s.tasks[k].Failed? || s.tasks[k].Expired?)
    ensures SameClaims(s, DoReadLatest(s, k, listing))
    ensures RunsStay(s, DoReadLatest(s, k, listing))
  {
    hide Own, Oversized, IdSet, TaskIds;
  }

  lemma ReleaseClaims(s: Station, k: nat)
    requires k in s.tasks && s.tasks[k].Settled?
    ensures SameClaims(s, DoRelease(s, k)) && LosesNobody(s, DoRelease(s, k))
    ensures RunsStay(s, DoRelease(s, k))
  {
    hide Own, At, Total;
  }

  lemma ResendClaims(s: Station, k: nat)
    requires k in s.tasks && s.tasks[k].Settled?
    ensures
      var t := s.(pool := Add(s.pool, s.tasks[k].coins).1);
      SameClaims(s, t) && LosesNobody(s, t) && RunsStay(s, t)
  {
    hide Total;
  }

  lemma AbandonClaims(s: Station, k: nat)
    requires k in s.tasks
    ensures SameClaims(s, DoAbandon(s, k).(stranded := s.stranded)) && DoAbandon(s, k).pool == s.pool
    ensures RunsIn(DoAbandon(s, k), s) && (!IsRun(s.tasks[k]) ==> RunsStay(s, DoAbandon(s, k)))
    ensures DoAbandon(s, k).stranded == s.stranded + TaskIds(s.tasks[k]) * s.ledger.Keys
    ensures DoAbandon(s, k).owner.Keys == s.owner.Keys - TaskIds(s.tasks[k]) && DoAbandon(s, k).ledger == s.ledger
  {
    hide TaskIds;
  }

  lemma BootClaims(s: Station)
    ensures SameClaims(s, DoBoot(s)) && LosesNobody(s, DoBoot(s))
    ensures TasksOk(s) ==> RunsStay(s, DoBoot(s))
  {
    hide TaskOk;
  }

  lemma RereadClaims(s: Station, k: nat, i: nat)
    requires k in s.tasks && s.tasks[k].Splitting? && i < |s.tasks[k].work| && 0 < s.target
    ensures DoReread(s, k, i).claims == s.claims && DoReread(s, k, i).pool == s.pool
  {
    hide CountOf, TaskIds;
  }

  lemma StartClaims(s: Station, boot: Option<nat>)
    ensures SameClaims(s, DoStart(s, boot)) && LosesNobody(s, DoStart(s, boot))
  {
  }

  lemma ScanClaims(s: Station, k: nat, gas: nat, listing: seq<GasCoin>)
    requires k in s.tasks && s.tasks[k].Locked?
    ensures SameClaims(s, DoScan(s, k, gas, listing)) && LosesNobody(s, DoScan(s, k, gas, listing))
    ensures RunsStay(s, DoScan(s, k, gas, listing))
  {
    hide Own, Large, Small, IdSet;
  }

  lemma SplitClaims(s: Station, k: nat, i: nat, x: Split)
    requires CanSplit(s, k, i) && SplitOk(s, k, i, x)
    ensures SameClaims(s, DoSplit(s, k, i, x)) && LosesNobody(s, DoSplit(s, k, i, x))
    ensures RunsStay(s, DoSplit(s, k, i, x))
  {
    hide Own, Large, Small, IdSet, Post, PartsBy, CountOf;
  }

  lemma HideClaims(s: Station, k: nat, i: nat, x: Split)
    requires CanSplit(s, k, i) && SplitOk(s, k, i, x)
    ensures SameClaims(s, DoHide(s, k, i, x).(stranded := s.stranded)) && LosesNobody(s, DoHide(s, k, i, x))
    ensures RunsStay(s, DoHide(s, k, i, x))
  {
    hide Own, IdSet, Post, PartsBy, CountOf;
  }

  /** What a hidden split strands is new. */
  lemma HideStrands(s: Station, k: nat, i: nat, x: Split)
    requires Inv(s) && CanSplit(s, k, i) && SplitOk(s, k, i, x)
    ensures
      var parts, n := SplitParts(s, k, i, x), |x.created|;
      && n < |parts| && DoHide(s, k, i, x).stranded == s.stranded + IdSet(parts[..n])
      && forall id :: id in IdSet(parts[..n]) ==> id !in s.used
  {
    hide TaskIds, OwnerOk, PromisesOk, TasksOk, Worth, Total, PoolOk, ClaimsOk, Own, IdSet, SetOf, Post, PartsBy,
      Distinct, CustodyOk, ValueOk, CountOf;
    WorkFacts(s, k, i);
    PartsFacts(s, k, i, x);
  }

  lemma ChunkClaims(s: Station, k: nat)
    requires k in s.tasks && s.tasks[k].Splitting?
    ensures SameClaims(s, DoAddChunk(s, k)) && LosesNobody(s, DoAddChunk(s, k))
    ensures RunsStay(s, DoAddChunk(s, k))
  {
    hide Own, IdSet, Total;
  }

  /** An expiry claims exactly the live reservations that are due and leaves the others alone. */
  lemma ExpiryIsExact(s: Station, now: nat)
    requires Reachable(s)
    ensures
      var t := DoExpire(s, now);
      forall r :: r in s.pool.reservations ==>
        && r in s.pool.expirations
        && (r in t.pool.reservations <==> now < s.pool.expirations[r])
        && (r in t.pool.reservations ==> t.pool.reservations[r] == s.pool.reservations[r])
        && (r !in t.pool.reservations ==> r in t.claims && t.claims[r] == ByExpiry)
  {
    hide Reachable;
    NothingStranded(s);
  }

  // ---------------------------------------------------------------- scans

  /**
   * A refresh scan keeps coins in one place if and only if no coin of exactly the threshold is held, no
   * failed payment hides an oversized coin, and no other run has a coin queued that is as large as that.
   */
  lemma RefreshScanExact(s: Station, k: nat, gas: nat, listing: seq<GasCoin>)
    requires Inv(s) && Enabled(s, Scan(k, gas, listing)) && !s.tasks[k].init
    ensures Exclusive(DoScan(s, k, gas, listing)) <==> !AtThreshold(s) && !UnreadMerge(s) && !QueuedElsewhere(s, k)
  {
    hide Inv, AtThreshold, UnreadMerge, QueuedElsewhere, DoScan, Exclusive, Lists;
    SelectedIds(s.ledger, Threshold(s), listing);
    if AtThreshold(s) {
      var p, id := ThresholdWitness(s);
      DoublyHeld(s, k, gas, listing, p, id);
    } else if UnreadMerge(s) {
      var j, id := MergeWitness(s);
      DoublyHeld(s, k, gas, listing, Busy(j), id);
    } else if QueuedElsewhere(s, k) {
      var j, id := QueuedWitness(s, k);
      DoublyHeld(s, k, gas, listing, Busy(j), id);
    } else {
      KeepSafeScan(s, k, gas, listing);
      InvIsExclusive(DoScan(s, k, gas, listing));
    }
  }

  lemma ThresholdWitness(s: Station) returns (p: Place, id: ObjectId)
    requires AtThreshold(s)
    ensures id in At(s, p) && !InRun(s, p) && id in s.ledger && s.ledger[id].balance == Threshold(s)
  {
    p, id :| id in At(s, p) && !InRun(s, p) && id in s.ledger && s.ledger[id].balance == Threshold(s);
  }

  lemma MergeWitness(s: Station) returns (k: nat, id: ObjectId)
    requires UnreadMerge(s)
    ensures k in s.tasks && s.tasks[k].Failed? && id in s.ledger && Threshold(s) < s.ledger[id].balance
    ensures id in At(s, Busy(k))
  {
    k, id :|
      && k in s.tasks && s.tasks[k].Failed? && id in s.tasks[k].ids
      && id in s.ledger && Threshold(s) < s.ledger[id].balance;
  }

  lemma QueuedWitness(s: Station, k: nat) returns (j: nat, id: ObjectId)
    requires Inv(s) && QueuedElsewhere(s, k)
    ensures id in s.ledger && Threshold(s) <= s.ledger[id].balance && id in At(s, Busy(j))
  {
    hide PoolOk, PromisesOk, ClaimsOk, TasksOk, OwnerOk, UsedOk, CustodyOk, ValueOk;
    var c: GasCoin;
    j, c :| j in s.tasks && j != k && s.tasks[j].Splitting? && c in s.tasks[j].work && Threshold(s) <= c.balance;
    id := c.id;
    RunFacts(s, j);
  }

  /** A selected coin that somebody else holds is in two places after the scan. */
  lemma DoublyHeld(s: Station, k: nat, gas: nat, listing: seq<GasCoin>, p: Place, id: ObjectId)
    requires Inv(s) && k in s.tasks && s.tasks[k].Locked? && gas < s.target * 99
    requires Distinct(listing) && (forall c :: c in listing ==> c.id in s.ledger && s.ledger[c.id] == c)
    requires id in IdSet(listing) && id in At(s, p)
    ensures !Exclusive(DoScan(s, k, gas, listing))
  {
    hide TaskOk, Large, Small, Own, IdSet, SetOf, Distinct, PoolOk, PromisesOk, ClaimsOk, OwnerOk, UsedOk, CustodyOk,
      ValueOk;
    var t := DoScan(s, k, gas, listing);
    ScannedRun(s.ledger, s.target, s.tasks[k].lease, gas, listing);
    assert id in At(t, Busy(k));
    assert p != Busy(k);
    assert At(t, p) == At(s, p);
  }

  /** An Init scan selects everything owned, so it is sound if and only if nothing is held at all. */
  lemma InitScanExact(s: Station, k: nat, gas: nat, listing: seq<GasCoin>)
    requires Inv(s) && Enabled(s, Scan(k, gas, listing)) && s.tasks[k].init
    ensures Exclusive(DoScan(s, k, gas, listing)) <==> NothingHeld(s)
  {
    hide Inv, DoScan, Exclusive, Lists, NothingHeld;
    SelectedIds(s.ledger, 0, listing);
    if NothingHeld(s) {
      KeepSafeScan(s, k, gas, listing);
      InvIsExclusive(DoScan(s, k, gas, listing));
    } else {
      var p, id := HeldWitness(s);
      DoublyHeld(s, k, gas, listing, p, id);
    }
  }

  /** If anything is held, then some held coin is on the ledger. */
  lemma HeldWitness(s: Station) returns (p: Place, id: ObjectId)
    requires Inv(s) && !NothingHeld(s)
    ensures id in At(s, p) && id in s.ledger
  {
    if s.pool.available != [] {
      var c := s.pool.available[0];
      assert c in s.pool.available;
      p, id := Avail, c.id;
    } else if s.pool.reservations != map[] {
      var r :| r in s.pool.reservations;
      assert PromiseOk(s, r);
      var c := s.promised[r].coins[0];
      SetOfIds(s.promised[r].coins);
      p, id := Resv(r), c.id;
    } else {
      var k :| k in s.tasks && TaskIds(s.tasks[k]) != {};
      p := Busy(k);
      id := TaskWitness(s, k);
    }
  }

  lemma TaskWitness(s: Station, k: nat) returns (id: ObjectId)
    requires TasksOk(s) && k in s.tasks && TaskIds(s.tasks[k]) != {}
    ensures id in TaskIds(s.tasks[k]) && id in s.ledger
  {
    var x := s.tasks[k];
    assert TaskOk(x, s.ledger, s.target);
    if x.Failed? {
      id := x.ids[0];
      assert id in x.ids && (IdsLive(s.ledger, x.ids, Threshold(s)) ==> IdLive(s.ledger, id, Threshold(s)));
    } else {
      id :| id in TaskIds(x);
      assert x.Claimed? || x.Queried? || x.Expired? ==> IdLive(s.ledger, id, Threshold(s));
    }
  }

  /** A release whose reply is lost after it was done keeps coins in one place if and only if there were none. */
  lemma ResendExact(s: Station, k: nat)
    requires Inv(s) && Enabled(s, ReleaseErr(k, true))
    ensures Exclusive(Apply(s, ReleaseErr(k, true))) <==> s.tasks[k].coins == []
  {
    hide Inv, Exclusive;
    var t := Apply(s, ReleaseErr(k, true));
    if s.tasks[k].coins == [] {
      KeepReleaseErr(s, k, true);
      InvIsExclusive(s);
    } else {
      InBoth(s, k);
    }
  }

  lemma InBoth(s: Station, k: nat)
    requires Enabled(s, ReleaseErr(k, true)) && s.tasks[k].coins != []
    ensures !Exclusive(Apply(s, ReleaseErr(k, true)))
  {
    var t := Apply(s, ReleaseErr(k, true));
    var c := s.tasks[k].coins[0];
    assert c in s.tasks[k].coins && c in t.pool.available;
    assert c.id in At(t, Avail) && c.id in At(t, Busy(k));
  }

  /** A registered coin of ordinary size that no error has left to nobody. */
  ghost predicate Ordinary(s: Station, id: ObjectId) {
    id in s.ledger && id !in s.unregistered && id !in s.stranded && s.ledger[id].balance <= Threshold(s)
  }

  /** An ordinary registered coin is always held by somebody, and a scan takes up every oversized one. */
  lemma OversizedIsRecovered(s: Station, k: nat, gas: nat, listing: seq<GasCoin>)
    requires Reachable(s) && Enabled(s, Scan(k, gas, listing))
    ensures forall id :: Ordinary(s, id) ==> exists p :: id in At(s, p)
    ensures forall id :: id in s.ledger && Threshold(s) < s.ledger[id].balance ==>
      id in At(DoScan(s, k, gas, listing), Busy(k))
  {
    hide Reachable;
    ReachableInv(s);
    forall id | Ordinary(s, id) ensures exists p :: id in At(s, p) {
      assert Holds(s, s.owner[id], id);
    }
    ScannedRun(s.ledger, s.target, s.tasks[k].lease, gas, listing);
    SelectedIds(s.ledger, ScanThreshold(s, s.tasks[k].init), listing);
  }

  /**
   * No step of a live instance drops an ordinary coin: what leaves everybody's hands and still exists is
   * oversized, unless the task that held it is gone, and then it is on record as stranded.
   */
  lemma DropsOnlyOversized(s: Station, st: Step, id: ObjectId)
    requires Inv(s) && Enabled(s, st) && SafeStep(s, st) && st != CleanAndInit
    requires id in s.owner && id !in Apply(s, st).owner && id in Apply(s, st).ledger
    ensures st.Abandon? || Threshold(s) < Apply(s, st).ledger[id].balance
    ensures st.ExecuteOk? || st.ReadLatest? || (st.Abandon? && id in Apply(s, st).stranded)
  {
    hide Enabled, SafeStep, Apply, TaskOk, PoolOk, PromisesOk, ClaimsOk, TasksOk, OwnerOk, ValueOk;
    assert (s.unregistered + s.stranded) !! s.owner.Keys && s.owner.Keys <= s.used;
    KeepStep(s, st);
    StepFrame(s, st);
  }

  lemma StepFrame(s: Station, st: Step)
    requires Inv(s) && Enabled(s, st) && st != CleanAndInit
    ensures
      var t := Apply(s, st);
      && t.target == s.target
      && (forall id :: id in t.unregistered && id !in s.unregistered ==> id !in s.used)
      && (forall id :: id in t.stranded && id !in s.stranded ==> id !in s.used || st.Abandon?)
      && (st.Abandon? ==> forall id :: id in s.owner && id !in t.owner && id in t.ledger ==> id in t.stranded)
      && (st.ExecuteOk? || st.ReadLatest? || st.Abandon? || LosesNobody(s, t))
  {
    hide At, TaskIds, SetOf, IdSet, Lists, Selected, CanPay, SumOf, DoDeposit, DoReserve, DoReady, DoExecute, DoFail,
      DoReadLatest, DoRelease, DoAbandon, DoBoot, DoReread, DoExpire, DoStart, DoScan, DoSplit, DoHide, CanSplit,
      SplitOk, DoAddChunk, Inv;
    match st
    case Deposit(coin) => DepositClaims(s, coin);
    case ReserveGas(budget, expiration, now) => ReserveClaims(s, budget, expiration, now);
    case ReadyForExecution(id) => ReadyFrame(s, id);
    case ExecuteOk(k, e) => ExecuteClaims(s, k, e);
    case ExecuteErr(k, e) => FailClaims(s, k, e);
    case ReadLatest(k, listing) => LatestClaims(s, k, listing);
    case ReleaseCoins(k) => ReleaseClaims(s, k);
    case ReleaseErr(k, applied) => ResendClaims(s, k);
    case Abandon(k) => AbandonClaims(s, k);
    case ExpireCoins(now) => ExpireFrame(s, now);
    case Boot => BootClaims(s);
    case StartRun(boot) => StartClaims(s, boot);
    case Scan(k, gas, listing) => ScanClaims(s, k, gas, listing);
    case SplitCoin(k, i, x) => SplitClaims(s, k, i, x);
    case SplitErr(k, i, x) =>
      if x.Some? {
        HideClaims(s, k, i, x.value);
        HideStrands(s, k, i, x.value);
      } else {
        RereadIsSame(s, k, i);
      }
    case AddChunk(k) => ChunkClaims(s, k);
    case _ =>
  }

  lemma ReadyFrame(s: Station, id: ReservationId)
    requires id in s.pool.reservations
    ensures
      var t := DoReady(s, id);
      t.target == s.target && t.unregistered == s.unregistered && t.stranded == s.stranded && LosesNobody(s, t)
  {
    hide At, Own;
  }

  lemma ExpireFrame(s: Station, now: nat)
    ensures
      var t := DoExpire(s, now);
      t.target == s.target && t.unregistered == s.unregistered && t.stranded == s.stranded && LosesNobody(s, t)
  {
    hide Own, ClaimedIds;
  }
}
