/**
 * The init lock and the runs under it, in concrete runs of the code as it is: a lock that nobody frees, two runs at
 * once, a stopped run's coin in a second scan, and a stopped run that goes on with a coin that others hold.
 */
module StationOverrun {
  import opened Coins
  import opened SplitMath
  import opened Pool
  import opened Ledger
  import opened Station
  import opened StationInvariant
  import opened StationSteps
  import opened StationTheorems
  import opened StationRuns
  import opened StationHidden
  import opened StationRaces

  // ---------------------------------------------------------------- a lock that nobody frees

  /** The lock is granted, and the reply is lost. No run is in progress, and for 12 hours none can start. */
  lemma LostLock() returns (s: Station)
    ensures Reachable(s) && NoRun(s) && s.tasks == map[]
    ensures forall now: nat :: now <= MAX_INIT_DURATION ==> !AcquireInitLock(s.pool, now, MAX_INIT_DURATION).0
  {
    hide Reachable, CanRun, Run;
    ReachFresh(1);
    s := Fresh(1);
    ReachStep(s, AcquireLost);
    s := Apply(s, AcquireLost);
  }

  /** So it is when an instance goes down with its run. */
  lemma LockOfNobody() returns (s: Station)
    ensures Reachable(s) && NoRun(s) && s.tasks == map[]
    ensures forall now: nat :: now <= MAX_INIT_DURATION ==> !AcquireInitLock(s.pool, now, MAX_INIT_DURATION).0
  {
    hide Reachable, CanRun, Run;
    ReachFresh(1);
    s := Fresh(1);
    ReachStep(s, StartRun(None));
    s := Apply(s, StartRun(None));
    ReachStep(s, Abandon(0));
    s := Apply(s, Abandon(0));
  }

  // ---------------------------------------------------------------- two runs at once

  const REST: GasCoin := GasCoin(148, 1, 1, "")
  const MADE: GasCoin := GasCoin(2, 2, 1, "")

  /** The hidden split of `StationRaces`, in full. */
  lemma Hidden() returns (s: Station)
    ensures Reachable(s) && s.target == 1 && s.ledger == map[1 := REST, 2 := MADE] && s.used == {1, 2}
    ensures s.tasks == map[0 := Splitting(MAX_INIT_DURATION, GAS, [REST], [], map[1 := 2])] && s.nextTask == 1
    ensures s.clock == 0
    ensures s.pool == Fresh(1).pool.(initLock := Some(MAX_INIT_DURATION)) && NeverPays(s, 0, 1)
  {
    hide Reachable, CanRun, Run, Own, Post, IdSet;
    var q := OneQueued(C);
    OneSplit(q);
    HiddenParts(q);
    ReachStep(q, SplitErr(0, 0, Some(HIDDEN)));
    s := Apply(q, SplitErr(0, 0, Some(HIDDEN)));
    assert [C][0 := REST] == [REST];
    assert REST in [REST];
  }

  lemma HiddenParts(q: Station)
    requires CanSplit(q, 0, 0) && CountOf(q, 0, 0) == 2 && q.tasks[0].gas == GAS && q.tasks[0].work == [C]
    requires q.ledger == map[1 := C]
    ensures SplitParts(q, 0, 0, HIDDEN) == [MADE, REST]
    ensures Post(q.ledger, {1}, [MADE, REST]) == map[1 := REST, 2 := MADE] && IdSet([MADE, REST]) == {1, 2}
  {
    assert CreatedCoins(HIDDEN.created, 2) == [MADE];
    var none: Ledger := q.ledger - {1};
    assert none == map[];
    assert [MADE, REST][1..] == [REST] && [REST][1..] == [];
    assert AddAll(none, [MADE, REST]) == AddAll(none[2 := MADE], [REST]) == AddAll(none[2 := MADE][1 := REST], []);
    assert MADE in [MADE, REST] && REST in [MADE, REST];
  }

  /** A run that a hidden split has stopped is starved, by what the ledger holds, too. */
  lemma StoppedIsStarved(s: Station, k: nat, id: ObjectId)
    requires Inv(s) && NeverPays(s, k, id)
    ensures
      var budget := s.tasks[k].gas * s.tasks[k].counts[id];
      StuckOrDown(s, k, id, budget) && Filed(s.ledger) && Short(s.ledger, id, budget)
  {
    hide PoolOk, PromisesOk, ClaimsOk, OwnerOk, CustodyOk, ValueOk;
    RunFacts(s, k);
    var work, done := s.tasks[k].work, s.tasks[k].done;
    var c :| c in work && c.id == id && c.balance < s.tasks[k].gas * s.tasks[k].counts[id];
    forall d | d in work && d.id == id ensures d == c {
      var i :| 0 <= i < |work| && work[i] == d;
      OneWithId(work, done, i, c);
    }
  }

  /** The lease of the stopped run passes, and a second run gets the lock. */
  lemma TwoRuns() returns (s: Station)
    ensures Reachable(s) && ActiveRun(s, 0) && ActiveRun(s, 1) && NeverPays(s, 0, 1)
  {
    hide Reachable, CanRun, Run, NeverPays;
    s := Hidden();
    ReachStep(s, Tick(MAX_INIT_DURATION + 1));
    StillNeverPays(s, Apply(s, Tick(MAX_INIT_DURATION + 1)));
    s := Apply(s, Tick(MAX_INIT_DURATION + 1));
    ReachStep(s, StartRun(None));
    StillNeverPays(s, Apply(s, StartRun(None)));
    s := Apply(s, StartRun(None));
  }

  lemma StillNeverPays(s: Station, t: Station)
    requires NeverPays(s, 0, 1) && 0 in t.tasks && t.tasks[0] == s.tasks[0]
    ensures NeverPays(t, 0, 1)
  {
  }

  // ---------------------------------------------------------------- a stopped run's coin in a second scan

  const LARGE: GasCoin := GasCoin(198000, 1, 0, "")

  /** A coin large enough for 2000 parts, and a hidden charge of 100000 of its budget of 196000. */
  function LargeSplit(): Split {
    Split(100000, seq(1999, i requires 0 <= i < 1999 => ObjectRef(2 + i, 1, "")), ObjectRef(1, 1, ""))
  }

  lemma LargeNumbers()
    ensures SplitCount(198000, GAS, 1) == 2000 && NewBalance(198000, 196000, 2000) == 1
    ensures Remainder(198000, 1, 2000, 100000) == 96001 && (198000 - 196000) % 2000 == 0
  {
  }

  lemma LargeQueued(q: Station)
    requires q.target == 1 && q.used == {1} && q.ledger == map[1 := LARGE]
    requires q.tasks == map[0 := Splitting(MAX_INIT_DURATION, GAS, [LARGE], [], map[])]
    ensures CanSplit(q, 0, 0) && CountOf(q, 0, 0) == 2000 && SplitOk(q, 0, 0, LargeSplit())
  {
    hide SplitCount, NewBalance;
    LargeNumbers();
  }

  /** What is left of it: 96001, which a refresh scan selects and the run cannot pay with. */
  lemma LargeHidden() returns (s: Station)
    ensures Reachable(s) && s.target == 1 && NeverPays(s, 0, 1) && s.nextTask == 1 && s.clock == 0
    ensures s.tasks.Keys == {0} && s.tasks[0].Splitting? && 1 in s.ledger && s.ledger[1].id == 1
    ensures s.ledger[1].balance == 96001
    ensures s.ledger[1] in s.tasks[0].work && s.pool == Fresh(1).pool.(initLock := Some(MAX_INIT_DURATION))
    ensures forall id :: id in s.ledger && id != 1 ==> s.ledger[id].balance == 1
  {
    hide Reachable, CanRun, Run, Own, Post, IdSet, NeverPays, Inv, NewBalance, SplitCount, SplitParts, LargeSplit,
      SplitOk;
    var q := OneQueued(LARGE);
    LargeQueued(q);
    var st := SplitErr(0, 0, Some(LargeSplit()));
    ReachStep(q, st);
    s := Apply(q, st);
    LargeNumbers();
    LargeParts(q);
    LargeStalls(q);
    var parts := SplitParts(q, 0, 0, LargeSplit());
    assert [LARGE][0 := parts[1999]] == [parts[1999]];
    assert parts[1999] in [parts[1999]];
  }

  lemma LargeStalls(q: Station)
    requires Reachable(q)
    requires CanSplit(q, 0, 0) && CountOf(q, 0, 0) == 2000 && SplitOk(q, 0, 0, LargeSplit())
    requires q.tasks[0].gas == GAS && q.tasks[0].work == [LARGE]
    ensures NeverPays(DoHide(q, 0, 0, LargeSplit()), 0, 1)
  {
    hide Reachable, Inv, NeverPays, SplitParts, Own, Post, IdSet, SplitCount, CountOf, DoHide, NewBalance, CanSplit,
      SplitOk;
    ReachableInv(q);
    LargeNumbers();
    LargeCharge();
    HiddenSplitStalls(q, 0, 0, LargeSplit());
  }

  lemma LargeCharge()
    ensures LargeSplit().net == 100000 && |LargeSplit().created| == 1999 && LargeSplit().left.id == 1
    ensures forall i :: 0 <= i < 1999 ==> LargeSplit().created[i].id == 2 + i
  {
  }

  lemma LargeParts(q: Station)
    requires CanSplit(q, 0, 0) && CountOf(q, 0, 0) == 2000 && SplitOk(q, 0, 0, LargeSplit())
    requires q.tasks[0].gas == GAS && q.tasks[0].work == [LARGE] && q.ledger == map[1 := LARGE]
    ensures
      var parts := SplitParts(q, 0, 0, LargeSplit());
      var m := Post(q.ledger, {1}, parts);
      && |LargeSplit().created| == 1999 && |parts| == 2000 && parts[1999].id == 1 && parts[1999].balance == 96001
      && 1 in m && m[1] == parts[1999]
      && forall id :: id in m && id != 1 ==> m[id].balance == 1
  {
    hide Post, PartsBy, SplitCount, CountOf, NewBalance, Distinct, LargeSplit, SplitOk, Remainder;
    LargeNumbers();
    LargeCharge();
    var x := LargeSplit();
    var parts := SplitParts(q, 0, 0, x);
    PartsByExact(LARGE, 2000, 196000, x.net, x.created, x.left);
    LargeDistinct(parts);
    PostContents(q.ledger, {1}, parts);
    var m := Post(q.ledger, {1}, parts);
    assert parts[1999] in parts;
    forall id | id in m && id != 1 ensures m[id].balance == 1 {
      assert id in IdSet(parts);
      var p :| p in parts && p.id == id;
      var i :| 0 <= i < 2000 && parts[i] == p;
      assert i < 1999;
    }
  }

  lemma LargeDistinct(parts: seq<GasCoin>)
    requires |parts| == 2000 && parts[1999].id == 1 && forall i :: 0 <= i < 1999 ==> parts[i].id == 2 + i
    ensures Distinct(parts)
  {
  }

  /** After the lease a refresh gets the lock. The stopped run's coin is all that is wrong with its scan. */
  lemma StuckIsSelected() returns (s: Station, scan: Step)
    ensures Reachable(s) && NeverPays(s, 0, 1) && ActiveRun(s, 0) && Enabled(s, scan)
    ensures 1 in s.ledger && scan == Scan(1, GAS, [s.ledger[1]])
    ensures !AtThreshold(s) && !UnreadMerge(s) && !Exclusive(Apply(s, scan))
  {
    hide Reachable, CanRun, Run, NeverPays, Inv, DoScan, Exclusive, Lists, Selected, AtThreshold, UnreadMerge,
      QueuedElsewhere;
    s := LargeHidden();
    ReachStep(s, Tick(MAX_INIT_DURATION + 1));
    StillNeverPays(s, Apply(s, Tick(MAX_INIT_DURATION + 1)));
    s := Apply(s, Tick(MAX_INIT_DURATION + 1));
    ReachStep(s, StartRun(None));
    StillNeverPays(s, Apply(s, StartRun(None)));
    s := Apply(s, StartRun(None));
    scan := Scan(1, GAS, [s.ledger[1]]);
    LargeSelected(s.ledger);
    ReachableInv(s);
    OnlyRuns(s);
    LargeIsQueued(s);
    RefreshScanExact(s, 1, GAS, [s.ledger[1]]);
  }

  lemma LargeSelected(l: Ledger)
    requires 1 in l && l[1].id == 1 && l[1].balance == 96001 && forall id :: id in l && id != 1 ==> l[id].balance == 1
    ensures Lists([l[1]], l, Selected(l, 200))
  {
    assert l[1] in [l[1]];
    assert Selected(l, 200) == {1} && IdSet([l[1]]) == {1};
  }

  lemma OnlyRuns(s: Station)
    requires s.pool.available == [] && s.pool.reservations == map[] && forall k :: k in s.tasks ==> IsRun(s.tasks[k])
    ensures !AtThreshold(s) && !UnreadMerge(s)
  {
  }

  lemma LargeIsQueued(s: Station)
    requires s.target == 1 && 0 in s.tasks && s.tasks[0].Splitting? && 1 in s.ledger && s.ledger[1] in s.tasks[0].work
    requires s.ledger[1].balance == 96001
    ensures QueuedElsewhere(s, 1)
  {
  }

  // ---------------------------------------------------------------- a stopped run goes on

  const E: GasCoin := GasCoin(60, 3, 0, "")
  const FED: GasCoin := GasCoin(200, 1, 2, "")
  const LATE: Split := Split(2, [ObjectRef(4, 3, "")], ObjectRef(1, 3, ""))

  /** What the scenario needs to know about a state: the first task is the stopped run. */
  ghost predicate Stopped(s: Station, available: seq<GasCoin>, ledger: Ledger, tasks: map<nat, Task>, nextTask: nat) {
    && s.target == 1 && s.pool.available == available && s.pool.reservations == map[] && s.pool.maintenanceLock == None
    && StatsPresent(s.pool) && s.ledger == ledger && s.nextTask == nextTask && s.used == {1, 2, 3}
    && s.tasks == tasks[0 := Splitting(MAX_INIT_DURATION, GAS, [REST], [], map[1 := 2])]
  }

  const REST_ADDED: seq<Step> := [
    Deposit(E), Tick(MAX_INIT_DURATION + 1), Boot, StartRun(Some(1)), Scan(1, GAS, [REST, E, MADE]), AddChunk(1),
      EndRun(1)]

  lemma AllThree()
    ensures Lists([REST, E, MADE], map[1 := REST, 2 := MADE, 3 := E], Selected(map[1 := REST, 2 := MADE, 3 := E], 0))
    ensures KeepLimit(GAS, 1) == 198 && Large([REST, E, MADE], 198) == []
    ensures Small([REST, E, MADE], 198) == [REST, E, MADE]
  {
    var all := [REST, E, MADE];
    assert REST in all && E in all && MADE in all;
    assert IdSet(all) == {1, 2, 3} && Selected(map[1 := REST, 2 := MADE, 3 := E], 0) == {1, 2, 3};
    assert all[1..] == [E, MADE] && [E, MADE][1..] == [MADE] && [MADE][1..] == [];
    assert Small(all[3..], 198) == [] && Large(all[3..], 198) == [] && [MADE][1..] == all[3..];
    assert Small([MADE], 198) == [MADE] && Large([MADE], 198) == [];
    assert Small([E, MADE], 198) == [E, MADE] && Large([E, MADE], 198) == [];
  }

  /** A first start after the lease registers everything, the stopped run's coin too. */
  lemma RestScanned(h: Station) returns (u: Station)
    requires Stopped(h, [], map[1 := REST, 2 := MADE, 3 := E], map[1 := Booted], 2)
    requires h.clock == MAX_INIT_DURATION + 1 && h.pool.initLock == Some(MAX_INIT_DURATION)
    ensures Leads(h, [StartRun(Some(1)), Scan(1, GAS, [REST, E, MADE])], u)
    ensures Stopped(u, [], h.ledger, map[1 := Splitting(2 * MAX_INIT_DURATION + 1, GAS, [], [REST, E, MADE], map[])], 2)
    ensures u.pool.lastReservation == h.pool.lastReservation
  {
    hide Lists, Selected, Own, IdSet, Large, Small, KeepLimit;
    AllThree();
    var t := DoStart(h, Some(1));
    LeadsTwo(h, StartRun(Some(1)), t, Scan(1, GAS, [REST, E, MADE]));
    u := Apply(t, Scan(1, GAS, [REST, E, MADE]));
  }

  lemma RestPooled(h: Station) returns (u: Station)
    requires Stopped(h, [], map[1 := REST, 2 := MADE, 3 := E],
                     map[1 := Splitting(2 * MAX_INIT_DURATION + 1, GAS, [], [REST, E, MADE], map[])], 2)
    ensures Leads(h, [AddChunk(1), EndRun(1)], u) && Stopped(u, [REST, E, MADE], h.ledger, map[], 2)
    ensures u.pool.lastReservation == h.pool.lastReservation
  {
    hide DoAddChunk, Stopped;
    RestChunk(h);
    var t := DoAddChunk(h, 1);
    RestFreed(t);
    LeadsTwo(h, AddChunk(1), t, EndRun(1));
    u := Apply(t, EndRun(1));
  }

  lemma RestChunk(h: Station)
    requires Stopped(h, [], map[1 := REST, 2 := MADE, 3 := E],
                     map[1 := Splitting(2 * MAX_INIT_DURATION + 1, GAS, [], [REST, E, MADE], map[])], 2)
    ensures Enabled(h, AddChunk(1))
    ensures Stopped(DoAddChunk(h, 1), [REST, E, MADE], map[1 := REST, 2 := MADE, 3 := E],
                    map[1 := Splitting(2 * MAX_INIT_DURATION + 1, GAS, [], [], map[])], 2)
    ensures DoAddChunk(h, 1).pool.lastReservation == h.pool.lastReservation
    ensures h.ledger == map[1 := REST, 2 := MADE, 3 := E]
  {
    hide Own, IdSet, Total;
    var all := [REST, E, MADE];
    assert all[..3] == all && all[3..] == [] && [] + all == all;
  }

  lemma RestFreed(t: Station)
    requires Stopped(t, [REST, E, MADE], map[1 := REST, 2 := MADE, 3 := E],
                     map[1 := Splitting(2 * MAX_INIT_DURATION + 1, GAS, [], [], map[])], 2)
    ensures Enabled(t, EndRun(1))
    ensures Stopped(Apply(t, EndRun(1)), [REST, E, MADE], map[1 := REST, 2 := MADE, 3 := E], map[], 2)
    ensures Apply(t, EndRun(1)).pool.lastReservation == t.pool.lastReservation
  {
  }

  lemma RestAdded(h: Station) returns (u: Station)
    requires h.target == 1 && h.ledger == map[1 := REST, 2 := MADE] && h.used == {1, 2} && h.nextTask == 1
    requires h.clock == 0
    requires h.tasks == map[0 := Splitting(MAX_INIT_DURATION, GAS, [REST], [], map[1 := 2])]
    requires h.pool == Fresh(1).pool.(initLock := Some(MAX_INIT_DURATION))
    ensures Leads(h, REST_ADDED, u) && Stopped(u, [REST, E, MADE], map[1 := REST, 2 := MADE, 3 := E], map[], 2)
    ensures u.pool.lastReservation == 0
  {
    hide Leads, DoStart, DoScan, DoAddChunk;
    var a := Apply(h, Deposit(E));
    LeadsTwo(h, Deposit(E), a, Tick(MAX_INIT_DURATION + 1));
    var b := Apply(a, Tick(MAX_INIT_DURATION + 1));
    LeadsStep(h, [Deposit(E), Tick(MAX_INIT_DURATION + 1)], b, Boot);
    var c := Apply(b, Boot);
    var d := RestScanned(c);
    u := RestPooled(d);
    LeadsOn(c, [StartRun(Some(1)), Scan(1, GAS, [REST, E, MADE])], d, [AddChunk(1), EndRun(1)], u);
    LeadsOn(h, [Deposit(E), Tick(MAX_INIT_DURATION + 1)] + [Boot], c,
            [StartRun(Some(1)), Scan(1, GAS, [REST, E, MADE])] + [AddChunk(1), EndRun(1)], u);
    assert REST_ADDED == [Deposit(E), Tick(MAX_INIT_DURATION + 1)] + [Boot]
      + ([StartRun(Some(1)), Scan(1, GAS, [REST, E, MADE])] + [AddChunk(1), EndRun(1)]);
  }

  const REST_FED: seq<Step> := [
    ReserveGas(200, 10, 0), ReadyForExecution(1), QueryTotal(2), ExecuteOk(2, Effects(8, 2, "")), ReleaseCoins(2)]

  lemma TwoOfThree()
    ensures Taken([REST, E, MADE], 200, MAX_GAS_PER_QUERY) == 2 && Total([REST, E]) == 208
    ensures [REST, E, MADE][..2] == [REST, E] && [REST, E, MADE][2..] == [MADE] && IdsOf([REST, E]) == [1, 3]
    ensures SumOf(map[1 := REST, 2 := MADE, 3 := E], [1, 3]) == 208
  {
    var l := map[1 := REST, 2 := MADE, 3 := E];
    assert [REST, E, MADE][1..] == [E, MADE] && [E, MADE][1..] == [MADE];
    assert Taken([MADE], -8, MAX_GAS_PER_QUERY - 2) == 0 && Taken([E, MADE], 52, MAX_GAS_PER_QUERY - 1) == 1;
    assert [REST, E][1..] == [E] && [E][1..] == [] && Total([E]) == 60 && Total([]) == 0;
    assert [1, 3][1..] == [3] && [3][1..] == [];
    assert SumOf(l, []) == 0 && SumOf(l, [3]) == 60;
  }

  /** A caller gets the stopped run's coin together with another one ... */
  lemma RestLent(h: Station) returns (u: Station)
    requires Stopped(h, [REST, E, MADE], map[1 := REST, 2 := MADE, 3 := E], map[], 2) && h.pool.lastReservation == 0
    ensures Leads(h, [ReserveGas(200, 10, 0), ReadyForExecution(1)], u)
    ensures Stopped(u, [MADE], h.ledger, map[2 := Claimed([1, 3])], 3)
  {
    hide Own, IdSet, Taken, Total, IdsOf;
    TwoOfThree();
    var t := Apply(h, ReserveGas(200, 10, 0));
    assert t.pool.reservations.Keys == {1} && t.pool.reservations[1] == [1, 3];
    LeadsTwo(h, ReserveGas(200, 10, 0), t, ReadyForExecution(1));
    u := Apply(t, ReadyForExecution(1));
  }

  /** ... and the payment makes one coin of 200 of the two. */
  lemma RestPaid(h: Station) returns (u: Station)
    requires Stopped(h, [MADE], map[1 := REST, 2 := MADE, 3 := E], map[2 := Claimed([1, 3])], 3)
    ensures Leads(h, [QueryTotal(2), ExecuteOk(2, Effects(8, 2, ""))], u)
    ensures Stopped(u, [MADE], map[1 := FED, 2 := MADE], map[2 := Settled([FED])], 3)
  {
    hide Own, IdSet, SumOf, Post, SetOf;
    TwoOfThree();
    PaidBoth();
    var t := Apply(h, QueryTotal(2));
    LeadsTwo(h, QueryTotal(2), t, ExecuteOk(2, Effects(8, 2, "")));
    u := Apply(t, ExecuteOk(2, Effects(8, 2, "")));
  }

  lemma PaidBoth()
    ensures Post(map[1 := REST, 2 := MADE, 3 := E], SetOf([1, 3]), [FED]) == map[1 := FED, 2 := MADE]
  {
    var l: Ledger := map[1 := REST, 2 := MADE, 3 := E];
    assert 1 in [1, 3] && 3 in [1, 3];
    assert l - SetOf([1, 3]) == map[2 := MADE] && [FED][1..] == [];
    assert AddAll(l - SetOf([1, 3]), [FED]) == AddAll((l - SetOf([1, 3]))[1 := FED], []);
  }

  lemma RestFed(h: Station) returns (u: Station)
    requires Stopped(h, [REST, E, MADE], map[1 := REST, 2 := MADE, 3 := E], map[], 2) && h.pool.lastReservation == 0
    ensures Leads(h, REST_FED, u) && Stopped(u, [MADE, FED], map[1 := FED, 2 := MADE], map[], 3)
  {
    hide Leads, Own, IdSet, Total;
    var a := RestLent(h);
    var b := RestPaid(a);
    LeadsOn(h, [ReserveGas(200, 10, 0), ReadyForExecution(1)], a, [QueryTotal(2), ExecuteOk(2, Effects(8, 2, ""))], b);
    LeadsStep(h, [ReserveGas(200, 10, 0), ReadyForExecution(1)] + [QueryTotal(2), ExecuteOk(2, Effects(8, 2, ""))], b,
      ReleaseCoins(2));
    u := Apply(b, ReleaseCoins(2));
    assert REST_FED == [ReserveGas(200, 10, 0), ReadyForExecution(1)] + [QueryTotal(2), ExecuteOk(2, Effects(8, 2, ""))]
      + [ReleaseCoins(2)];
    assert [MADE] + [FED] == [MADE, FED];
  }

  const REST_ENDS: seq<Step> := [SplitErr(0, 0, None), SplitCoin(0, 0, LATE), AddChunk(0), EndRun(0)]

  const LATE_MADE: GasCoin := GasCoin(2, 4, 3, "")
  const LATE_REST: GasCoin := GasCoin(196, 1, 3, "")

  /** The stopped run reads its coin again, and can pay. */
  lemma RestSplit(h: Station) returns (u: Station)
    requires Stopped(h, [MADE, FED], map[1 := FED, 2 := MADE], map[], 3)
    ensures Leads(h, [SplitErr(0, 0, None), SplitCoin(0, 0, LATE)], u)
    ensures u.tasks == map[0 := Splitting(MAX_INIT_DURATION, GAS, [], [LATE_MADE, LATE_REST], map[])]
    ensures u.pool == h.pool
  {
    hide Own, IdSet, Post, Large, Small, KeepLimit, PartsBy, NewBalance;
    var t := Apply(h, SplitErr(0, 0, None));
    assert [REST][0 := FED] == [FED];
    LateParts();
    LeadsTwo(h, SplitErr(0, 0, None), t, SplitCoin(0, 0, LATE));
    u := Apply(t, SplitCoin(0, 0, LATE));
    assert map[1 := 2] - {1} == map[] && [FED][..0] + [FED][1..] + [] == [];
    assert [] + [LATE_MADE, LATE_REST] == [LATE_MADE, LATE_REST];
  }

  lemma LateParts()
    ensures PartsBy(FED, 2, 196, LATE.net, LATE.created, LATE.left) == [LATE_MADE, LATE_REST]
    ensures KeepLimit(GAS, 1) == 198
    ensures Large([LATE_MADE, LATE_REST], 198) == [] && Small([LATE_MADE, LATE_REST], 198) == [LATE_MADE, LATE_REST]
  {
    assert CreatedCoins(LATE.created, 2) == [LATE_MADE];
    assert [LATE_MADE, LATE_REST][1..] == [LATE_REST] && [LATE_REST][1..] == [];
    assert Small([LATE_REST], 198) == [LATE_REST] && Large([LATE_REST], 198) == [];
  }

  lemma RestEnds(h: Station) returns (u: Station)
    requires Stopped(h, [MADE, FED], map[1 := FED, 2 := MADE], map[], 3)
    ensures Leads(h, REST_ENDS, u) && u.pool.available == [MADE, FED, LATE_MADE, LATE_REST]
  {
    hide Leads, Own, IdSet, Total;
    var a := RestSplit(h);
    var all := [LATE_MADE, LATE_REST];
    assert all[..2] == all && all[2..] == [] && [MADE, FED] + all == [MADE, FED, LATE_MADE, LATE_REST];
    var b := Apply(a, AddChunk(0));
    LeadsTwo(a, AddChunk(0), b, EndRun(0));
    u := Apply(b, EndRun(0));
    LeadsOn(h, [SplitErr(0, 0, None), SplitCoin(0, 0, LATE)], a, [AddChunk(0), EndRun(0)], u);
    assert REST_ENDS == [SplitErr(0, 0, None), SplitCoin(0, 0, LATE)] + [AddChunk(0), EndRun(0)];
  }

  /**
   * The lease of the stopped run passes. A first start lists its coin of 148, a payment merges it with another to
   * 200, and so the stopped run can pay after all: it splits a coin the pool lists, and adds the parts. One
   * coin is then listed twice.
   */
  lemma StuckRunEnds() returns (h: Station, u: Station)
    ensures Reachable(h) && NeverPays(h, 0, 1) && Leads(h, REST_ADDED + REST_FED + REST_ENDS, u)
    ensures EndRun(0) in REST_ENDS && !Distinct(u.pool.available)
  {
    hide Reachable, NeverPays, Leads, Distinct;
    h := Hidden();
    var a := RestAdded(h);
    var b := RestFed(a);
    u := RestEnds(b);
    LeadsOn(h, REST_ADDED, a, REST_FED, b);
    LeadsOn(h, REST_ADDED + REST_FED, b, REST_ENDS, u);
    assert REST_ENDS[3] == EndRun(0);
    Twice(u.pool.available, 1, 3);
  }

  lemma Twice(coins: seq<GasCoin>, i: nat, j: nat)
    requires i < j < |coins| && coins[i].id == coins[j].id
    ensures !Distinct(coins)
  {
  }
}
