/**
 * The steps that `SafeStep` shuts out do come up: interleavings of the code as it is, each after an ordinary
 * run, in which a scan takes a coin that somebody else holds, or a coin is released twice. And runs in which
 * an error leaves coins to nobody, or stops the initializer for good.
 */
module StationRaces {
  import opened Coins
  import opened SplitMath
  import opened Pool
  import opened Ledger
  import opened Station
  import opened StationInvariant
  import opened StationSteps
  import opened StationTheorems
  import opened StationHidden

  lemma {:induction false} RunLonger(s: Station, steps: seq<Step>, st: Step)
    requires CanRun(s, steps) && Enabled(Run(s, steps), st) && SafeStep(Run(s, steps), st)
    ensures CanRun(s, steps + [st]) && Run(s, steps + [st]) == Apply(Run(s, steps), st)
    decreases |steps|
  {
    hide Enabled, SafeStep, Apply;
    if steps == [] {
      assert [] + [st] == [st] && [st][1..] == [];
    } else {
      assert (steps + [st])[0] == steps[0] && (steps + [st])[1..] == steps[1..] + [st];
      RunLonger(Apply(s, steps[0]), steps[1..], st);
    }
  }

  lemma ReachStep(s: Station, st: Step)
    requires Reachable(s) && Enabled(s, st) && SafeStep(s, st) && Apply(s, st).target == s.target
    ensures Reachable(Apply(s, st))
  {
    hide Enabled, SafeStep, Apply, CanRun, Run;
    var steps :| CanRun(Fresh(s.target), steps) && Run(Fresh(s.target), steps) == s;
    RunLonger(Fresh(s.target), steps, st);
  }

  lemma ReachFresh(target: nat)
    ensures Reachable(Fresh(target))
  {
    assert CanRun(Fresh(target), []) && Run(Fresh(target), []) == Fresh(target);
  }

  // with a target of 1 the threshold is 200, and with a gas cost of 98 coins up to 198 stay whole
  const GAS: nat := 98
  const A: GasCoin := GasCoin(150, 1, 0, "")
  const B: GasCoin := GasCoin(60, 2, 0, "")

  /** What the scenarios need to know about a state. */
  ghost predicate Looks(s: Station, available: seq<GasCoin>, ledger: Ledger, tasks: map<nat, Task>, nextTask: nat,
      clock: nat) {
    && Reachable(s) && s.target == 1
    && s.pool.available == available && s.pool.reservations == map[]
    && s.pool.maintenanceLock == None
    && s.ledger == ledger && s.tasks == tasks && s.nextTask == nextTask && s.clock == clock
  }

  /** Two coins arrive, and an instance finds the registry unmarked; perhaps another one does, too. */
  lemma TwoArrived(stale: bool) returns (s: Station)
    ensures Looks(s, [], map[1 := A, 2 := B], Waiting(stale)[0 := Booted], if stale then 2 else 1, 0)
    ensures s.pool == Fresh(1).pool
  {
    hide Reachable, CanRun, Run;
    ReachFresh(1);
    s := Fresh(1);
    ReachStep(s, Deposit(A));
    s := Apply(s, Deposit(A));
    ReachStep(s, Deposit(B));
    s := Apply(s, Deposit(B));
    ReachStep(s, Boot);
    s := Apply(s, Boot);
    if stale {
      ReachStep(s, Boot);
      s := Apply(s, Boot);
    }
  }

  /** The first of them registers the coins, and its lock is free again. The other has not gone on yet. */
  lemma TwoPooled(stale: bool) returns (s: Station)
    ensures Looks(s, [A, B], map[1 := A, 2 := B], Waiting(stale), if stale then 2 else 1, 1)
    ensures s.pool.initLock == Some(0) && s.pool.initialized && s.pool.lastReservation == 0
  {
    hide Reachable, CanRun, Run, Large, Small, Own, Lists, Selected, TaskIds;
    s := TwoArrived(stale);
    ReachStep(s, StartRun(Some(0)));
    s := Apply(s, StartRun(Some(0)));
    HandsFree(stale);
    var next := if stale then 2 else 1;
    s := InitScanned(s, Waiting(stale), next);
    s := InitAdded(s, Waiting(stale), next);
    ReachStep(s, Tick(1));
    s := Apply(s, Tick(1));
  }

  lemma HandsFree(stale: bool)
    ensures 0 !in Waiting(stale) && forall k :: k in Waiting(stale) ==> TaskIds(Waiting(stale)[k]) == {}
  {
  }

  function Waiting(stale: bool): map<nat, Task> {
    if stale then map[1 := Booted] else map[]
  }

  lemma BothSelected()
    ensures IdSet([A, B]) == {1, 2} && IdsOf([A, B]) == [1, 2]
    ensures Lists([A, B], map[1 := A, 2 := B], {1, 2}) && Selected(map[1 := A, 2 := B], 0) == {1, 2}
  {
    assert A in [A, B] && B in [A, B];
  }

  lemma BothWhole()
    ensures KeepLimit(GAS, 1) == 198 && Large([A, B], 198) == [] && Small([A, B], 198) == [A, B]
  {
    assert [A, B][1..] == [B] && [B][1..] == [];
    assert Small([B], 198) == [B] && Large([B], 198) == [];
  }

  lemma InitScanned(s: Station, rest: map<nat, Task>, next: nat) returns (t: Station)
    requires Looks(s, [], map[1 := A, 2 := B], rest[0 := Locked(MAX_INIT_DURATION, true)], next, 0)
    ensures Looks(t, [], map[1 := A, 2 := B], rest[0 := Splitting(MAX_INIT_DURATION, GAS, [], [A, B], map[])], next, 0)
    requires 0 !in rest && forall k :: k in rest ==> TaskIds(rest[k]) == {}
    ensures t.pool == s.pool
  {
    hide Reachable, Lists, Selected, Own, IdSet, Large, Small, KeepLimit, CanRun, Run, NothingHeld, TaskIds;
    BothSelected();
    BothWhole();
    var st := Scan(0, GAS, [A, B]);
    NobodyHolds(s, rest);
    ReachStep(s, st);
    t := Apply(s, st);
  }

  lemma NobodyHolds(s: Station, rest: map<nat, Task>)
    requires s.pool.available == [] && s.pool.reservations == map[]
    requires s.tasks == rest[0 := Locked(MAX_INIT_DURATION, true)] && forall k :: k in rest ==> TaskIds(rest[k]) == {}
    ensures NothingHeld(s)
  {
  }

  lemma InitAdded(s: Station, rest: map<nat, Task>, next: nat) returns (t: Station)
    requires Looks(s, [], map[1 := A, 2 := B], rest[0 := Splitting(MAX_INIT_DURATION, GAS, [], [A, B], map[])], next, 0)
    ensures Looks(t, [A, B], map[1 := A, 2 := B], rest, next, 0)
    requires 0 !in rest
    ensures t.pool.initLock == Some(0) && t.pool.initialized && t.pool.lastReservation == s.pool.lastReservation
  {
    hide Reachable, CanRun, Run, Own, IdSet, Large, Small, Lists, Selected, Total, TaskIds;
    t := InitChunk(s, rest, next);
    ReachStep(t, EndRun(0));
    t := Apply(t, EndRun(0));
  }

  lemma InitChunk(s: Station, rest: map<nat, Task>, next: nat) returns (t: Station)
    requires Looks(s, [], map[1 := A, 2 := B], rest[0 := Splitting(MAX_INIT_DURATION, GAS, [], [A, B], map[])], next, 0)
    ensures Looks(t, [A, B], map[1 := A, 2 := B], rest[0 := Splitting(MAX_INIT_DURATION, GAS, [], [], map[])], next, 0)
    ensures t.pool.initialized && t.pool.lastReservation == s.pool.lastReservation
  {
    hide Reachable, CanRun, Run, Own, IdSet, Large, Small, Lists, Selected, Total, TaskIds;
    ReachStep(s, AddChunk(0));
    t := Apply(s, AddChunk(0));
    assert [A, B][..2] == [A, B] && [A, B][2..] == [] && [] + [A, B] == [A, B];
  }

  lemma BothTaken()
    ensures Taken([A, B], 200, MAX_GAS_PER_QUERY) == 2 && Total([A, B]) == 210
    ensures [A, B][..2] == [A, B] && [A, B][2..] == []
    ensures SumOf(map[1 := A, 2 := B], [1, 2]) == 210
  {
    var l := map[1 := A, 2 := B];
    assert [A, B][1..] == [B] && [B][1..] == [];
    assert Total([B]) == 60 && Total([]) == 0;
    assert [1, 2][1..] == [2] && [2][1..] == [];
    assert SumOf(l, []) == 0 && SumOf(l, [2]) == 60;
  }

  /** A caller reserves both coins ... */
  lemma BothReserved() returns (s: Station)
    ensures Reachable(s) && s.target == 1 && s.pool.available == [] && s.pool.reservations == map[1 := [1, 2]]
    ensures s.pool.maintenanceLock == None && s.pool.initLock == Some(0)
    ensures s.ledger == map[1 := A, 2 := B] && s.tasks == map[] && s.nextTask == 1 && s.clock == 1
  {
    hide Reachable, CanRun, Run, Own, IdSet, Lists, Selected, Taken, Total, SumOf, IdsOf;
    s := TwoPooled(false);
    RegistryAgrees(s);
    BothTaken();
    BothSelected();
    ReachStep(s, ReserveGas(200, 10, 0));
    s := Apply(s, ReserveGas(200, 10, 0));
    assert s.pool.reservations.Keys == {1} && s.pool.reservations[1] == IdsOf([A, B]);
  }

  /** ... sends a transaction, and the station has looked up their total. */
  lemma BothQueried() returns (s: Station)
    ensures Looks(s, [], map[1 := A, 2 := B], map[1 := Queried([1, 2], 210)], 2, 1)
    ensures s.pool.initLock == Some(0)
  {
    hide Reachable, CanRun, Run, Own, IdSet, SumOf;
    s := BothReserved();
    BothTaken();
    ReachStep(s, ReadyForExecution(1));
    s := Apply(s, ReadyForExecution(1));
    ReachStep(s, QueryTotal(1));
    s := Apply(s, QueryTotal(1));
  }

  /** The payment leaves one coin, which becomes the whole ledger. */
  lemma BothMerged(s: Station, e: Effects)
    requires s.ledger == map[1 := A, 2 := B] && e.net <= 210
    ensures CanPay(s, [1, 2], e)
    ensures
      var c := GasCoin(210 - e.net, 1, e.version, e.digest);
      Smashed(s, [1, 2], e) == c && Post(s.ledger, SetOf([1, 2]), [c]) == map[1 := c]
  {
    BothTaken();
    var c := GasCoin(210 - e.net, 1, e.version, e.digest);
    assert [c][1..] == [];
    assert 1 in [1, 2] && 2 in [1, 2];
    var none: Ledger := s.ledger - SetOf([1, 2]);
    assert none == map[] && none[1 := c] == map[1 := c];
    assert AddAll(none, [c]) == AddAll(none[1 := c], []);
  }

  lemma OneSelected(c: GasCoin)
    requires 200 <= c.balance && c.id == 1
    ensures Lists([c], map[1 := c], Selected(map[1 := c], 200))
  {
    assert c in [c];
    assert IdSet([c]) == {1} && Selected(map[1 := c], 200) == {1};
  }

  /**
   * Execution releases a coin of exactly the threshold to the pool, and the scan of a refresh takes coins
   * from the threshold on: such a coin is listed and split at the same time.
   */
  lemma BoundaryGap() returns (s: Station, scan: Step)
    ensures Reachable(s) && Enabled(s, scan) && scan.Scan? && !s.tasks[scan.k].init
    ensures !UnreadMerge(s) && !QueuedElsewhere(s, scan.k) && !Exclusive(Apply(s, scan))
  {
    hide Reachable, CanRun, Run, Exclusive, Lists, Selected, DoScan, Inv, AtThreshold, QueuedElsewhere;
    var c := GasCoin(200, 1, 1, "");
    s := AtTheThreshold(c);
    ReachStep(s, StartRun(None));
    s := Apply(s, StartRun(None));
    scan := Scan(2, GAS, [c]);
    OneSelected(c);
    ReachableInv(s);
    SettledAtThreshold(s, 1, c);
    NothingQueued(s);
    RefreshScanExact(s, 2, GAS, [c]);
  }

  lemma AtTheThreshold(c: GasCoin) returns (s: Station)
    requires c == GasCoin(200, 1, 1, "")
    ensures Looks(s, [], map[1 := c], map[1 := Settled([c])], 2, 1) && s.pool.initLock == Some(0)
  {
    hide Reachable, CanRun, Run, Own, IdSet, SumOf, SetOf, Post, Smashed, CanPay;
    s := BothQueried();
    BothMerged(s, Effects(10, 1, ""));
    ReachStep(s, ExecuteOk(1, Effects(10, 1, "")));
    s := Apply(s, ExecuteOk(1, Effects(10, 1, "")));
  }

  lemma NothingQueued(s: Station)
    requires forall k :: k in s.tasks ==> !s.tasks[k].Splitting?
    ensures forall k :: !QueuedElsewhere(s, k)
  {
  }

  lemma SettledAtThreshold(s: Station, k: nat, c: GasCoin)
    requires k in s.tasks && s.tasks[k] == Settled([c]) && c.id in s.ledger && s.ledger[c.id] == c
    requires c.balance == Threshold(s)
    ensures AtThreshold(s)
  {
    assert c in [c];
    assert c.id in At(s, Busy(k)) && !InRun(s, Busy(k));
  }

  /**
   * The executor got an error for a transaction that did take effect. A refresh scan that comes before
   * the executor's own look at the ledger picks the merged coin up; both will add what is left of it.
   */
  lemma ErrorRace() returns (s: Station, scan: Step)
    ensures Reachable(s) && Enabled(s, scan) && scan.Scan? && !s.tasks[scan.k].init
    ensures !AtThreshold(s) && !QueuedElsewhere(s, scan.k) && !Exclusive(Apply(s, scan))
  {
    hide Reachable, CanRun, Run, Own, IdSet, Exclusive, Lists, Selected, DoScan, Inv, AtThreshold, QueuedElsewhere;
    var c := GasCoin(205, 1, 1, "");
    s := HiddenMerge(c);
    ReachStep(s, StartRun(None));
    s := Apply(s, StartRun(None));
    scan := Scan(2, GAS, [c]);
    OneSelected(c);
    ReachableInv(s);
    FailedUnread(s, 1, c);
    NothingQueued(s);
    RefreshScanExact(s, 2, GAS, [c]);
  }

  lemma HiddenMerge(c: GasCoin) returns (s: Station)
    requires c == GasCoin(205, 1, 1, "")
    ensures Looks(s, [], map[1 := c], map[1 := Failed([1, 2])], 2, 1) && s.pool.initLock == Some(0)
  {
    hide Reachable, CanRun, Run, Own, IdSet, SumOf, SetOf, Post, Smashed, CanPay;
    s := BothQueried();
    BothMerged(s, Effects(5, 1, ""));
    ReachStep(s, ExecuteErr(1, Some(Effects(5, 1, ""))));
    s := Apply(s, ExecuteErr(1, Some(Effects(5, 1, ""))));
  }

  lemma FailedUnread(s: Station, k: nat, c: GasCoin)
    requires k in s.tasks && s.tasks[k].Failed? && c.id in s.tasks[k].ids && s.ledger == map[c.id := c]
    requires Threshold(s) < c.balance
    ensures UnreadMerge(s) && !AtThreshold(s)
  {
    assert c.id in s.ledger && s.ledger[c.id].balance == c.balance;
  }

  /**
   * Two instances read the mark before either has the init lock. The second gets the lock after the first has
   * filled the registry and marked it, and its Init scan takes the whole pool a second time.
   */
  lemma InitRace() returns (s: Station, scan: Step)
    ensures Reachable(s) && s.pool.initialized && Enabled(s, scan) && scan.Scan? && s.tasks[scan.k].init
    ensures !Exclusive(Apply(s, scan))
  {
    hide Reachable, CanRun, Run, Own, IdSet, Exclusive, Lists, Selected, DoScan, Inv;
    s := TwoPooled(true);
    ReachStep(s, StartRun(Some(1)));
    s := Apply(s, StartRun(Some(1)));
    scan := Scan(1, GAS, [A, B]);
    BothSelected();
    ReachableInv(s);
    InitScanExact(s, 1, GAS, [A, B]);
  }

  // ---------------------------------------------------------------- lost replies

  const D: GasCoin := GasCoin(60, 1, 1, "")

  /**
   * The reply to `add_new_coins` is lost and the release is sent again. The coin is listed twice, and the next
   * two callers both get it.
   */
  lemma ReleaseRace() returns (s: Station)
    ensures Reachable(s) && Enabled(s, ReleaseErr(1, true)) && Enabled(Apply(s, ReleaseErr(1, true)), ReleaseCoins(1))
    ensures
      var p := Apply(Apply(s, ReleaseErr(1, true)), ReleaseCoins(1)).pool;
      var (first, q) := Reserve(p, 60, 9, 1);
      var second := Reserve(q, 60, 9, 1).0;
      p.available == [D, D] && first.Reserved? && first.coins == [D] && second.Reserved? && second.coins == [D]
  {
    hide Reachable, CanRun, Run, Own, IdSet, SumOf, SetOf, Post, Smashed, CanPay, Inv, Total;
    s := BothQueried();
    RegistryAgrees(s);
    BothMerged(s, Effects(150, 1, ""));
    ReachStep(s, ExecuteOk(1, Effects(150, 1, "")));
    s := Apply(s, ExecuteOk(1, Effects(150, 1, "")));
    var p := Apply(Apply(s, ReleaseErr(1, true)), ReleaseCoins(1)).pool;
    assert [] + [D] == [D] && [D] + [D] == [D, D];
    assert p.available == [D, D];
    OneOfTwo(p);
  }

  lemma OneOfTwo(p: Registry)
    requires p.available == [D, D] && StatsPresent(p) && p.maintenanceLock == None
    ensures
      var (first, q) := Reserve(p, 60, 9, 1);
      var second := Reserve(q, 60, 9, 1).0;
      first.Reserved? && first.coins == [D] && second.Reserved? && second.coins == [D]
  {
    assert [D, D][1..] == [D] && [D][1..] == [] && [D, D][..1] == [D] && [D][..1] == [D];
    assert Taken([D], 0, MAX_GAS_PER_QUERY - 1) == 0 && Taken([], 0, MAX_GAS_PER_QUERY - 1) == 0;
    assert Total([D]) == 60;
  }

  /**
   * A reservation is claimed, and the reply is lost or its instance goes down: both coins are too small for a
   * refresh scan and belong to nobody.
   */
  lemma LostClaim() returns (s: Station)
    ensures Reachable(s) && {1, 2} <= s.stranded && s.ledger == map[1 := A, 2 := B] && forall p :: At(s, p) == {}
    ensures Selected(s.ledger, Threshold(s)) == {}
  {
    hide Reachable, CanRun, Run, Own;
    s := BothReserved();
    ReachStep(s, ReadyForExecution(1));
    s := Apply(s, ReadyForExecution(1));
    assert TaskIds(s.tasks[1]) == {1, 2} by {
      assert [1, 2][0] in [1, 2] && [1, 2][1] in [1, 2];
    }
    ReachStep(s, Abandon(1));
    s := Apply(s, Abandon(1));
  }

  // ---------------------------------------------------------------- a hidden split

  const C: GasCoin := GasCoin(200, 1, 0, "")
  const HIDDEN: Split := Split(50, [ObjectRef(2, 1, "")], ObjectRef(1, 1, ""))

  /** A first start has one coin to split. */
  lemma OneQueued(c: GasCoin) returns (s: Station)
    requires c.id == 1 && 198 < c.balance
    ensures Reachable(s) && s.target == 1 && s.ledger == map[1 := c] && s.used == {1}
    ensures s.tasks == map[0 := Splitting(MAX_INIT_DURATION, GAS, [c], [], map[])] && s.nextTask == 1 && s.clock == 0
    ensures s.pool == Fresh(1).pool.(initLock := Some(MAX_INIT_DURATION))
  {
    hide Reachable, CanRun, Run, Own, Lists, Selected;
    ReachFresh(1);
    s := Fresh(1);
    ReachStep(s, Deposit(c));
    s := Apply(s, Deposit(c));
    ReachStep(s, Boot);
    s := Apply(s, Boot);
    ReachStep(s, StartRun(Some(0)));
    s := Apply(s, StartRun(Some(0)));
    OneListed(c);
    var st := Scan(0, GAS, [c]);
    HeldNothing(s);
    ReachStep(s, st);
    s := Apply(s, st);
  }

  lemma HeldNothing(s: Station)
    requires s.pool.available == [] && s.pool.reservations == map[]
    requires s.tasks == map[0 := Locked(MAX_INIT_DURATION, true)]
    ensures NothingHeld(s)
  {
  }

  lemma OneListed(c: GasCoin)
    requires c.id == 1 && 198 < c.balance
    ensures Lists([c], map[1 := c], Selected(map[1 := c], 0)) && KeepLimit(GAS, 1) == 198
    ensures Large([c], 198) == [c] && Small([c], 198) == []
  {
    assert c in [c] && [c][1..] == [];
    assert IdSet([c]) == {1} && Selected(map[1 := c], 0) == {1};
  }

  /**
   * The split charges 50 and makes a coin of 2, but the reply is an error. The new coin is owned, ordinary and
   * nobody's; the remainder of 148 can never pay the budget of 196 that the run keeps asking for.
   */
  lemma HiddenSplit() returns (s: Station)
    ensures Reachable(s) && NeverPays(s, 0, 1)
    ensures 2 in s.stranded && 2 in s.ledger && s.ledger[2].balance < Threshold(s) && forall p :: 2 !in At(s, p)
  {
    hide Reachable, CanRun, Run, Own, Post, IdSet, DoHide, NeverPays, Inv, NewBalance, At;
    var q := OneQueued(C);
    ReachableInv(q);
    OneSplit(q);
    ReachStep(q, SplitErr(0, 0, Some(HIDDEN)));
    s := Apply(q, SplitErr(0, 0, Some(HIDDEN)));
    HiddenSplitStalls(q, 0, 0, HIDDEN);
    HiddenSplitStrands(q, 0, 0, HIDDEN);
    assert HIDDEN.created[0].id == 2;
    CreatedOnLedger(q, 0, 0, HIDDEN, 0);
  }

  lemma OneSplit(s: Station)
    requires s.target == 1 && s.used == {1} && s.ledger == map[1 := C]
    requires s.tasks == map[0 := Splitting(MAX_INIT_DURATION, GAS, [C], [], map[])]
    ensures CanSplit(s, 0, 0) && CountOf(s, 0, 0) == 2 && SplitOk(s, 0, 0, HIDDEN)
    ensures NewBalance(200, GAS * 2, 2) == 2 && (200 - GAS * 2) % 2 == 0
    ensures DoHide(s, 0, 0, HIDDEN).target == 1
  {
  }
}
