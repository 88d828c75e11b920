/** Where all the money is: every place's own records add up to what was deposited and not spent. */
module StationValue {
  import opened Coins
  import opened SplitMath
  import opened Pool
  import opened Ledger
  import opened Station
  import opened StationInvariant
  import opened StationSteps
  import opened StationTheorems

  // ---------------------------------------------------------------- parts of a ledger

  ghost function Only(l: Ledger, ids: set<ObjectId>): Ledger {
    map id | id in l && id in ids :: l[id]
  }

  lemma WorthSplit(l: Ledger, ids: set<ObjectId>)
    ensures Worth(l) == Worth(Only(l, ids)) + Worth(l - ids)
  {
    hide SumValues;
    var m := Balances(l);
    SumSplit(m, ids);
    assert Balances(Only(l, ids)) == Kept(m, ids);
    assert Balances(l - ids) == m - ids;
  }

  lemma WorthUnion(l: Ledger, a: set<ObjectId>, b: set<ObjectId>)
    requires a !! b
    ensures Worth(Only(l, a + b)) == Worth(Only(l, a)) + Worth(Only(l, b))
  {
    hide Worth;
    WorthSplit(Only(l, a + b), a);
    assert Only(Only(l, a + b), a) == Only(l, a);
    assert Only(l, a + b) - a == Only(l, b);
  }

  ghost function Union(groups: map<nat, set<ObjectId>>): set<ObjectId> {
    set r, id | r in groups && id in groups[r] :: id
  }

  ghost function WorthOf(l: Ledger, groups: map<nat, set<ObjectId>>): map<nat, nat> {
    map r | r in groups :: Worth(Only(l, groups[r]))
  }

  lemma UnionRemove(groups: map<nat, set<ObjectId>>, r: nat)
    requires r in groups
    requires forall p, q :: p in groups && q in groups && p != q ==> groups[p] !! groups[q]
    ensures Union(groups) == groups[r] + Union(groups - {r})
    ensures groups[r] !! Union(groups - {r})
  {
    forall id | id in Union(groups) && id !in groups[r] ensures id in Union(groups - {r}) {
      var q :| q in groups && id in groups[q];
      assert q in groups - {r} && id in (groups - {r})[q];
    }
    forall id | id in Union(groups - {r}) ensures id in Union(groups) && id !in groups[r] {
      var q :| q in groups - {r} && id in (groups - {r})[q];
      assert q in groups && groups[r] !! groups[q];
    }
    assert groups[r] <= Union(groups);
  }

  lemma {:induction false} GroupsAddUp(l: Ledger, groups: map<nat, set<ObjectId>>)
    requires forall r, q :: r in groups && q in groups && r != q ==> groups[r] !! groups[q]
    ensures Worth(Only(l, Union(groups))) == SumValues(WorthOf(l, groups))
    decreases |groups|
  {
    hide Worth, SumValues, Only, Union;
    var values := WorthOf(l, groups);
    if groups == map[] {
      NoGroups(l, groups);
      assert values == map[];
      NothingWorth();
    } else {
      var r :| r in groups;
      GroupsAddUp(l, groups - {r});
      SumRemove(values, r);
      assert values - {r} == WorthOf(l, groups - {r});
      UnionRemove(groups, r);
      WorthUnion(l, groups[r], Union(groups - {r}));
    }
  }

  lemma NoGroups(l: Ledger, groups: map<nat, set<ObjectId>>)
    requires groups == map[]
    ensures Only(l, Union(groups)) == map[]
  {
    assert Union(groups) == {};
  }

  lemma NothingWorth()
    ensures Worth(map[]) == 0 && SumValues(map[]) == 0
  {
    assert Balances(map[]) == map[];
  }

  lemma {:induction false} SumOfListed(l: Ledger, coins: seq<GasCoin>)
    requires forall c :: c in coins ==> c.id in l && l[c.id] == c
    requires forall id :: id in IdsOf(coins) ==> id in l
    ensures SumOf(l, IdsOf(coins)) == Total(coins)
  {
    if coins != [] {
      var ids := IdsOf(coins);
      assert ids[1..] == IdsOf(coins[1..]);
      assert coins[0] in coins;
      SumOfListed(l, coins[1..]);
    }
  }

  lemma WorthOfIds(l: Ledger, ids: seq<ObjectId>)
    requires DistinctIds(ids) && forall id :: id in ids ==> id in l
    ensures Worth(Only(l, SetOf(ids))) == SumOf(l, ids)
  {
    hide Worth;
    WorthSplit(l, SetOf(ids));
    WorthRemoveAll(l, ids);
  }

  lemma WorthOfCoins(l: Ledger, coins: seq<GasCoin>)
    requires Distinct(coins) && forall c :: c in coins ==> c.id in l && l[c.id] == c
    ensures Worth(Only(l, IdSet(coins))) == Total(coins)
  {
    hide Worth, SumOf;
    SetOfIds(coins);
    forall id | id in IdsOf(coins) ensures id in l {
      var i :| 0 <= i < |coins| && IdsOf(coins)[i] == id;
      assert coins[i] in coins;
    }
    WorthOfIds(l, IdsOf(coins));
    SumOfListed(l, coins);
  }

  // ---------------------------------------------------------------- what each holder has on record

  ghost function Promises(s: Station): map<ReservationId, nat> {
    map r | r in s.pool.reservations :: if r in s.promised then Total(s.promised[r].coins) else 0
  }

  /** What was promised to the holders of live reservations. */
  ghost function Lent(s: Station): nat {
    SumValues(Promises(s))
  }

  /** A task's own record where it has one, and otherwise the present balances of the ids it works on. */
  ghost function Record(x: Task, l: Ledger): nat {
    match x
    case Queried(_, total) => total
    case Settled(coins) => Total(coins)
    case Splitting(_, _, work, done, _) => Total(work) + Total(done)
    case Booted => 0
    case Locked(_, _) => 0
    case Claimed(_) => Worth(Only(l, TaskIds(x)))
    case Failed(_) => Worth(Only(l, TaskIds(x)))
    case Expired(_) => Worth(Only(l, TaskIds(x)))
  }

  ghost function Records(s: Station): map<nat, nat> {
    map k | k in s.tasks :: Record(s.tasks[k], s.ledger)
  }

  /** What the tasks in flight have on record. */
  ghost function InFlight(s: Station): nat {
    SumValues(Records(s))
  }

  /** The ids each task works on. */
  ghost function TaskGroups(s: Station): (g: map<nat, set<ObjectId>>) {
    map k | k in s.tasks :: TaskIds(s.tasks[k])
  }

  /** The ids each live reservation holds. */
  ghost function ResvGroups(s: Station): (g: map<nat, set<ObjectId>>) {
    map r | r in s.pool.reservations :: SetOf(s.pool.reservations[r])
  }

  lemma RecordIsWorth(x: Task, l: Ledger, target: nat)
    requires TaskOk(x, l, target)
    ensures Record(x, l) == Worth(Only(l, TaskIds(x)))
  {
    hide Worth, Total;
    match x
    case Queried(ids, total) =>
      forall id | id in ids ensures id in l {
        assert IdLive(l, id, THRESHOLD_FACTOR * target);
      }
      WorthOfIds(l, ids);
    case Settled(coins) => WorthOfCoins(l, coins);
    case Splitting(_, _, work, done, _) =>
      IdSetConcat(work, done);
      TotalConcat(work, done);
      WorthOfCoins(l, work + done);
    case Booted =>
      NothingWorth();
      assert Only(l, {}) == map[];
    case Locked(_, _) =>
      NothingWorth();
      assert Only(l, {}) == map[];
    case _ =>
  }

  lemma TasksAddUp(s: Station)
    requires Inv(s)
    ensures InFlight(s) == Worth(Only(s.ledger, Union(TaskGroups(s))))
  {
    hide Worth, SumValues, Only, Union, TaskIds, TaskOk, PoolOk, PromisesOk, ClaimsOk, UsedOk, CustodyOk, ValueOk,
      OwnerOk, Record;
    var groups := TaskGroups(s);
    forall j, k | j in groups && k in groups && j != k ensures groups[j] !! groups[k] {
      PlacesApart(s, Busy(j), Busy(k));
    }
    GroupsAddUp(s.ledger, groups);
    forall k | k in s.tasks ensures Record(s.tasks[k], s.ledger) == Worth(Only(s.ledger, groups[k])) {
      RecordIsWorth(s.tasks[k], s.ledger, s.target);
    }
    assert Records(s) == WorthOf(s.ledger, groups);
  }

  lemma ReservationsAddUp(s: Station)
    requires Inv(s)
    ensures Lent(s) == Worth(Only(s.ledger, Union(ResvGroups(s))))
  {
    hide Worth, SumValues, SetOf, Only, Union, TaskOk, PoolOk, ClaimsOk, TasksOk, UsedOk, CustodyOk, ValueOk, OwnerOk,
      Total, Distinct;
    var groups := ResvGroups(s);
    forall j, k | j in groups && k in groups && j != k ensures groups[j] !! groups[k] {
      PlacesApart(s, Resv(j), Resv(k));
    }
    GroupsAddUp(s.ledger, groups);
    forall r | r in s.pool.reservations
      ensures r in s.promised && Total(s.promised[r].coins) == Worth(Only(s.ledger, groups[r]))
    {
      assert PromiseOk(s, r);
      SetOfIds(s.promised[r].coins);
      WorthOfCoins(s.ledger, s.promised[r].coins);
    }
    assert Promises(s) == WorthOf(s.ledger, groups);
  }

  /** The three kinds of places are everything that is held, and they do not overlap. */
  lemma HeldInThree(s: Station)
    requires OwnerOk(s)
    ensures
      var listed := IdSet(s.pool.available);
      var lent := Union(ResvGroups(s));
      var busy := Union(TaskGroups(s));
      && s.owner.Keys == listed + lent + busy && listed !! lent && (listed + lent) !! busy
  {
    hide TaskIds, SetOf, IdSet;
    var lent := Union(ResvGroups(s));
    var busy := Union(TaskGroups(s));
    forall id | id in s.owner ensures id in IdSet(s.pool.available) + lent + busy {
      assert Holds(s, s.owner[id], id);
      match s.owner[id]
      case Avail =>
      case Resv(r) => assert r in ResvGroups(s) && id in ResvGroups(s)[r];
      case Busy(k) => assert k in TaskGroups(s) && id in TaskGroups(s)[k];
    }
    forall id | id in IdSet(s.pool.available) ensures id in s.owner && s.owner[id] == Avail {
      assert Holds(s, Avail, id);
    }
    forall id | id in lent ensures id in s.owner && s.owner[id].Resv? {
      var r :| r in ResvGroups(s) && id in ResvGroups(s)[r];
      assert Holds(s, Resv(r), id);
    }
    forall id | id in busy ensures id in s.owner && s.owner[id].Busy? {
      var k :| k in TaskGroups(s) && id in TaskGroups(s)[k];
      assert Holds(s, Busy(k), id);
    }
  }

  /**
   * Conservation over whole runs, holder by holder: the cached total, what live reservations promise, what
   * every executor, unlocker and run has on record, and the coins nobody holds make up what was ever
   * deposited less all gas ever charged. A coin nobody holds is oversized, unregistered or stranded.
   */
  lemma ValueIsConserved(s: Station)
    requires Reachable(s)
    ensures s.pool.totalBalance.Some?
    ensures s.pool.totalBalance.value + Lent(s) + InFlight(s) + Worth(s.ledger - s.owner.Keys) == s.deposited - s.spent
    ensures forall id :: id in s.ledger - s.owner.Keys ==>
      (forall p :: id !in At(s, p)) && (Threshold(s) < s.ledger[id].balance || id in s.unregistered || id in s.stranded)
  {
    hide Reachable, Worth, Lent, InFlight, TaskOk, PromisesOk, ClaimsOk, TasksOk, UsedOk, Union, OwnerOk, IdSet, At;
    ReachableInv(s);
    HeldInThree(s);
    var lent := Union(ResvGroups(s));
    var busy := Union(TaskGroups(s));
    WorthSplit(s.ledger, s.owner.Keys);
    WorthUnion(s.ledger, IdSet(s.pool.available) + lent, busy);
    WorthUnion(s.ledger, IdSet(s.pool.available), lent);
    WorthOfCoins(s.ledger, s.pool.available);
    ReservationsAddUp(s);
    TasksAddUp(s);
    forall id | id in s.ledger - s.owner.Keys ensures forall p :: id !in At(s, p) {
      HeldByNobody(s, id);
    }
  }

  lemma HeldByNobody(s: Station, id: ObjectId)
    requires OwnerOk(s) && id !in s.owner
    ensures forall p :: id !in At(s, p)
  {
    hide At;
    forall p ensures id !in At(s, p) {
      assert Holds(s, p, id) ==> id in s.owner;
    }
  }
}
