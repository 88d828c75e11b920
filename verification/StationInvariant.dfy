/** What every reachable state of the station keeps, part by part. */
module StationInvariant {
  import opened Coins
  import opened SplitMath
  import opened Pool
  import opened Ledger
  import opened Station

  // ---------------------------------------------------------------- the parts

  /** The recorded coins are the ledger's current objects, and ordinary in size. */
  ghost predicate CoinsLive(l: Ledger, coins: seq<GasCoin>, cap: nat) {
    && Distinct(coins)
    && forall c :: c in coins ==> c.id in l && l[c.id] == c && c.balance <= cap
  }

  ghost predicate IdLive(l: Ledger, id: ObjectId, cap: nat) {
    id in l && l[id].balance <= cap
  }

  ghost predicate IdsLive(l: Ledger, ids: seq<ObjectId>, cap: nat) {
    && ids != [] && DistinctIds(ids)
    && forall id :: id in ids ==> IdLive(l, id, cap)
  }

  /** Only the first of the payment coins is left: the others were merged into it. */
  ghost predicate Merged(l: Ledger, ids: seq<ObjectId>) {
    && ids != [] && DistinctIds(ids) && ids[0] in l
    && forall id :: id in ids && id in l ==> id == ids[0]
  }

  ghost predicate TaskOk(x: Task, l: Ledger, target: nat) {
    var cap := THRESHOLD_FACTOR * target;
    match x
    case Claimed(ids) => IdsLive(l, ids, cap)
    case Queried(ids, total) => IdsLive(l, ids, cap) && total == SumOf(l, ids)
    case Failed(ids) => IdsLive(l, ids, cap) || Merged(l, ids)
    case Expired(lapsed) => forall id :: id in lapsed ==> IdLive(l, id, cap)
    case Settled(coins) => CoinsLive(l, coins, cap)
    case Booted => true
    case Locked(_, _) => true
    case Splitting(_, g, work, done, counts) =>
      && g < target * 99 && counts.Keys <= IdSet(work)
      && Distinct(work + done)
      && (forall c :: c in work ==> c.id in l && l[c.id] == c && (c.id !in counts ==> KeepLimit(g, target) < c.balance))
      && (forall c :: c in done ==> c.id in l && l[c.id] == c && c.balance <= KeepLimit(g, target))
  }

  ghost predicate PoolOk(s: Station) {
    && CoinsLive(s.ledger, s.pool.available, Threshold(s))
    && StatsPresent(s.pool) && StatsAgree(s.pool)
  }

  /** A live reservation still holds exactly the coins its caller was given, at their current versions. */
  ghost predicate PromiseOk(s: Station, id: ReservationId) {
    && id in s.promised && id in s.pool.expirations
    && id in s.pool.reservations && s.pool.reservations[id] == IdsOf(s.promised[id].coins)
    && CoinsLive(s.ledger, s.promised[id].coins, Threshold(s))
    && 0 < s.promised[id].budget <= Total(s.promised[id].coins)
  }

  ghost predicate PromisesOk(s: Station) {
    forall id :: id in s.pool.reservations ==> PromiseOk(s, id)
  }

  /** Every id ever issued is either live or was claimed, by one claimant. */
  ghost predicate ClaimsOk(s: Station) {
    && s.claims.Keys !! s.pool.reservations.Keys
    && forall id :: id in s.claims || id in s.pool.reservations <==> 1 <= id <= s.pool.lastReservation
  }

  ghost predicate TasksOk(s: Station) {
    forall k :: k in s.tasks ==> k < s.nextTask && TaskOk(s.tasks[k], s.ledger, s.target)
  }

  ghost predicate Holds(s: Station, p: Place, id: ObjectId) {
    id in At(s, p)
  }

  /** The history variable `owner` is the inverse of `At`: a coin id has at most one place. */
  ghost predicate OwnerOk(s: Station) {
    && (forall p, id :: Holds(s, p, id) ==> id in s.owner && s.owner[id] == p)
    && (forall id :: id in s.owner ==> Holds(s, s.owner[id], id))
  }

  ghost predicate UsedOk(s: Station) {
    && s.owner.Keys <= s.used
    && s.ledger.Keys <= s.used
    && s.unregistered <= s.used && s.stranded <= s.ledger.Keys
    && forall id :: id in s.ledger ==> s.ledger[id].id == id
  }

  /** A coin nobody holds is oversized, or it was never registered, or an error has left it to nobody. */
  ghost predicate CustodyOk(s: Station) {
    && (s.unregistered + s.stranded) !! s.owner.Keys
    && forall id :: id in s.ledger ==>
         id in s.owner || Threshold(s) < s.ledger[id].balance || id in s.unregistered || id in s.stranded
  }

  ghost predicate ValueOk(s: Station) {
    Worth(s.ledger) + s.spent == s.deposited
  }

  ghost predicate Inv(s: Station) {
    && PoolOk(s) && PromisesOk(s) && ClaimsOk(s) && TasksOk(s) && OwnerOk(s)
    && UsedOk(s) && CustodyOk(s) && ValueOk(s)
  }

  // ---------------------------------------------------------------- frames

  ghost predicate SameAt(l: Ledger, m: Ledger, id: ObjectId) {
    (id in l <==> id in m) && (id in l ==> l[id] == m[id])
  }

  lemma TaskFrame(x: Task, l: Ledger, m: Ledger, target: nat)
    requires TaskOk(x, l, target)
    requires forall id :: id in TaskIds(x) ==> SameAt(l, m, id)
    ensures TaskOk(x, m, target)
  {
    match x
    case Claimed(ids) => assert forall id :: id in ids ==> id in TaskIds(x);
    case Queried(ids, total) =>
      assert forall id :: id in ids ==> id in TaskIds(x);
      assert forall id :: id in ids ==> IdLive(l, id, THRESHOLD_FACTOR * target);
      SumOfSame(l, m, ids);
    case Failed(ids) =>
      assert forall id :: id in ids ==> id in TaskIds(x);
      assert ids[0] in ids;
    case Expired(lapsed) =>
      forall id | id in lapsed ensures IdLive(m, id, THRESHOLD_FACTOR * target) {
        assert IdLive(l, id, THRESHOLD_FACTOR * target) && SameAt(l, m, id);
      }
    case Settled(coins) =>
      assert forall c :: c in coins ==> c.id in TaskIds(x);
    case Booted =>
    case Locked(_, _) =>
    case Splitting(_, _, work, done, _) =>
      assert forall c :: c in work || c in done ==> c.id in TaskIds(x);
  }

  lemma CoinsFrame(l: Ledger, m: Ledger, coins: seq<GasCoin>, cap: nat)
    requires CoinsLive(l, coins, cap) && forall id :: id in IdSet(coins) ==> SameAt(l, m, id)
    ensures CoinsLive(m, coins, cap)
  {
    forall c | c in coins ensures SameAt(l, m, c.id) {
      assert c.id in IdSet(coins);
    }
  }

  lemma SetOfIds(coins: seq<GasCoin>)
    ensures SetOf(IdsOf(coins)) == IdSet(coins)
    ensures Distinct(coins) <==> DistinctIds(IdsOf(coins))
  {
    var ids := IdsOf(coins);
    forall id | id in SetOf(ids) ensures id in IdSet(coins) {
      var i :| 0 <= i < |ids| && ids[i] == id;
      assert coins[i] in coins;
    }
    forall id | id in IdSet(coins) ensures id in SetOf(ids) {
      var c :| c in coins && c.id == id;
      var i :| 0 <= i < |coins| && coins[i] == c;
      assert ids[i] == id;
    }
    if DistinctIds(ids) {
      forall i, j | 0 <= i < j < |coins| ensures coins[i].id != coins[j].id {
        assert ids[i] != ids[j];
      }
    }
  }

  /** Everything a place other than `Busy(k)` holds is untouched when task `k` acts on the ledger. */
  ghost predicate OnlyOwn(s: Station, m: Ledger, k: nat) {
    forall id :: id in s.used && (id !in s.owner || s.owner[id] != Busy(k)) ==> SameAt(s.ledger, m, id)
  }

  lemma HeldElsewhere(s: Station, m: Ledger, k: nat, p: Place)
    requires OwnerOk(s) && UsedOk(s) && OnlyOwn(s, m, k) && p != Busy(k)
    ensures forall id :: id in At(s, p) ==> SameAt(s.ledger, m, id)
  {
    forall id | id in At(s, p) ensures SameAt(s.ledger, m, id) {
      assert Holds(s, p, id);
    }
  }

  /**
   * One task acts on the ledger, only on the coins it holds and on new ones: everything recorded
   * elsewhere stays true.
   */
  lemma LedgerFrame(s: Station, m: Ledger, k: nat)
    requires OwnerOk(s) && UsedOk(s) && OnlyOwn(s, m, k)
    ensures PoolOk(s) ==> CoinsLive(m, s.pool.available, Threshold(s))
    ensures PromisesOk(s) ==>
      forall id :: id in s.pool.reservations ==> id in s.promised && CoinsLive(m, s.promised[id].coins, Threshold(s))
    ensures TasksOk(s) ==> forall j :: j in s.tasks && j != k ==> TaskOk(s.tasks[j], m, s.target)
  {
    hide TaskOk;
    if PoolOk(s) {
      HeldElsewhere(s, m, k, Avail);
      CoinsFrame(s.ledger, m, s.pool.available, Threshold(s));
    }
    if PromisesOk(s) {
      forall r | r in s.pool.reservations ensures r in s.promised && CoinsLive(m, s.promised[r].coins, Threshold(s)) {
        assert PromiseOk(s, r);
        SetOfIds(s.promised[r].coins);
        HeldElsewhere(s, m, k, Resv(r));
        CoinsFrame(s.ledger, m, s.promised[r].coins, Threshold(s));
      }
    }
    if TasksOk(s) {
      forall j | j in s.tasks && j != k ensures TaskOk(s.tasks[j], m, s.target) {
        HeldElsewhere(s, m, k, Busy(j));
        TaskFrame(s.tasks[j], s.ledger, m, s.target);
      }
    }
  }

  /** With the ledger untouched, a promise only depends on the reservation and its queue entry. */
  lemma PromisesFrame(s: Station, t: Station)
    requires PromisesOk(s)
    requires t.target == s.target && t.ledger == s.ledger
    requires forall id :: id in t.pool.reservations ==>
      && id in s.pool.reservations && t.pool.reservations[id] == s.pool.reservations[id]
      && (id in s.pool.expirations ==> id in t.pool.expirations)
      && (id in s.promised ==> id in t.promised && t.promised[id] == s.promised[id])
    ensures PromisesOk(t)
  {
    forall id | id in t.pool.reservations ensures PromiseOk(t, id) {
      assert PromiseOk(s, id);
    }
  }
}
