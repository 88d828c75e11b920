/** Every step keeps the invariant. */
module StationSteps {
  import opened Coins
  import opened SplitMath
  import opened Pool
  import opened Ledger
  import opened Station
  import opened StationInvariant

  // ---------------------------------------------------------------- moving ids between places

  lemma OwnerTransfer(s: Station, t: Station, src: Place, dest: Place, ids: set<ObjectId>)
    requires OwnerOk(s) && src != dest && ids <= At(s, src)
    requires At(t, src) == At(s, src) - ids && At(t, dest) == At(s, dest) + ids
    requires forall p :: p != src && p != dest ==> At(t, p) == At(s, p)
    requires t.owner == Own(s.owner, ids, dest)
    ensures OwnerOk(t) && t.owner.Keys == s.owner.Keys
  {
    forall id | id in ids ensures id in s.owner && s.owner[id] == src {
      assert Holds(s, src, id);
    }
    forall p, id | Holds(t, p, id) ensures id in t.owner && t.owner[id] == p {
      if id in ids {
        if p != dest {
          assert Holds(s, p, id);
        }
      } else {
        assert Holds(s, p, id);
      }
    }
    forall id | id in t.owner ensures Holds(t, t.owner[id], id) {
      if id !in ids {
        assert Holds(s, s.owner[id], id);
      }
    }
  }

  /** New ids enter one place. */
  lemma OwnerGain(s: Station, t: Station, dest: Place, ids: set<ObjectId>)
    requires OwnerOk(s) && (forall id :: id in ids && id in s.owner ==> s.owner[id] == dest)
    requires At(t, dest) == At(s, dest) + ids
    requires forall p :: p != dest ==> At(t, p) == At(s, p)
    requires t.owner == Own(s.owner, ids, dest)
    ensures OwnerOk(t) && t.owner.Keys == s.owner.Keys + ids
  {
    forall p, id | Holds(t, p, id) ensures id in t.owner && t.owner[id] == p {
      if !(id in ids && p == dest) {
        assert Holds(s, p, id);
      }
    }
    forall id | id in t.owner ensures Holds(t, t.owner[id], id) {
      if id !in ids {
        assert Holds(s, s.owner[id], id);
      }
    }
  }

  /** A place keeps only some of its ids. */
  lemma OwnerShrink(s: Station, t: Station, p0: Place, kept: set<ObjectId>)
    requires OwnerOk(s) && kept <= At(s, p0) && At(t, p0) == kept
    requires forall p :: p != p0 ==> At(t, p) == At(s, p)
    requires t.owner == Own(s.owner - At(s, p0), kept, p0)
    ensures OwnerOk(t) && t.owner.Keys == s.owner.Keys - At(s, p0) + kept
  {
    forall p, id | Holds(t, p, id) ensures id in t.owner && t.owner[id] == p {
      assert Holds(s, p, id);
      if id in At(s, p0) {
        assert Holds(s, p0, id);
      }
    }
    forall id | id in t.owner ensures Holds(t, t.owner[id], id) {
      if id !in kept {
        assert Holds(s, s.owner[id], id);
      }
    }
  }

  lemma OwnerSame(s: Station, t: Station)
    requires OwnerOk(s) && t.owner == s.owner && forall p :: At(t, p) == At(s, p)
    ensures OwnerOk(t)
  {
    forall p, id | Holds(t, p, id) ensures id in t.owner && t.owner[id] == p {
      assert Holds(s, p, id);
    }
    forall id | id in t.owner ensures Holds(t, t.owner[id], id) {
      assert Holds(s, s.owner[id], id);
    }
  }

  // ---------------------------------------------------------------- starting, changing and ending tasks

  lemma TaskStarts(s: Station, t: Station, x: Task)
    requires TasksOk(s) && TaskOk(x, t.ledger, t.target)
    requires t.ledger == s.ledger && t.target == s.target
    requires t.tasks == s.tasks[s.nextTask := x] && t.nextTask == s.nextTask + 1
    ensures TasksOk(t) && s.nextTask !in s.tasks
  {
    hide TaskOk;
  }

  lemma TasksSame(s: Station, t: Station)
    requires TasksOk(s) && t.tasks == s.tasks && t.ledger == s.ledger && t.target == s.target
    requires t.nextTask == s.nextTask
    ensures TasksOk(t)
  {
    hide TaskOk;
  }

  lemma TaskChanges(s: Station, t: Station, k: nat, x: Task)
    requires TasksOk(s) && k in s.tasks && TaskOk(x, t.ledger, t.target)
    requires t.target == s.target && t.nextTask == s.nextTask && t.tasks == s.tasks[k := x]
    requires forall j :: j in s.tasks && j != k ==> TaskOk(s.tasks[j], t.ledger, s.target)
    ensures TasksOk(t)
  {
    hide TaskOk;
  }

  lemma TaskEnds(s: Station, t: Station, k: nat)
    requires TasksOk(s) && k in s.tasks
    requires t.target == s.target && t.nextTask == s.nextTask && t.tasks == s.tasks - {k}
    requires forall j :: j in s.tasks && j != k ==> TaskOk(s.tasks[j], t.ledger, s.target)
    ensures TasksOk(t)
  {
    hide TaskOk;
  }

  // ---------------------------------------------------------------- reserving

  lemma IdsLiveOfCoins(l: Ledger, coins: seq<GasCoin>, cap: nat)
    requires CoinsLive(l, coins, cap) && coins != []
    ensures IdsLive(l, IdsOf(coins), cap)
  {
    SetOfIds(coins);
    forall id | id in IdsOf(coins) ensures IdLive(l, id, cap) {
      var i :| 0 <= i < |coins| && IdsOf(coins)[i] == id;
      assert coins[i] in coins;
    }
  }

  lemma IdSetOfParts(a: seq<GasCoin>, k: nat)
    requires k <= |a| && Distinct(a)
    ensures IdSet(a[..k]) <= IdSet(a) && IdSet(a[k..]) == IdSet(a) - IdSet(a[..k])
    ensures Distinct(a[..k]) && Distinct(a[k..])
  {
    assert a == a[..k] + a[k..];
    IdSetConcat(a[..k], a[k..]);
    DistinctConcat(a[..k], a[k..]);
  }

  /** A successful reservation, as a change of state. */
  lemma ReserveMoves(s: Station, budget: nat, expiration: nat, now: nat)
    requires PoolOk(s) && Reserve(s.pool, budget, expiration, now).0.Reserved?
    ensures
      var t := DoReserve(s, budget, expiration, now);
      var coins := Reserve(s.pool, budget, expiration, now).0.coins;
      var id := s.pool.lastReservation + 1;
      && CoinsLive(s.ledger, coins, Threshold(s)) && budget <= Total(coins)
      && IdSet(coins) <= IdSet(s.pool.available)
      && IdSet(t.pool.available) == IdSet(s.pool.available) - IdSet(coins)
      && CoinsLive(s.ledger, t.pool.available, Threshold(s))
      && t.pool.reservations == s.pool.reservations[id := IdsOf(coins)]
      && t.pool.expirations == s.pool.expirations[id := expiration]
      && t.pool.lastReservation == id && t.pool.initLock == s.pool.initLock
      && StatsPresent(t.pool) && StatsAgree(t.pool)
      && t == s.(pool := t.pool, owner := Own(s.owner, IdSet(coins), Resv(id)),
                 promised := s.promised[id := Promise(coins, budget)])
  {
    ReserveContract(s.pool, budget, expiration, now);
    ReserveKeepsStats(s.pool, budget, expiration, now);
    var coins := Reserve(s.pool, budget, expiration, now).0.coins;
    IdSetOfParts(s.pool.available, |coins|);
    var rest := s.pool.available[|coins|..];
    assert coins == s.pool.available[..|coins|];
    assert forall c :: c in rest ==> c in s.pool.available;
    assert forall c :: c in coins ==> c in s.pool.available;
  }

  lemma KeepReserve(s: Station, budget: nat, expiration: nat, now: nat)
    requires Inv(s) && 0 < budget
    ensures Inv(DoReserve(s, budget, expiration, now))
  {
    ReserveContract(s.pool, budget, expiration, now);
    if Reserve(s.pool, budget, expiration, now).0.Reserved? {
      ReserveMoves(s, budget, expiration, now);
      KeepReserved(s, DoReserve(s, budget, expiration, now), Reserve(s.pool, budget, expiration, now).0.coins, budget);
    } else {
      assert DoReserve(s, budget, expiration, now) == s;
    }
  }

  /** The same change, with the script's arithmetic behind it. */
  lemma KeepReserved(s: Station, t: Station, coins: seq<GasCoin>, budget: nat)
    requires Inv(s) && 0 < budget <= Total(coins)
    requires CoinsLive(s.ledger, coins, Threshold(s)) && IdSet(coins) <= IdSet(s.pool.available)
    requires IdSet(t.pool.available) == IdSet(s.pool.available) - IdSet(coins)
    requires CoinsLive(s.ledger, t.pool.available, Threshold(s))
    requires var id := s.pool.lastReservation + 1;
      && t.pool.reservations == s.pool.reservations[id := IdsOf(coins)]
      && id in t.pool.expirations && s.pool.expirations.Keys <= t.pool.expirations.Keys
      && t.pool.lastReservation == id && t.pool.initLock == s.pool.initLock
      && StatsPresent(t.pool) && StatsAgree(t.pool)
      && t == s.(pool := t.pool, owner := Own(s.owner, IdSet(coins), Resv(id)),
                 promised := s.promised[id := Promise(coins, budget)])
    ensures Inv(t)
  {
    hide TaskOk, Worth, Total, IdSet, CoinsLive, OwnerOk, At;
    var id := s.pool.lastReservation + 1;
    assert id !in s.pool.reservations && id !in s.claims;
    assert PromiseOk(t, id);
    forall r | r in t.pool.reservations ensures PromiseOk(t, r) {
      if r != id { assert PromiseOk(s, r); }
    }
    ReservedOwner(s, t, coins, id);
  }

  lemma ReservedOwner(s: Station, t: Station, coins: seq<GasCoin>, id: ReservationId)
    requires OwnerOk(s) && IdSet(coins) <= IdSet(s.pool.available) && id !in s.pool.reservations
    requires IdSet(t.pool.available) == IdSet(s.pool.available) - IdSet(coins)
    requires t.pool.reservations == s.pool.reservations[id := IdsOf(coins)] && t.tasks == s.tasks
    requires t.owner == Own(s.owner, IdSet(coins), Resv(id))
    ensures OwnerOk(t) && t.owner.Keys == s.owner.Keys
  {
    hide IdSet, TaskIds, OwnerOk;
    SetOfIds(coins);
    OwnerTransfer(s, t, Avail, Resv(id), IdSet(coins));
  }

  // ---------------------------------------------------------------- claiming

  /** A reservation leaves the registry and its ids go to a new task. */
  lemma KeepReady(s: Station, id: ReservationId)
    requires Inv(s) && id in s.pool.reservations
    ensures Inv(DoReady(s, id))
  {
    hide TaskIds, Worth, IdSet, OwnerOk, At, TasksOk, IdsLive, ClaimsOk;
    ReadyClaims(s, id);
    var t := DoReady(s, id);
    assert PromiseOk(s, id);
    IdsLiveOfCoins(s.ledger, s.promised[id].coins, Threshold(s));
    TaskStarts(s, t, Claimed(s.pool.reservations[id]));
    forall r | r in t.pool.reservations ensures PromiseOk(t, r) {
      assert PromiseOk(s, r);
    }
    ReadyOwner(s, t, id);
  }

  lemma ReadyClaims(s: Station, id: ReservationId)
    requires ClaimsOk(s) && id in s.pool.reservations
    ensures ClaimsOk(DoReady(s, id))
  {
    var t := DoReady(s, id);
    forall r ensures (r in t.claims || r in t.pool.reservations) <==> (r in s.claims || r in s.pool.reservations) {
    }
  }

  lemma ReadyOwner(s: Station, t: Station, id: ReservationId)
    requires OwnerOk(s) && s.nextTask !in s.tasks && id in s.pool.reservations && t == DoReady(s, id)
    ensures OwnerOk(t) && t.owner.Keys == s.owner.Keys
  {
    hide IdSet, OwnerOk;
    OwnerTransfer(s, t, Resv(id), Busy(s.nextTask), At(s, Resv(id)));
  }

  lemma KeepExpire(s: Station, now: nat)
    requires Inv(s)
    ensures Inv(DoExpire(s, now))
  {
    if Pool.Claimed(s.pool, now) != {} {
      hide TaskIds, Worth, Total, IdSet, OwnerOk, At, IdLive, TasksOk, ClaimsOk, PromisesOk, ClaimedIds, Due;
      var t := DoExpire(s, now);
      ExpirePromises(s, now);
      ExpireClaims(s, now);
      ExpiredIdsLive(s, now);
      assert TaskOk(t.tasks[s.nextTask], t.ledger, t.target);
      TaskStarts(s, t, Expired(ClaimedIds(s.pool, now)));
      ExpireOwner(s, t, now);
    } else {
      hide TaskIds, Worth, Total, IdSet, OwnerOk, At, TasksOk, PromisesOk, Due;
      var t := DoExpire(s, now);
      ExpirePromises(s, now);
      TasksSame(s, t);
      NothingExpires(s, t, now);
    }
  }

  lemma ExpirePromises(s: Station, now: nat)
    requires PromisesOk(s)
    ensures PromisesOk(DoExpire(s, now))
  {
    var t := DoExpire(s, now);
    forall r | r in t.pool.reservations ensures PromiseOk(t, r) {
      assert PromiseOk(s, r);
      assert r !in Pool.Due(s.pool, now);
    }
  }

  lemma ExpireClaims(s: Station, now: nat)
    requires ClaimsOk(s)
    ensures ClaimsOk(DoExpire(s, now))
  {
    var t := DoExpire(s, now);
    forall id ensures (id in t.claims || id in t.pool.reservations) <==> (id in s.claims || id in s.pool.reservations) {
    }
  }

  lemma ExpiredIdsLive(s: Station, now: nat)
    requires PromisesOk(s)
    ensures forall id :: id in ClaimedIds(s.pool, now) ==> IdLive(s.ledger, id, Threshold(s))
  {
    forall id | id in ClaimedIds(s.pool, now) ensures IdLive(s.ledger, id, Threshold(s)) {
      var r :| r in Pool.Claimed(s.pool, now) && id in s.pool.reservations[r];
      assert PromiseOk(s, r);
      var coins := s.promised[r].coins;
      var i :| 0 <= i < |coins| && IdsOf(coins)[i] == id;
      assert coins[i] in coins;
    }
  }

  lemma NothingExpires(s: Station, t: Station, now: nat)
    requires OwnerOk(s) && t == DoExpire(s, now) && Pool.Claimed(s.pool, now) == {}
    ensures t.pool.reservations == s.pool.reservations && OwnerOk(t)
  {
    assert s.pool.reservations - {} == s.pool.reservations;
    OwnerSame(s, t);
  }

  lemma ExpireOwner(s: Station, t: Station, now: nat)
    requires OwnerOk(s) && s.nextTask !in s.tasks && t == DoExpire(s, now) && Pool.Claimed(s.pool, now) != {}
    ensures OwnerOk(t) && t.owner.Keys == s.owner.Keys
  {
    var due, ids, dest := Pool.Claimed(s.pool, now), ClaimedIds(s.pool, now), Busy(s.nextTask);
    forall id | id in ids ensures id in s.owner && s.owner[id].Resv? && s.owner[id].id in due {
      var r :| r in due && id in s.pool.reservations[r];
      assert Holds(s, Resv(r), id);
    }
    forall p, id | Holds(t, p, id) ensures id in t.owner && t.owner[id] == p {
      if p != dest {
        assert Holds(s, p, id);
      }
    }
    forall id | id in t.owner ensures Holds(t, t.owner[id], id) {
      if id !in ids {
        assert Holds(s, s.owner[id], id);
        assert s.owner[id].Resv? ==> s.owner[id].id !in due;
      }
    }
  }
  // ---------------------------------------------------------------- executing

  lemma KeepQuery(s: Station, k: nat)
    requires Inv(s) && Enabled(s, QueryTotal(k))
    ensures Inv(s.(tasks := s.tasks[k := Queried(s.tasks[k].ids, SumOf(s.ledger, s.tasks[k].ids))]))
  {
    hide TaskOk, Worth, Total, IdSet, OwnerOk, TasksOk, SumOf, PromisesOk;
    var x := Queried(s.tasks[k].ids, SumOf(s.ledger, s.tasks[k].ids));
    var t := s.(tasks := s.tasks[k := x]);
    QueriedFromClaimed(s, k);
    OtherTasks(s, k);
    TaskChanges(s, t, k, x);
    OwnerSame(s, t);
    PromisesFrame(s, t);
  }

  lemma QueriedFromClaimed(s: Station, k: nat)
    requires TasksOk(s) && Enabled(s, QueryTotal(k))
    ensures TaskOk(Queried(s.tasks[k].ids, SumOf(s.ledger, s.tasks[k].ids)), s.ledger, s.target)
  {
    assert TaskOk(s.tasks[k], s.ledger, s.target);
  }

  lemma QueriedFacts(s: Station, k: nat)
    requires TasksOk(s) && k in s.tasks && s.tasks[k].Queried?
    ensures var ids := s.tasks[k].ids;
      && IdsLive(s.ledger, ids, Threshold(s)) && s.tasks[k].total == SumOf(s.ledger, ids)
      && TaskIds(s.tasks[k]) == SetOf(ids)
  {
    assert TaskOk(s.tasks[k], s.ledger, s.target);
  }

  lemma FailedOk(l: Ledger, ids: seq<ObjectId>, target: nat)
    requires IdsLive(l, ids, THRESHOLD_FACTOR * target) || Merged(l, ids)
    ensures TaskOk(Failed(ids), l, target)
  {
  }

  lemma OtherTasks(s: Station, k: nat)
    requires TasksOk(s)
    ensures forall j :: j in s.tasks && j != k ==> TaskOk(s.tasks[j], s.ledger, s.target)
  {
    hide TaskOk;
  }

  lemma PaymentOwned(s: Station, k: nat, ids: seq<ObjectId>)
    requires OwnerOk(s) && k in s.tasks && TaskIds(s.tasks[k]) == SetOf(ids)
    ensures forall id :: id in ids ==> id in s.owner && s.owner[id] == Busy(k)
  {
    hide TaskIds;
    forall id | id in ids ensures id in s.owner && s.owner[id] == Busy(k) {
      assert id in At(s, Busy(k));
      assert Holds(s, Busy(k), id);
    }
  }

  /** The payment coins of task `k` become one coin under the id of the first. */
  lemma PaymentFrame(s: Station, k: nat, ids: seq<ObjectId>, coin: GasCoin, m: Ledger)
    requires OwnerOk(s) && UsedOk(s) && TasksOk(s) && k in s.tasks && TaskIds(s.tasks[k]) == SetOf(ids)
    requires ids != [] && DistinctIds(ids) && (forall id :: id in ids ==> id in s.ledger)
    requires coin.id == ids[0] && m == Post(s.ledger, SetOf(ids), [coin])
    ensures OnlyOwn(s, m, k)
    ensures m.Keys == s.ledger.Keys - SetOf(ids) + {ids[0]} && m[ids[0]] == coin
    ensures forall id :: id in m && id != ids[0] ==> id in s.ledger && m[id] == s.ledger[id]
    ensures Merged(m, ids)
    ensures Worth(m) + SumOf(s.ledger, ids) == Worth(s.ledger) + coin.balance
    ensures forall id :: id in ids ==> id in s.owner && s.owner[id] == Busy(k)
  {
    hide TaskOk, TaskIds, OwnerOk, Post, Worth, SumOf, TasksOk;
    assert [coin][1..] == [];
    PostContents(s.ledger, SetOf(ids), [coin]);
    assert coin in [coin];
    assert IdSet([coin]) == {coin.id};
    PostWorth(s.ledger, ids, [coin]);
    PaymentOwned(s, k, ids);
  }

  /** What a ledger change by task `k` leaves of the pool and of the promises. */
  lemma PaymentKeepsRest(s: Station, t: Station, k: nat)
    requires Inv(s) && OnlyOwn(s, t.ledger, k)
    requires t.target == s.target && t.pool == s.pool && t.promised == s.promised && t.claims == s.claims
    ensures PoolOk(t) && PromisesOk(t) && ClaimsOk(t)
    ensures forall j :: j in s.tasks && j != k ==> TaskOk(s.tasks[j], t.ledger, s.target)
  {
    hide TaskOk, IdSet, Total, OwnerOk, TasksOk, CustodyOk, ValueOk;
    LedgerFrame(s, t.ledger, k);
    forall r | r in t.pool.reservations ensures PromiseOk(t, r) {
      assert PromiseOk(s, r);
    }
  }

  /** The facts of `PaymentFrame`, under one name; `net` is what the payment cost. */
  ghost predicate Paid(s: Station, m: Ledger, k: nat, ids: seq<ObjectId>, coin: GasCoin, net: int) {
    && ids != [] && OnlyOwn(s, m, k) && Merged(m, ids)
    && m.Keys == s.ledger.Keys - SetOf(ids) + {ids[0]} && m[ids[0]] == coin && coin.id == ids[0]
    && (forall id :: id in m && id != ids[0] ==> id in s.ledger && m[id] == s.ledger[id])
    && (forall id :: id in ids ==> id in s.owner && s.owner[id] == Busy(k))
    && Worth(m) + net == Worth(s.ledger)
  }

  lemma PaymentIsPaid(s: Station, k: nat, e: Effects)
    requires Inv(s) && k in s.tasks && s.tasks[k].Queried? && CanPay(s, s.tasks[k].ids, e)
    ensures
      var ids := s.tasks[k].ids;
      var coin := Smashed(s, ids, e);
      Paid(s, Post(s.ledger, SetOf(ids), [coin]), k, ids, coin, e.net)
  {
    hide TaskOk, OwnerOk, TasksOk, PoolOk, PromisesOk, ClaimsOk, SumOf, Worth, Post, TaskIds;
    var ids := s.tasks[k].ids;
    QueriedFacts(s, k);
    var coin := Smashed(s, ids, e);
    PaymentFrame(s, k, ids, coin, Post(s.ledger, SetOf(ids), [coin]));
  }

  lemma PaidUsed(s: Station, t: Station, k: nat, ids: seq<ObjectId>, coin: GasCoin, net: int)
    requires UsedOk(s) && ValueOk(s) && Paid(s, t.ledger, k, ids, coin, net) && s.stranded !! s.owner.Keys
    requires t.used == s.used && t.unregistered == s.unregistered && t.stranded == s.stranded
    requires t.owner.Keys <= s.owner.Keys && t.spent == s.spent + net && t.deposited == s.deposited
    ensures UsedOk(t) && ValueOk(t)
  {
    assert ids[0] in ids;
    forall id | id in s.stranded ensures id in t.ledger {
      assert id !in ids;
    }
  }

  lemma StrandedApart(s: Station)
    requires CustodyOk(s)
    ensures s.stranded !! s.owner.Keys
  {
  }

  lemma KeepFail(s: Station, k: nat, e: Option<Effects>)
    requires Inv(s) && k in s.tasks && s.tasks[k].Queried? && (e.Some? ==> CanPay(s, s.tasks[k].ids, e.value))
    ensures Inv(DoFail(s, k, e))
  {
    hide Inv, TaskOk, TaskIds, SumOf, Worth, Post, Smashed, Paid;
    var ids := s.tasks[k].ids;
    if e.Some? {
      PaymentIsPaid(s, k, e.value);
      FailPaid(s, DoFail(s, k, e), k, ids, Smashed(s, ids, e.value), e.value.net);
    } else {
      FailUnpaid(s, k);
    }
  }

  lemma FailUnpaid(s: Station, k: nat)
    requires Inv(s) && k in s.tasks && s.tasks[k].Queried?
    ensures Inv(s.(tasks := s.tasks[k := Failed(s.tasks[k].ids)]))
  {
    hide TaskOk, Worth, Total, IdSet, OwnerOk, TasksOk, SumOf, PromisesOk;
    var t := s.(tasks := s.tasks[k := Failed(s.tasks[k].ids)]);
    QueriedFacts(s, k);
    FailedOk(s.ledger, s.tasks[k].ids, s.target);
    OtherTasks(s, k);
    TaskChanges(s, t, k, Failed(s.tasks[k].ids));
    OwnerSame(s, t);
    PromisesFrame(s, t);
  }

  /** The transaction took effect, but the executor only sees an error. */
  lemma FailPaid(s: Station, t: Station, k: nat, ids: seq<ObjectId>, coin: GasCoin, net: int)
    requires Inv(s) && k in s.tasks && s.tasks[k].Queried? && s.tasks[k].ids == ids
    requires Paid(s, t.ledger, k, ids, coin, net)
    requires t == s.(ledger := t.ledger, spent := s.spent + net, tasks := s.tasks[k := Failed(ids)])
    ensures Inv(t)
  {
    hide TaskOk, Total, IdSet, OwnerOk, TasksOk, ClaimsOk, Worth, PoolOk, PromisesOk, UsedOk, ValueOk, OnlyOwn, Merged,
      CustodyOk;
    FailedOk(t.ledger, ids, t.target);
    PaymentKeepsRest(s, t, k);
    StrandedApart(s);
    PaidUsed(s, t, k, ids, coin, net);
    PaidCustody(s, t, k, ids, coin, net);
    TaskChanges(s, t, k, Failed(ids));
    OwnerSame(s, t);
  }

  /** Nobody's coin is forgotten by a payment, if the owner of the surviving one is still known. */
  lemma PaidCustody(s: Station, t: Station, k: nat, ids: seq<ObjectId>, coin: GasCoin, net: int)
    requires CustodyOk(s) && Paid(s, t.ledger, k, ids, coin, net)
    requires t.target == s.target && t.unregistered == s.unregistered && t.stranded == s.stranded
    requires s.owner.Keys - SetOf(ids) <= t.owner.Keys <= s.owner.Keys
    requires ids[0] in t.owner || Threshold(s) < coin.balance
    ensures CustodyOk(t)
  {
    hide OnlyOwn, Merged, Worth;
  }

  lemma KeepExecute(s: Station, k: nat, e: Effects)
    requires Inv(s) && k in s.tasks && s.tasks[k].Queried? && CanPay(s, s.tasks[k].ids, e)
    ensures Inv(DoExecute(s, k, e))
  {
    hide Inv, TaskOk, TaskIds, SumOf, Worth, Post, Paid, Oversized, Own;
    var ids := s.tasks[k].ids;
    var coin := Smashed(s, ids, e);
    PaymentIsPaid(s, k, e);
    RecordedIsSmashed(s, k, e);
    if Oversized([coin], Threshold(s)) {
      ExecuteDrops(s, DoExecute(s, k, e), k, ids, coin, e.net);
    } else {
      ExecuteSettles(s, DoExecute(s, k, e), k, ids, coin, e.net);
    }
  }

  /** The balance the station derives from the earlier read is the one on the ledger. */
  lemma RecordedIsSmashed(s: Station, k: nat, e: Effects)
    requires Inv(s) && k in s.tasks && s.tasks[k].Queried? && CanPay(s, s.tasks[k].ids, e)
    ensures s.tasks[k].total == SumOf(s.ledger, s.tasks[k].ids)
  {
    QueriedFacts(s, k);
  }

  /** An oversized result is left on the ledger for the next refresh scan. */
  lemma ExecuteDrops(s: Station, t: Station, k: nat, ids: seq<ObjectId>, coin: GasCoin, net: int)
    requires Inv(s) && k in s.tasks && s.tasks[k].Queried? && s.tasks[k].ids == ids
    requires Paid(s, t.ledger, k, ids, coin, net) && Oversized([coin], Threshold(s))
    requires t == s.(ledger := t.ledger, spent := s.spent + net, tasks := s.tasks - {k}, owner := s.owner - SetOf(ids))
    ensures Inv(t)
  {
    hide TaskOk, Total, IdSet, OwnerOk, TasksOk, ClaimsOk, Worth, PoolOk, PromisesOk, UsedOk, ValueOk, OnlyOwn, Merged,
      CustodyOk, Own;
    PaymentKeepsRest(s, t, k);
    StrandedApart(s);
    PaidUsed(s, t, k, ids, coin, net);
    PaidCustody(s, t, k, ids, coin, net);
    OwnNothing(s.owner - SetOf(ids), Busy(k));
    TaskEnds(s, t, k);
    OwnerShrink(s, t, Busy(k), {});
  }

  /** An ordinary result goes back to the pool, with the balance the station computed itself. */
  lemma ExecuteSettles(s: Station, t: Station, k: nat, ids: seq<ObjectId>, coin: GasCoin, net: int)
    requires Inv(s) && k in s.tasks && s.tasks[k].Queried? && s.tasks[k].ids == ids
    requires Paid(s, t.ledger, k, ids, coin, net) && !Oversized([coin], Threshold(s))
    requires t == s.(ledger := t.ledger, spent := s.spent + net,
      tasks := s.tasks[k := Settled([coin])], owner := Own(s.owner - SetOf(ids), {ids[0]}, Busy(k)))
    ensures Inv(t)
  {
    hide TaskOk, Total, OwnerOk, TasksOk, ClaimsOk, Worth, PoolOk, PromisesOk, UsedOk, ValueOk, OnlyOwn, Merged,
      CustodyOk, Own, Oversized, IdSet;
    SettledAlone(t.ledger, coin, s.target);
    PaymentKeepsRest(s, t, k);
    TaskChanges(s, t, k, Settled([coin]));
    OwnerShrink(s, t, Busy(k), {ids[0]});
    StrandedApart(s);
    PaidUsed(s, t, k, ids, coin, net);
    PaidCustody(s, t, k, ids, coin, net);
  }

  lemma OwnNothing(owner: map<ObjectId, Place>, p: Place)
    ensures Own(owner, {}, p) == owner
  {
  }

  lemma SettledAlone(l: Ledger, coin: GasCoin, target: nat)
    requires coin.id in l && l[coin.id] == coin && !Oversized([coin], THRESHOLD_FACTOR * target)
    ensures TaskOk(Settled([coin]), l, target) && IdSet([coin]) == {coin.id}
  {
    assert coin in [coin];
  }
  // ---------------------------------------------------------------- reading the latest objects

  /** What the latest objects of a failed payment or of expired reservations look like. */
  lemma LatestFacts(s: Station, k: nat, listing: seq<GasCoin>)
    requires TasksOk(s) && k in s.tasks && (s.tasks[k].Failed? || s.tasks[k].Expired?)
    requires Lists(listing, s.ledger, TaskIds(s.tasks[k]))
    ensures s.tasks[k].Expired? || !Oversized(listing, Threshold(s)) ==> TaskOk(Settled(listing), s.ledger, s.target)
    ensures s.tasks[k].Failed? && Oversized(listing, Threshold(s)) ==>
      forall id :: id in TaskIds(s.tasks[k]) && id in s.ledger ==> Threshold(s) < s.ledger[id].balance
  {
    var x := s.tasks[k];
    assert TaskOk(x, s.ledger, s.target);
    forall c | c in listing ensures c.id in TaskIds(x) {
      assert c.id in IdSet(listing);
    }
    if x.Failed? && Oversized(listing, Threshold(s)) {
      var c :| c in listing && Threshold(s) < c.balance;
      assert c.id in x.ids;
      assert !IdLive(s.ledger, c.id, Threshold(s));
      assert c.id == x.ids[0];
    }
  }

  lemma KeepReadLatest(s: Station, k: nat, listing: seq<GasCoin>)
    requires Inv(s) && k in s.tasks && (s.tasks[k].Failed? || s.tasks[k].Expired?)
    requires Lists(listing, s.ledger, TaskIds(s.tasks[k]))
    ensures Inv(DoReadLatest(s, k, listing))
  {
    hide TaskOk, Total, OwnerOk, TasksOk, Worth, PromisesOk, CustodyOk, Own, Oversized, IdSet, TaskIds, SetOf;
    var t := DoReadLatest(s, k, listing);
    var held := TaskIds(s.tasks[k]);
    LatestFacts(s, k, listing);
    OtherTasks(s, k);
    PromisesFrame(s, t);
    HeldBy(s, k);
    if s.tasks[k].Failed? && Oversized(listing, Threshold(s)) {
      TaskEnds(s, t, k);
      OwnNothing(s.owner - held, Busy(k));
      OwnerShrink(s, t, Busy(k), {});
    } else {
      TaskChanges(s, t, k, Settled(listing));
      ListedIds(listing);
      OwnerShrink(s, t, Busy(k), IdSet(listing));
    }
    ShrinkCustody(s, t, held);
  }

  lemma ListedIds(coins: seq<GasCoin>)
    ensures TaskIds(Settled(coins)) == IdSet(coins)
  {
  }

  lemma HeldBy(s: Station, k: nat)
    requires OwnerOk(s) && k in s.tasks
    ensures At(s, Busy(k)) == TaskIds(s.tasks[k]) <= s.owner.Keys
  {
    forall id | id in TaskIds(s.tasks[k]) ensures id in s.owner {
      assert Holds(s, Busy(k), id);
    }
  }

  lemma ShrinkCustody(s: Station, t: Station, held: set<ObjectId>)
    requires CustodyOk(s) && t.ledger == s.ledger && t.target == s.target && t.unregistered == s.unregistered
    requires t.stranded == s.stranded
    requires s.owner.Keys - held <= t.owner.Keys <= s.owner.Keys
    requires forall id :: id in held && id in s.ledger ==> id in t.owner || Threshold(s) < s.ledger[id].balance
    ensures CustodyOk(t)
  {
  }

  // ---------------------------------------------------------------- returning coins to the pool

  /** `Add` with the statistics in place. */
  lemma AddShape(p: Registry, coins: seq<GasCoin>)
    requires StatsPresent(p) && StatsAgree(p)
    ensures var q := Add(p, coins).1;
      && q.available == p.available + coins && StatsPresent(q) && StatsAgree(q)
      && q.reservations == p.reservations && q.expirations == p.expirations
      && q.lastReservation == p.lastReservation && q.initLock == p.initLock && q.maintenanceLock == p.maintenanceLock
  {
    AddKeepsStats(p, coins);
  }

  lemma CoinsLiveConcat(l: Ledger, a: seq<GasCoin>, b: seq<GasCoin>, cap: nat)
    requires CoinsLive(l, a, cap) && CoinsLive(l, b, cap) && IdSet(a) !! IdSet(b)
    ensures CoinsLive(l, a + b, cap) && IdSet(a + b) == IdSet(a) + IdSet(b)
  {
    DistinctConcat(a, b);
    IdSetConcat(a, b);
    assert forall c :: c in a + b ==> c in a || c in b;
  }

  /** Ids of two different places are disjoint. */
  lemma PlacesApart(s: Station, p: Place, q: Place)
    requires OwnerOk(s) && p != q
    ensures At(s, p) !! At(s, q)
  {
    forall id | id in At(s, p) ensures id !in At(s, q) {
      assert Holds(s, p, id);
      if id in At(s, q) {
        assert Holds(s, q, id);
      }
    }
  }

  /** Task `k` hands `coins` to the pool; what it keeps is `x`, or nothing. */
  lemma PoolGains(s: Station, t: Station, k: nat, coins: seq<GasCoin>)
    requires PoolOk(s) && PromisesOk(s) && ClaimsOk(s) && OwnerOk(s) && k in s.tasks
    requires CoinsLive(s.ledger, coins, Threshold(s)) && IdSet(coins) <= At(s, Busy(k))
    requires t == s.(pool := Add(s.pool, coins).1, tasks := t.tasks, owner := Own(s.owner, IdSet(coins), Avail))
    requires At(t, Busy(k)) == At(s, Busy(k)) - IdSet(coins)
    requires forall j :: j != k ==> At(t, Busy(j)) == At(s, Busy(j))
    ensures PoolOk(t) && PromisesOk(t) && ClaimsOk(t) && OwnerOk(t) && t.owner.Keys == s.owner.Keys
  {
    hide Add, Total, IdSet, OwnerOk, PromisesOk, StatsAgree, StatsPresent, CoinsLive, TaskIds, SetOf, Own;
    AddShape(s.pool, coins);
    PlacesApart(s, Avail, Busy(k));
    CoinsLiveConcat(s.ledger, s.pool.available, coins, Threshold(s));
    PromisesFrame(s, t);
    OwnerTransfer(s, t, Busy(k), Avail, IdSet(coins));
  }

  lemma KeepRelease(s: Station, k: nat)
    requires Inv(s) && k in s.tasks && s.tasks[k].Settled?
    ensures Inv(DoRelease(s, k))
  {
    hide TaskOk, Total, IdSet, OwnerOk, PromisesOk, TasksOk, PoolOk, ClaimsOk, Worth, Add, Own, TaskIds, CoinsLive;
    var t := DoRelease(s, k);
    var coins := s.tasks[k].coins;
    SettledFacts(s, k);
    ListedIds(coins);
    HeldBy(s, k);
    PoolGains(s, t, k, coins);
    OtherTasks(s, k);
    TaskEnds(s, t, k);
  }

  lemma KeepReleaseErr(s: Station, k: nat, applied: bool)
    requires Inv(s) && k in s.tasks && s.tasks[k].Settled? && (applied ==> s.tasks[k].coins == [])
    ensures applied ==> Add(s.pool, s.tasks[k].coins).1 == s.pool
  {
    hide TaskOk, PromisesOk, ClaimsOk, TasksOk, OwnerOk, UsedOk, CustodyOk, ValueOk;
    assert s.pool.available + [] == s.pool.available;
  }

  lemma KeepAbandon(s: Station, k: nat)
    requires Inv(s) && k in s.tasks
    ensures Inv(DoAbandon(s, k))
  {
    hide TaskOk, Total, OwnerOk, TasksOk, Worth, PromisesOk, Own, IdSet, TaskIds, SetOf;
    var t := DoAbandon(s, k);
    OtherTasks(s, k);
    PromisesFrame(s, t);
    HeldBy(s, k);
    TaskEnds(s, t, k);
    OwnNothing(s.owner - TaskIds(s.tasks[k]), Busy(k));
    OwnerShrink(s, t, Busy(k), {});
  }

  lemma SettledFacts(s: Station, k: nat)
    requires TasksOk(s) && k in s.tasks && s.tasks[k].Settled?
    ensures CoinsLive(s.ledger, s.tasks[k].coins, Threshold(s))
  {
    assert TaskOk(s.tasks[k], s.ledger, s.target);
  }

  lemma KeepAddChunk(s: Station, k: nat)
    requires Inv(s) && k in s.tasks && s.tasks[k].Splitting? && s.tasks[k].work == []
    ensures Inv(DoAddChunk(s, k))
  {
    hide TaskOk, Total, IdSet, OwnerOk, PromisesOk, TasksOk, PoolOk, ClaimsOk, Worth, Add, Own, TaskIds, CoinsLive;
    var t := DoAddChunk(s, k);
    var done := s.tasks[k].done;
    var n := if |done| < CHUNK then |done| else CHUNK;
    DoneFacts(s, k, n);
    HeldBy(s, k);
    PoolGains(s, t, k, done[..n]);
    OtherTasks(s, k);
    TaskChanges(s, t, k, s.tasks[k].(done := done[n..]));
  }

  /** Split results are ordinary coins, and the rest of a chunked list is still a valid run. */
  lemma DoneFacts(s: Station, k: nat, n: nat)
    requires TasksOk(s) && k in s.tasks && s.tasks[k].Splitting? && s.tasks[k].work == [] && n <= |s.tasks[k].done|
    ensures var x := s.tasks[k];
      && CoinsLive(s.ledger, x.done[..n], Threshold(s))
      && TaskOk(x.(done := x.done[n..]), s.ledger, s.target)
      && IdSet(x.done[..n]) <= TaskIds(x)
      && TaskIds(x.(done := x.done[n..])) == TaskIds(x) - IdSet(x.done[..n])
  {
    hide TasksOk, IdSet, CoinsLive, TaskOk;
    var x := s.tasks[k];
    var limit := KeepLimit(x.gas, s.target);
    RunFacts(s, k);
    NoCounts(x, s.ledger, s.target);
    DrainedRun(x, s.ledger, s.target);
    CoinsLiveSplit(s.ledger, x.done, n, limit);
    KeepLimitBelowThreshold(x.gas, s.target);
    CoinsLiveRaise(s.ledger, x.done[..n], limit, Threshold(s));
    DrainedRun(x.(done := x.done[n..]), s.ledger, s.target);
    IdSetOfParts(x.done, n);
    NoIds();
  }

  /** A run with nothing left to split is a list of live coins within the keep limit. */
  lemma DrainedRun(x: Task, l: Ledger, target: nat)
    requires x.Splitting? && x.work == [] && x.counts == map[]
    ensures TaskOk(x, l, target) <==> x.gas < target * 99 && CoinsLive(l, x.done, KeepLimit(x.gas, target))
    ensures CoinsLive(l, x.done, KeepLimit(x.gas, target)) ==> Distinct(x.done)
  {
    assert x.work + x.done == x.done;
  }

  lemma NoCounts(x: Task, l: Ledger, target: nat)
    requires x.Splitting? && x.work == [] && TaskOk(x, l, target)
    ensures x.counts == map[]
  {
    assert x.counts.Keys == {};
  }

  lemma CoinsLiveRaise(l: Ledger, coins: seq<GasCoin>, cap: nat, higher: nat)
    requires CoinsLive(l, coins, cap) && cap <= higher
    ensures CoinsLive(l, coins, higher)
  {
  }

  lemma CoinsLiveSplit(l: Ledger, coins: seq<GasCoin>, n: nat, cap: nat)
    requires CoinsLive(l, coins, cap) && n <= |coins|
    ensures CoinsLive(l, coins[..n], cap) && CoinsLive(l, coins[n..], cap)
  {
    IdSetOfParts(coins, n);
    assert forall c :: c in coins[..n] || c in coins[n..] ==> c in coins;
  }

  lemma RunFacts(s: Station, k: nat)
    requires TasksOk(s) && k in s.tasks
    ensures TaskOk(s.tasks[k], s.ledger, s.target)
  {
    hide TaskOk;
  }

  lemma NoIds()
    ensures IdSet([]) == {}
  {
  }

  // ---------------------------------------------------------------- locks, deposits, clean-up, time

  lemma KeepBoot(s: Station)
    requires Inv(s)
    ensures Inv(DoBoot(s))
  {
    hide TaskOk, Total, OwnerOk, PromisesOk, TasksOk, Worth, IdSet, SetOf, CoinsLive;
    var t := DoBoot(s);
    if !s.pool.initialized {
      BootedOk(s);
      TaskStarts(s, t, Booted);
      PromisesFrame(s, t);
      OwnerSame(s, t);
    }
  }

  lemma BootedOk(s: Station)
    ensures TaskOk(Booted, s.ledger, s.target) && TaskIds(Booted) == {}
  {
  }

  lemma KeepLock(s: Station, lock: Option<nat>)
    requires Inv(s)
    ensures Inv(s.(pool := s.pool.(initLock := lock)))
  {
    hide TaskOk, Total, OwnerOk, PromisesOk, TasksOk, Worth, IdSet, SetOf, TaskIds, CoinsLive;
    var t := s.(pool := s.pool.(initLock := lock));
    TasksSame(s, t);
    PromisesFrame(s, t);
    OwnerSame(s, t);
  }

  lemma KeepStart(s: Station, boot: Option<nat>)
    requires Inv(s) && (boot.Some? ==> boot.value in s.tasks && s.tasks[boot.value].Booted?)
    ensures Inv(DoStart(s, boot))
  {
    hide TaskOk, Total, OwnerOk, PromisesOk, TasksOk, Worth, IdSet, SetOf, CoinsLive;
    var t := DoStart(s, boot);
    LockedOk(s, boot.Some?);
    if boot.Some? {
      OtherTasks(s, boot.value);
      TaskChanges(s, t, boot.value, Locked(s.clock + MAX_INIT_DURATION, true));
    } else {
      TaskStarts(s, t, Locked(s.clock + MAX_INIT_DURATION, false));
    }
    PromisesFrame(s, t);
    BootedOk(s);
    LockedHoldsNothing(s.clock + MAX_INIT_DURATION, boot.Some?);
    OwnerSame(s, t);
  }

  lemma LockedOk(s: Station, init: bool)
    ensures TaskOk(Locked(s.clock + MAX_INIT_DURATION, init), s.ledger, s.target)
  {
  }

  lemma LockedHoldsNothing(lease: nat, init: bool)
    ensures TaskIds(Locked(lease, init)) == {}
  {
  }

  lemma KeepEnd(s: Station, k: nat)
    requires Inv(s) && k in s.tasks && IsRun(s.tasks[k]) && TaskIds(s.tasks[k]) == {}
    ensures Inv(s.(pool := ReleaseInitLock(s.pool), tasks := s.tasks - {k}))
  {
    hide TaskOk, Total, OwnerOk, PromisesOk, TasksOk, Worth, IdSet, SetOf, TaskIds, CoinsLive;
    var t := s.(pool := ReleaseInitLock(s.pool), tasks := s.tasks - {k});
    OtherTasks(s, k);
    TaskEnds(s, t, k);
    PromisesFrame(s, t);
    OwnerSame(s, t);
  }

  lemma KeepDeposit(s: Station, coin: GasCoin)
    requires Inv(s) && coin.id !in s.used
    ensures Inv(DoDeposit(s, coin))
  {
    hide TaskOk, Total, OwnerOk, TasksOk, PoolOk, PromisesOk, ClaimsOk, Worth, IdSet, SetOf, TaskIds;
    var t := DoDeposit(s, coin);
    WorthInsert(s.ledger, coin);
    assert OnlyOwn(s, t.ledger, s.nextTask);
    NoSuchTask(s);
    PaymentKeepsRest(s, t, s.nextTask);
    SameTasks(s, t);
    OwnerSame(s, t);
  }

  lemma NoSuchTask(s: Station)
    requires TasksOk(s)
    ensures s.nextTask !in s.tasks
  {
    hide TaskOk;
  }

  lemma SameTasks(s: Station, t: Station)
    requires TasksOk(s) && t.tasks == s.tasks && t.nextTask == s.nextTask && t.target == s.target
    requires forall j :: j in s.tasks && j != s.nextTask ==> TaskOk(s.tasks[j], t.ledger, s.target)
    ensures TasksOk(t)
  {
    hide TaskOk;
  }

  lemma KeepClean(s: Station)
    requires Inv(s) && s.tasks == map[] && s.pool.reservations == map[]
    ensures Inv(DoClean(s))
  {
    hide TaskOk, Worth, TaskIds;
    var t := DoClean(s);
    BootedOk(t);
    InitStatsIsIdempotent(s.pool);
    assert CustodyOk(t) by {
      forall id | id in s.owner ensures id in IdSet(s.pool.available) {
        assert Holds(s, s.owner[id], id);
      }
    }
    forall p, id ensures !Holds(t, p, id) {
      assert At(t, p) == {};
    }
  }

  lemma KeepTick(s: Station, to: nat)
    requires Inv(s) && Enabled(s, Tick(to))
    ensures Inv(s.(clock := to))
  {
    hide TaskOk, Total, OwnerOk, PromisesOk, TasksOk, Worth, IdSet, SetOf, TaskIds, CoinsLive, StatsAgree;
    var t := s.(clock := to);
    OtherTasks(s, s.nextTask);
    SameTasks(s, t);
    PromisesFrame(s, t);
    OwnerSame(s, t);
  }

  lemma KeepMaintenance(s: Station, lock: Option<nat>)
    requires Inv(s)
    ensures Inv(s.(pool := s.pool.(maintenanceLock := lock)))
  {
    hide TaskOk, Total, OwnerOk, PromisesOk, TasksOk, Worth, IdSet, SetOf, TaskIds, CoinsLive;
    var t := s.(pool := s.pool.(maintenanceLock := lock));
    TasksSame(s, t);
    PromisesFrame(s, t);
    OwnerSame(s, t);
  }
  // ---------------------------------------------------------------- scanning

  /** `enqueue_task` on every coin of a list: the large ones are queued, the others kept. */
  lemma {:induction false} Partition(coins: seq<GasCoin>, limit: nat)
    ensures forall c :: c in Large(coins, limit) <==> c in coins && limit < c.balance
    ensures forall c :: c in Small(coins, limit) <==> c in coins && c.balance <= limit
  {
    if coins != [] {
      Partition(coins[1..], limit);
    }
  }

  lemma {:induction false} PartitionDistinct(coins: seq<GasCoin>, limit: nat)
    requires Distinct(coins)
    ensures Distinct(Large(coins, limit)) && Distinct(Small(coins, limit))
  {
    if coins != [] {
      hide Distinct, IdSet;
      var c, rest := coins[0], coins[1..];
      assert coins == [c] + rest;
      DistinctConcat([c], rest);
      SingleId(c);
      PartitionDistinct(rest, limit);
      Partition(rest, limit);
      IdsWithin(Large(rest, limit), rest);
      IdsWithin(Small(rest, limit), rest);
      DistinctConcat([c], Large(rest, limit));
      DistinctConcat([c], Small(rest, limit));
      EmptyConcat(Large(rest, limit));
      EmptyConcat(Small(rest, limit));
    }
  }

  lemma IdsWithin(a: seq<GasCoin>, b: seq<GasCoin>)
    requires forall c :: c in a ==> c in b
    ensures IdSet(a) <= IdSet(b)
  {
  }

  lemma EmptyConcat(a: seq<GasCoin>)
    ensures [] + a == a
  {
  }

  lemma PartitionIds(coins: seq<GasCoin>, limit: nat)
    requires Distinct(coins)
    ensures IdSet(Large(coins, limit)) + IdSet(Small(coins, limit)) == IdSet(coins)
    ensures IdSet(Large(coins, limit)) !! IdSet(Small(coins, limit))
    ensures Distinct(Large(coins, limit) + Small(coins, limit))
  {
    var large, small := Large(coins, limit), Small(coins, limit);
    Partition(coins, limit);
    PartitionDistinct(coins, limit);
    forall c, d | c in large && d in small ensures c.id != d.id {
      var i :| 0 <= i < |coins| && coins[i] == c;
      var j :| 0 <= j < |coins| && coins[j] == d;
      assert i != j;
    }
    DistinctConcat(large, small);
  }

  lemma ScannedRun(l: Ledger, target: nat, lease: nat, gas: nat, listing: seq<GasCoin>)
    requires gas < target * 99 && Distinct(listing)
    requires forall c :: c in listing ==> c.id in l && l[c.id] == c
    ensures
      var limit := KeepLimit(gas, target);
      var x := Splitting(lease, gas, Large(listing, limit), Small(listing, limit), map[]);
      TaskOk(x, l, target) && TaskIds(x) == IdSet(listing)
  {
    var limit := KeepLimit(gas, target);
    Partition(listing, limit);
    PartitionIds(listing, limit);
  }

  lemma KeepScan(s: Station, k: nat, gas: nat, listing: seq<GasCoin>)
    requires Inv(s) && k in s.tasks && s.tasks[k].Locked? && gas < s.target * 99
    requires Distinct(listing) && forall c :: c in listing ==> c.id in s.ledger && s.ledger[c.id] == c
    requires IdSet(listing) !! s.owner.Keys
    ensures Inv(DoScan(s, k, gas, listing))
  {
    hide TaskOk, TaskIds, Large, Small, OwnerOk, PromisesOk, TasksOk, Worth, Total, CoinsLive, Own, IdSet, SetOf;
    var t := DoScan(s, k, gas, listing);
    ScannedRun(s.ledger, s.target, s.tasks[k].lease, gas, listing);
    LockedHoldsNothing(s.tasks[k].lease, s.tasks[k].init);
    OtherTasks(s, k);
    TaskChanges(s, t, k, t.tasks[k]);
    PromisesFrame(s, t);
    OwnerGain(s, t, Busy(k), IdSet(listing));
    ListedInLedger(s.ledger, listing);
  }

  lemma ListedInLedger(l: Ledger, listing: seq<GasCoin>)
    requires forall c :: c in listing ==> c.id in l
    ensures IdSet(listing) <= l.Keys
  {
  }

  /** Who can hold a coin at or above the threshold: a run, or an executor that has not read its coins yet. */
  lemma LargeHolders(s: Station, id: ObjectId)
    requires PoolOk(s) && PromisesOk(s) && TasksOk(s) && OwnerOk(s) && id in s.owner && id in s.ledger
    ensures
      var p := s.owner[id];
      || s.ledger[id].balance <= Threshold(s)
      || (p.Busy? && p.task in s.tasks && s.tasks[p.task].Splitting?)
      || (p.Busy? && p.task in s.tasks && s.tasks[p.task].Failed? && id in s.tasks[p.task].ids)
  {
    var p := s.owner[id];
    assert Holds(s, p, id);
    match p
    case Avail =>
    case Resv(r) =>
      assert PromiseOk(s, r);
      SetOfIds(s.promised[r].coins);
    case Busy(j) =>
      assert TaskOk(s.tasks[j], s.ledger, s.target);
      if s.tasks[j].Claimed? || s.tasks[j].Queried? {
        assert IdLive(s.ledger, id, Threshold(s));
      }
  }

  /** A scan that `SafeStep` admits selects no coin that anybody holds. */
  lemma SafeScanIsDisjoint(s: Station, k: nat)
    requires Inv(s) && k in s.tasks && s.tasks[k].Locked?
    requires if s.tasks[k].init then NothingHeld(s) else !AtThreshold(s) && !UnreadMerge(s) && !QueuedElsewhere(s, k)
    ensures Selected(s.ledger, ScanThreshold(s, s.tasks[k].init)) !! s.owner.Keys
  {
    hide Inv, At, TaskIds, AtThreshold, UnreadMerge, QueuedElsewhere, NothingHeld;
    if s.tasks[k].init {
      NothingIsOwned(s);
    } else {
      forall id | id in s.owner && id in s.ledger ensures s.ledger[id].balance < Threshold(s) {
        HeldBelowThreshold(s, k, id);
      }
    }
  }

  lemma HeldBelowThreshold(s: Station, k: nat, id: ObjectId)
    requires Inv(s) && k in s.tasks && s.tasks[k].Locked? && !AtThreshold(s) && !UnreadMerge(s)
    requires !QueuedElsewhere(s, k)
    requires id in s.owner && id in s.ledger
    ensures s.ledger[id].balance < Threshold(s)
  {
    hide At, TaskIds, TasksOk, PromisesOk, PoolOk, ClaimsOk, CustodyOk, ValueOk, UsedOk, QueuedElsewhere;
    assert Holds(s, s.owner[id], id);
    LargeHolders(s, id);
    if InRun(s, s.owner[id]) {
      QueuedBelow(s, k, s.owner[id].task, id);
    }
  }

  /** What a run holds is queued, or is below the threshold by the guard on the gas cost. */
  lemma QueuedBelow(s: Station, k: nat, j: nat, id: ObjectId)
    requires TasksOk(s) && k in s.tasks && s.tasks[k].Locked? && !QueuedElsewhere(s, k)
    requires j in s.tasks && IsRun(s.tasks[j]) && Holds(s, Busy(j), id)
    ensures id in s.ledger && s.ledger[id].balance < Threshold(s)
  {
    RunFacts(s, j);
    var x := s.tasks[j];
    KeepLimitBelowThreshold(x.gas, s.target);
    if id in IdSet(x.work) {
      var c :| c in x.work && c.id == id;
      assert s.ledger[id] == c;
    } else {
      var c :| c in x.done && c.id == id;
      assert s.ledger[id] == c;
    }
  }

  lemma NothingIsOwned(s: Station)
    requires Inv(s) && NothingHeld(s)
    ensures s.owner == map[]
  {
    assert forall p :: At(s, p) == {};
  }
  // ---------------------------------------------------------------- splitting

  /** The ids and balances of the parts of a split, relative to the ids in use. */
  lemma PartsFacts(s: Station, k: nat, i: nat, x: Split)
    requires CanSplit(s, k, i) && SplitOk(s, k, i, x) && s.tasks[k].work[i].id in s.used
    ensures
      var parts, c := SplitParts(s, k, i, x), s.tasks[k].work[i];
      && Distinct(parts) && c.id in IdSet(parts) && |parts| == |x.created| + 1 && parts[|x.created|].id == c.id
      && (forall id :: id in IdSet(parts) && id != c.id ==> id !in s.used)
      && Total(parts) + x.net == c.balance
      && parts == parts[..|x.created|] + [parts[|x.created|]] && IdSet(parts[..|x.created|]) == IdSet(parts) - {c.id}
  {
    hide PartsBy, NewBalance;
    var parts, c := SplitParts(s, k, i, x), s.tasks[k].work[i];
    PartsByExact(c, CountOf(s, k, i), s.tasks[k].gas * CountOf(s, k, i), x.net, x.created, x.left);
    PartsIds(parts, x.created, c.id, s.used);
  }

  lemma PartsIds(parts: seq<GasCoin>, created: seq<ObjectRef>, own: ObjectId, used: set<ObjectId>)
    requires |parts| == |created| + 1 && own in used && parts[|created|].id == own
    requires forall i :: 0 <= i < |created| ==> parts[i].id == created[i].id && created[i].id !in used
    requires forall i, j :: 0 <= i < j < |created| ==> created[i].id != created[j].id
    ensures Distinct(parts) && own in IdSet(parts) && (forall id :: id in IdSet(parts) && id != own ==> id !in used)
    ensures IdSet(parts[..|created|]) == IdSet(parts) - {own}
  {
    var n := |created|;
    assert parts[n] in parts;
    forall i, j | 0 <= i < j < |parts| ensures parts[i].id != parts[j].id {
      assert parts[i].id == created[i].id;
      if j < n {
        assert parts[j].id == created[j].id;
      }
    }
    forall id | id in IdSet(parts) && id != own ensures id !in used && id in IdSet(parts[..n]) {
      var p :| p in parts && p.id == id;
      var i :| 0 <= i < |parts| && parts[i] == p;
      assert i < n && created[i].id == id && parts[..n][i] == p;
    }
    forall id | id in IdSet(parts[..n]) ensures id in IdSet(parts) - {own} {
      var p :| p in parts[..n] && p.id == id;
      var i :| 0 <= i < n && parts[i] == p;
      assert p in parts;
    }
  }

  lemma WithoutOne(work: seq<GasCoin>, done: seq<GasCoin>, i: nat)
    requires i < |work| && Distinct(work + done)
    ensures
      var rest := work[..i] + work[i + 1..];
      && Distinct(rest + done) && IdSet(rest) == IdSet(work) - {work[i].id} && work[i].id !in IdSet(done)
      && (forall c :: c in rest ==> c in work && c.id != work[i].id)
  {
    hide IdSet, Distinct;
    var a, c, b := work[..i], work[i], work[i + 1..];
    var rest := a + b;
    assert work == a + ([c] + b);
    DistinctConcat(work, done);
    DistinctConcat(a, [c] + b);
    DistinctConcat([c], b);
    DistinctConcat(a, b);
    IdSetConcat(a, [c] + b);
    IdSetConcat([c], b);
    IdSetConcat(a, b);
    SingleId(c);
    DistinctConcat(rest, done);
    forall x | x in rest ensures x in work && x.id != c.id {
      InIdSet(x, rest);
    }
  }

  lemma SingleId(c: GasCoin)
    ensures IdSet([c]) == {c.id}
  {
    assert c in [c];
  }

  /** Four disjoint lists, in any grouping. */
  lemma DistinctFour(rest: seq<GasCoin>, large: seq<GasCoin>, done: seq<GasCoin>, small: seq<GasCoin>)
    requires Distinct(rest + done) && Distinct(large + small)
    requires (IdSet(rest) + IdSet(done)) !! (IdSet(large) + IdSet(small))
    ensures Distinct((rest + large) + (done + small))
    ensures IdSet(rest + large) + IdSet(done + small) == IdSet(rest) + IdSet(done) + (IdSet(large) + IdSet(small))
  {
    hide Distinct, IdSet;
    DistinctConcat(rest, done);
    DistinctConcat(large, small);
    DistinctConcat(rest, large);
    DistinctConcat(done, small);
    IdSetConcat(rest, large);
    IdSetConcat(done, small);
    DistinctConcat(rest + large, done + small);
  }

  /** After one split a run is still in order, on the ledger the split produced. */
  lemma SplitRun(l: Ledger, m: Ledger, target: nat, x: Task, i: nat, parts: seq<GasCoin>)
    requires x.Splitting? && TaskOk(x, l, target) && i < |x.work|
    requires Distinct(parts) && x.work[i].id in IdSet(parts)
    requires (IdSet(x.work) + IdSet(x.done) - {x.work[i].id}) !! IdSet(parts)
    requires m == Post(l, {x.work[i].id}, parts)
    ensures
      var limit := KeepLimit(x.gas, target);
      var y := Splitting(x.lease, x.gas, x.work[..i] + x.work[i + 1..] + Large(parts, limit),
        x.done + Small(parts, limit), x.counts - {x.work[i].id});
      && TaskOk(y, m, target)
      && TaskIds(y) == IdSet(x.work) + IdSet(x.done) + IdSet(parts)
  {
    hide IdSet, Large, Small, Post, Distinct;
    var limit := KeepLimit(x.gas, target);
    var rest, large, small := x.work[..i] + x.work[i + 1..], Large(parts, limit), Small(parts, limit);
    WithoutOne(x.work, x.done, i);
    Partition(parts, limit);
    PartitionIds(parts, limit);
    PostContents(l, {x.work[i].id}, parts);
    DistinctFour(rest, large, x.done, small);
    IdSetConcat(rest, large);
    forall c | c in rest || c in x.done ensures c.id in m && m[c.id] == l[c.id] {
      InIdSet(c, x.work);
      InIdSet(c, x.done);
    }
  }

  lemma InIdSet(c: GasCoin, coins: seq<GasCoin>)
    ensures c in coins ==> c.id in IdSet(coins)
  {
  }

  lemma SplitLedger(s: Station, k: nat, c: GasCoin, parts: seq<GasCoin>, net: nat, m: Ledger)
    requires OwnerOk(s) && UsedOk(s) && k in s.tasks && c.id in TaskIds(s.tasks[k])
    requires c.id in s.ledger && s.ledger[c.id] == c
    requires Distinct(parts) && c.id in IdSet(parts) && Total(parts) + net == c.balance
    requires forall id :: id in IdSet(parts) && id != c.id ==> id !in s.used
    requires m == Post(s.ledger, {c.id}, parts)
    ensures OnlyOwn(s, m, k)
    ensures m.Keys == s.ledger.Keys + IdSet(parts)
    ensures forall id :: id in m ==> m[id].id == id
    ensures forall id :: id in s.ledger && id !in IdSet(parts) ==> m[id] == s.ledger[id]
    ensures Worth(m) + net == Worth(s.ledger)
    ensures s.owner.Keys <= s.used && forall id :: id in IdSet(parts) && id in s.owner ==> s.owner[id] == Busy(k)
  {
    hide Post, Worth, SumValues;
    PostContents(s.ledger, {c.id}, parts);
    assert SetOf([c.id]) == {c.id};
    assert [c.id][1..] == [];
    assert SumOf(s.ledger, [c.id]) == c.balance;
    PostWorth(s.ledger, [c.id], parts);
    assert Holds(s, Busy(k), c.id);
    forall id | id in IdSet(parts) ensures m[id].id == id {
      var p :| p in parts && p.id == id;
    }
  }

  lemma KeepSplit(s: Station, k: nat, i: nat, x: Split)
    requires Inv(s) && Enabled(s, SplitCoin(k, i, x))
    ensures Inv(DoSplit(s, k, i, x))
  {
    hide TaskOk, TaskIds, Large, Small, OwnerOk, PromisesOk, TasksOk, Worth, Total, PoolOk, ClaimsOk, Own, IdSet, SetOf,
      Post, PartsBy, OnlyOwn, Distinct, CountOf, SplitCount;
    var t := DoSplit(s, k, i, x);
    var run := s.tasks[k];
    var c := run.work[i];
    var parts := SplitParts(s, k, i, x);
    WorkFacts(s, k, i);
    PartsFacts(s, k, i, x);
    SplitLedger(s, k, c, parts, x.net, t.ledger);
    RunFacts(s, k);
    SplitRun(s.ledger, t.ledger, s.target, run, i, parts);
    PaymentKeepsRest(s, t, k);
    TaskChanges(s, t, k, t.tasks[k]);
    OwnerGain(s, t, Busy(k), IdSet(parts));
  }

  /** After a hidden split the run holds the same ids: only the remainder has taken the place of the coin. */
  lemma HiddenRun(l: Ledger, m: Ledger, target: nat, x: Task, i: nat, parts: seq<GasCoin>, n: nat)
    requires x.Splitting? && TaskOk(x, l, target) && i < |x.work|
    requires Distinct(parts) && 0 < |parts| && parts[|parts| - 1].id == x.work[i].id
    requires (IdSet(x.work) + IdSet(x.done) - {x.work[i].id}) !! IdSet(parts)
    requires m == Post(l, {x.work[i].id}, parts)
    ensures
      var y := Splitting(x.lease, x.gas, x.work[i := parts[|parts| - 1]], x.done, x.counts[x.work[i].id := n]);
      && TaskOk(y, m, target)
      && TaskIds(y) == IdSet(x.work) + IdSet(x.done)
  {
    hide Post, IdSet, Distinct;
    var rest := parts[|parts| - 1];
    var work := x.work[i := rest];
    SameIds(x.work, x.done, i, rest);
    WithoutOne(x.work, x.done, i);
    PostContents(l, {x.work[i].id}, parts);
    assert rest in parts;
    InIdSet(x.work[i], x.work);
    forall c | c in work || c in x.done ensures c.id in m && m[c.id] == c {
      if c != rest {
        NotThatOne(x.work, x.done, i, c);
        InIdSet(c, x.work);
        InIdSet(c, x.done);
      }
    }
    forall c | c in work && c.id !in x.counts[x.work[i].id := n] ensures c in x.work {
      assert c != rest;
    }
  }

  lemma SameIds(work: seq<GasCoin>, done: seq<GasCoin>, i: nat, c: GasCoin)
    requires i < |work| && c.id == work[i].id
    ensures IdSet(work[i := c]) == IdSet(work)
    ensures Distinct(work + done) ==> Distinct(work[i := c] + done)
  {
    var next := work[i := c];
    forall x | x in next ensures x.id in IdSet(work) {
      var j :| 0 <= j < |next| && next[j] == x;
      assert work[j] in work;
    }
    forall x | x in work ensures x.id in IdSet(next) {
      var j :| 0 <= j < |work| && work[j] == x;
      assert next[j] in next;
    }
    if Distinct(work + done) {
      forall a, b | 0 <= a < b < |next + done| ensures (next + done)[a].id != (next + done)[b].id {
        assert (work + done)[a].id != (work + done)[b].id;
      }
    }
  }

  lemma NotThatOne(work: seq<GasCoin>, done: seq<GasCoin>, i: nat, c: GasCoin)
    requires i < |work| && Distinct(work + done)
    requires (exists j :: 0 <= j < |work| && j != i && work[j] == c) || c in done
    ensures c.id != work[i].id
  {
    if c in done {
      var j :| 0 <= j < |done| && done[j] == c;
      assert (work + done)[|work| + j] == c && (work + done)[i] == work[i];
    } else {
      var j :| 0 <= j < |work| && j != i && work[j] == c;
      assert (work + done)[j] == c && (work + done)[i] == work[i];
    }
  }

  lemma KeepHide(s: Station, k: nat, i: nat, x: Split)
    requires Inv(s) && CanSplit(s, k, i) && SplitOk(s, k, i, x)
    ensures Inv(DoHide(s, k, i, x))
  {
    hide TaskOk, TaskIds, OwnerOk, PromisesOk, TasksOk, Worth, Total, PoolOk, ClaimsOk, Own, IdSet, SetOf, Post,
      PartsBy, OnlyOwn, Distinct, CountOf, SplitCount;
    var t := DoHide(s, k, i, x);
    var run := s.tasks[k];
    var c := run.work[i];
    var parts := SplitParts(s, k, i, x);
    WorkFacts(s, k, i);
    PartsFacts(s, k, i, x);
    SplitLedger(s, k, c, parts, x.net, t.ledger);
    RunFacts(s, k);
    HiddenRun(s.ledger, t.ledger, s.target, run, i, parts, |x.created| + 1);
    PaymentKeepsRest(s, t, k);
    TaskChanges(s, t, k, t.tasks[k]);
    OwnerSame(s, t);
  }

  /** A queued coin is on the ledger and in use, and so is everything its run holds. */
  lemma WorkFacts(s: Station, k: nat, i: nat)
    requires TasksOk(s) && OwnerOk(s) && UsedOk(s) && k in s.tasks && s.tasks[k].Splitting? && i < |s.tasks[k].work|
    ensures
      var x := s.tasks[k];
      var c := x.work[i];
      && c.id in s.ledger && s.ledger[c.id] == c && c.id in s.used && c.id in TaskIds(x) && c.id in s.owner
      && TaskIds(x) == IdSet(x.work) + IdSet(x.done) && TaskIds(x) <= s.used
      && At(s, Busy(k)) == TaskIds(x)
  {
    HeldBy(s, k);
    assert TaskOk(s.tasks[k], s.ledger, s.target);
    assert s.tasks[k].work[i] in s.tasks[k].work;
  }

  /** A run that holds its coins alone finds them as it knows them. */
  lemma RereadIsSame(s: Station, k: nat, i: nat)
    requires Inv(s) && k in s.tasks && s.tasks[k].Splitting? && i < |s.tasks[k].work| && 0 < s.target
    ensures DoReread(s, k, i) == s
  {
    hide PoolOk, PromisesOk, ClaimsOk, TasksOk, OwnerOk, UsedOk, CustodyOk, ValueOk, CountOf;
    RunFacts(s, k);
    assert s.tasks[k].work[i] in s.tasks[k].work;
  }

  // ---------------------------------------------------------------- all steps

  lemma KeepStep(s: Station, st: Step)
    requires Inv(s) && Enabled(s, st) && SafeStep(s, st)
    ensures Inv(Apply(s, st))
  {
    hide Inv, NothingHeld, AtThreshold, UnreadMerge, QueuedElsewhere, TaskIds, At, CanPay, SumOf, Lists, DoBoot,
      DoReread, DoDeposit, DoReserve, DoReady, DoExecute, DoFail, DoReadLatest, DoRelease, DoAbandon, DoExpire, DoStart,
      DoScan, DoSplit, DoHide, CanSplit, SplitOk, DoAddChunk, DoClean, Selected;
    match st
    case Deposit(coin) => KeepDeposit(s, coin);
    case ReserveGas(budget, expiration, now) => KeepReserve(s, budget, expiration, now);
    case ReadyForExecution(id) => KeepReady(s, id);
    case QueryTotal(k) => KeepQuery(s, k);
    case ExecuteOk(k, e) => KeepExecute(s, k, e);
    case ExecuteErr(k, e) => KeepFail(s, k, e);
    case ReadLatest(k, listing) => KeepReadLatest(s, k, listing);
    case ReleaseCoins(k) => KeepRelease(s, k);
    case ReleaseErr(k, applied) => KeepReleaseErr(s, k, applied);
    case Abandon(k) => KeepAbandon(s, k);
    case ExpireCoins(now) => KeepExpire(s, now);
    case Boot => KeepBoot(s);
    case StartRun(boot) => KeepStart(s, boot);
    case AcquireLost => KeepLock(s, Some(s.clock + MAX_INIT_DURATION));
    case Scan(k, gas, listing) => KeepSafeScan(s, k, gas, listing);
    case SplitCoin(k, i, x) => KeepSplit(s, k, i, x);
    case SplitErr(k, i, x) => if x.Some? { KeepHide(s, k, i, x.value); } else { RereadIsSame(s, k, i); }
    case AddChunk(k) => KeepAddChunk(s, k);
    case EndRun(k) => KeepEndRun(s, k);
    case MaintenanceOn(now, duration) => KeepMaintenance(s, Some(now + duration));
    case MaintenanceOff => KeepMaintenance(s, Some(0));
    case CleanAndInit => KeepClean(s);
    case Tick(to) => KeepTick(s, to);
  }

  lemma KeepSafeScan(s: Station, k: nat, gas: nat, listing: seq<GasCoin>)
    requires Inv(s) && Enabled(s, Scan(k, gas, listing)) && SafeStep(s, Scan(k, gas, listing))
    ensures Inv(DoScan(s, k, gas, listing))
  {
    hide Inv, NothingHeld, AtThreshold, UnreadMerge, QueuedElsewhere, DoScan;
    SafeScanIsDisjoint(s, k);
    SelectedIds(s.ledger, ScanThreshold(s, s.tasks[k].init), listing);
    KeepScan(s, k, gas, listing);
  }

  lemma SelectedIds(l: Ledger, threshold: nat, listing: seq<GasCoin>)
    requires Lists(listing, l, Selected(l, threshold))
    ensures IdSet(listing) == Selected(l, threshold)
    ensures Distinct(listing) && forall c :: c in listing ==> c.id in l && l[c.id] == c
  {
  }

  lemma KeepEndRun(s: Station, k: nat)
    requires Inv(s) && Enabled(s, EndRun(k))
    ensures Inv(s.(pool := ReleaseInitLock(s.pool), tasks := s.tasks - {k}))
  {
    hide Inv;
    assert TaskIds(s.tasks[k]) == {};
    KeepEnd(s, k);
  }

  lemma FreshInv(target: nat)
    ensures Inv(Fresh(target))
  {
    var s := Fresh(target);
    assert forall p :: At(s, p) == {};
    assert Balances(s.ledger) == map[];
  }

  /** Whatever the instances do, in whatever order, if it is safe: the invariant holds in every state they reach. */
  lemma {:induction false} KeepRun(s: Station, steps: seq<Step>)
    requires Inv(s) && CanRun(s, steps)
    ensures Inv(Run(s, steps))
    decreases |steps|
  {
    hide Inv, Enabled, SafeStep, Apply;
    if steps != [] {
      KeepStep(s, steps[0]);
      KeepRun(Apply(s, steps[0]), steps[1..]);
    }
  }

  // ---------------------------------------------------------------- runs, safe or not

  lemma LeadsTwo(s: Station, a: Step, t: Station, b: Step)
    requires Enabled(s, a) && Apply(s, a) == t && Enabled(t, b)
    ensures Leads(s, [a, b], Apply(t, b))
  {
    hide Enabled, Apply;
    assert [a, b][1..] == [b] && [b][1..] == [];
    assert Leads(t, [b], Apply(t, b));
  }

  lemma {:induction false} LeadsOn(s: Station, a: seq<Step>, u: Station, b: seq<Step>, v: Station)
    requires Leads(s, a, u) && Leads(u, b, v)
    ensures Leads(s, a + b, v)
    decreases |a|
  {
    hide Enabled, Apply;
    if a == [] {
      assert a + b == b;
    } else {
      assert (a + b)[1..] == a[1..] + b;
      LeadsOn(Apply(s, a[0]), a[1..], u, b, v);
    }
  }

  lemma {:induction false} LeadsStep(s: Station, steps: seq<Step>, u: Station, st: Step)
    requires Leads(s, steps, u) && Enabled(u, st)
    ensures Leads(s, steps + [st], Apply(u, st))
  {
    hide Enabled, Apply;
    assert [st][1..] == [];
    assert Leads(u, [st], Apply(u, st));
    LeadsOn(s, steps, u, [st], Apply(u, st));
  }
}
