/** One station instance, one call at a time: executing, unlocking and initialising over the abstract registry. */
module GasStation {
  import opened Coins
  import opened SplitMath
  import opened SplitAccounts
  import opened Splitter
  import opened Pool
  import opened Ledger
  import opened Station
  import opened StationSteps

  /** What comes back from the node: effects, or an error that may hide effects. */
  datatype Response = Executed(effects: Effects) | Error(tookEffect: Option<Effects>)

  function EffectsOf(r: Response): Option<Effects> {
    match r
    case Executed(e) => Some(e)
    case Error(e) => e
  }

  /** The ledger's own rules for a payment: owned, distinct, and enough for the charge. */
  ghost predicate Payable(l: Ledger, payment: seq<ObjectId>, r: Response) {
    && DistinctIds(payment)
    && (EffectsOf(r).Some? ==>
         payment != [] && (forall id :: id in payment ==> id in l) && EffectsOf(r).value.net <= SumOf(l, payment))
  }

  ghost function LedgerAfter(l: Ledger, payment: seq<ObjectId>, r: Response): Ledger
    requires Payable(l, payment, r)
  {
    match EffectsOf(r)
    case None => l
    case Some(e) =>
      Post(l, SetOf(payment), [GasCoin(NetOf(SumOf(l, payment), e.net), payment[0], e.version, e.digest)])
  }

  /** What the executor takes for the payment's coins afterwards: computed on success, read again on error. */
  ghost predicate Updated(l: Ledger, m: Ledger, payment: seq<ObjectId>, r: Response, coins: seq<GasCoin>)
    requires Payable(l, payment, r)
  {
    match r
    case Executed(e) => coins == [GasCoin(NetOf(SumOf(l, payment), e.net), payment[0], e.version, e.digest)]
    case Error(_) => Lists(coins, m, SetOf(payment))
  }

  /** What the payment's coins hold together, as far as they exist; the station does not look which do. */
  function SumExisting(l: Ledger, ids: seq<ObjectId>): nat {
    if ids == [] then 0 else (if ids[0] in l then l[ids[0]].balance else 0) + SumExisting(l, ids[1..])
  }

  lemma {:induction false} SumAllExisting(l: Ledger, ids: seq<ObjectId>)
    requires forall id :: id in ids ==> id in l
    ensures SumExisting(l, ids) == SumOf(l, ids)
  {
    if ids != [] {
      SumAllExisting(l, ids[1..]);
    }
  }

  /** How a call of `run_once` can go; the last is the `Ok` of the code, and so is `NothingFound`. */
  datatype RunOutcome = Refused | ReplyLost | NothingFound | TooSmall | NeverEnds | Panicked | Complete

  class GasStation {
    const target: nat
    var pool: Registry
    var ledger: Ledger
    var rescans: nat

    constructor (target: nat)
      ensures this.target == target && pool == EMPTY && ledger == map[] && rescans == 0
    {
      this.target, pool, ledger, rescans := target, EMPTY, map[], 0;
    }

    /** `get_latest_gas_objects`, flattened: the objects that still exist, in any order. */
    method LatestGasObjects(ids: set<ObjectId>) returns (coins: seq<GasCoin>)
      requires forall id :: id in ledger ==> ledger[id].id == id
      ensures Lists(coins, ledger, ids)
    {
      hide Lists;
      coins := [];
      var left := ids;
      NoneListed(ledger);
      assert ids - left == {};
      while left != {}
        invariant left <= ids
        invariant Lists(coins, ledger, ids - left)
        decreases |left|
      {
        var id :| id in left;
        assert ids - (left - {id}) == (ids - left) + {id};
        NextListed(coins, ledger, ids - left, id);
        left := left - {id};
        if id in ledger {
          coins := coins + [ledger[id]];
        }
      }
      assert ids - {} == ids;
    }

    /** The sum over the payment coins before execution. */
    method TotalGasCoinBalance(payment: seq<ObjectId>) returns (total: nat)
      ensures total == SumExisting(ledger, payment)
    {
      total := 0;
      for i := 0 to |payment|
        invariant total + SumExisting(ledger, payment[i..]) == SumExisting(ledger, payment)
      {
        if payment[i] in ledger {
          total := total + ledger[payment[i]].balance;
        }
        assert payment[i..][1..] == payment[i + 1..];
      }
    }

    /**
     * `execute_transaction`. The payment is the caller's; nothing compares it with the reservation. Every
     * coin of it that is left comes back to the pool, or none does and a rescan is asked for.
     */
    method ExecuteTransaction(id: ReservationId, payment: seq<ObjectId>, response: Response)
      returns (ok: bool, ghost updated: seq<GasCoin>)
      requires Payable(ledger, payment, response) && (forall c :: c in ledger ==> ledger[c].id == c)
      modifies this
      ensures id !in old(pool).reservations ==>
        !ok && pool == old(pool) && ledger == old(ledger) && rescans == old(rescans)
      ensures id in old(pool).reservations ==>
        && (ok <==> response.Executed?)
        && ledger == LedgerAfter(old(ledger), payment, response)
        && Updated(old(ledger), ledger, payment, response, updated)
        && (if Oversized(updated, THRESHOLD_FACTOR * target)
            then pool == Ready(old(pool), id).1 && rescans == old(rescans) + 1
            else pool == Add(Ready(old(pool), id).1, updated).1 && rescans == old(rescans))
    {
      updated := [];
      var claim := Ready(pool, id);
      pool := claim.1;
      if !claim.0 {
        return false, updated;
      }
      var total := TotalGasCoinBalance(payment);
      if EffectsOf(response).Some? {
        SumAllExisting(ledger, payment);
      }
      ghost var before := ledger;
      ledger := LedgerStep(ledger, payment, response, total);
      var coins: seq<GasCoin>;
      match response {
        case Executed(e) => coins := [GasCoin(NetOf(total, e.net), payment[0], e.version, e.digest)];
        case Error(_) =>
          StillNamed(before, payment, response);
          coins := LatestGasObjects(set c | c in payment);
      }
      var oversized := CountOversized(coins);
      if 0 < oversized {
        rescans := rescans + 1;
      } else {
        ReleaseGasCoins(coins);
      }
      return response.Executed?, coins;
    }

    /** The node's side of the call. */
    static method LedgerStep(l: Ledger, payment: seq<ObjectId>, response: Response, total: nat) returns (m: Ledger)
      requires Payable(l, payment, response) && (EffectsOf(response).Some? ==> total == SumOf(l, payment))
      ensures m == LedgerAfter(l, payment, response)
    {
      var effects := EffectsOf(response);
      if effects.None? {
        return l;
      }
      var spent := set c | c in payment;
      assert spent == SetOf(payment);
      var merged := GasCoin(NetOf(total, effects.value.net), payment[0], effects.value.version, effects.value.digest);
      m := Post(l, spent, [merged]);
    }

    method CountOversized(coins: seq<GasCoin>) returns (count: nat)
      ensures 0 < count <==> Oversized(coins, THRESHOLD_FACTOR * target)
    {
      count := 0;
      for i := 0 to |coins|
        invariant 0 < count <==> Oversized(coins[..i], THRESHOLD_FACTOR * target)
      {
        assert coins[..i + 1] == coins[..i] + [coins[i]];
        if THRESHOLD_FACTOR * target < coins[i].balance {
          count := count + 1;
          assert coins[i] in coins[..i + 1];
        }
      }
      assert coins[..|coins|] == coins;
    }

    method ReleaseGasCoins(coins: seq<GasCoin>)
      modifies this`pool
      ensures pool == Add(old(pool), coins).1
    {
      pool := Add(pool, coins).1;
    }

    /** One turn of the coin unlocker. */
    method UnlockExpired(now: nat) returns (released: seq<GasCoin>)
      requires forall c :: c in ledger ==> ledger[c].id == c
      modifies this`pool
      ensures Lists(released, ledger, ClaimedIds(old(pool), now))
      ensures pool ==
        if ClaimedIds(old(pool), now) == {} then Expire(old(pool), now) else Add(Expire(old(pool), now), released).1
    {
      var unlocked := set r, c | r in Pool.Claimed(pool, now) && c in pool.reservations[r] :: c;
      assert unlocked == ClaimedIds(pool, now);
      pool := Expire(pool, now);
      released := [];
      if unlocked != {} {
        released := LatestGasObjects(unlocked);
        ReleaseGasCoins(released);
      } else {
        assert IdSet([]) == {} * ledger.Keys;
      }
    }

    /** `get_all_owned_iota_coins_above_balance_threshold`. */
    method OwnedCoins(threshold: nat) returns (coins: seq<GasCoin>)
      requires forall c :: c in ledger ==> ledger[c].id == c
      ensures Lists(coins, ledger, Selected(ledger, threshold))
    {
      var selected := set id | id in ledger && threshold <= ledger[id].balance;
      assert selected == Selected(ledger, threshold);
      coins := LatestGasObjects(selected);
    }

    /**
     * `run_once`. With nothing to do, with a target too small, or complete it leaves the lock free. A lost reply
     * of the lock script, a split that never ends and a registry without statistics, which makes the code panic,
     * leave it taken. What a complete run adds is exactly what it should be if and only if no error hid a split;
     * on the ledger the scanned coins are then replaced by what it adds and by what was hidden.
     */
    method RunOnce(init: bool, now: nat, replyLost: bool, gasCost: nat, nextObject: ObjectId)
      returns (outcome: RunOutcome, result: seq<GasCoin>, coins: seq<GasCoin>, lost: seq<GasCoin>,
               ghost made: nat, ghost gas: nat, ghost count: nat)
      requires forall c :: c in ledger ==> ledger[c].id == c
      modifies this`pool, this`ledger
      ensures outcome == ReplyLost <==> replyLost
      ensures outcome == ReplyLost ==> pool == AcquireInitLock(old(pool), now, MAX_INIT_DURATION).1
      ensures outcome == Refused <==> !replyLost && Live(old(pool).initLock, now)
      ensures outcome == Refused ==> pool == old(pool)
      ensures outcome != Refused && outcome != ReplyLost ==>
        && Lists(coins, old(ledger), Selected(old(ledger), if init then 0 else THRESHOLD_FACTOR * target))
        && (outcome == NothingFound <==> coins == [])
        && (coins != [] ==> (outcome == TooSmall <==> target * 99 <= gasCost))
      ensures outcome.Refused? || outcome.ReplyLost? || outcome.NothingFound? || outcome.TooSmall? ==>
        ledger == old(ledger)
      ensures outcome == Panicked || outcome == Complete ==> ledger == Post(old(ledger), IdSet(coins), result + lost)
      ensures outcome == NothingFound || outcome == TooSmall ==> pool == ReleaseInitLock(old(pool))
      ensures outcome == NeverEnds ==> lost != [] && pool == AcquireInitLock(old(pool), now, MAX_INIT_DURATION).1
      ensures outcome == Panicked ==> !StatsPresent(old(pool)) && pool.initLock == Some(now + MAX_INIT_DURATION)
      ensures outcome == Panicked || outcome == Complete ==>
        0 < target && RunBooks(coins, result, lost, gasCost, target, nextObject, made, gas, count)
      ensures outcome == Complete ==>
        (lost == [] <==> SplitDone(coins, result, gasCost, target, nextObject, made, gas, count))
      ensures outcome == Complete ==>
        pool == ReleaseInitLock(if result == [] then old(pool) else Add(old(pool), result).1)
    {
      hide SplitDone, RunBooks, Lists, Selected, Add, StatsPresent, Post;
      result, coins, lost, made, gas, count := [], [], [], 0, 0, 0;
      var attempt := AcquireInitLock(pool, now, MAX_INIT_DURATION);
      pool := attempt.1;
      if replyLost {
        outcome := ReplyLost;
        return;
      }
      if !attempt.0 {
        outcome := Refused;
        return;
      }
      var found := OwnedCoins(if init then 0 else THRESHOLD_FACTOR * target);
      coins := found;
      if found == [] {
        pool := ReleaseInitLock(pool);
        outcome := NothingFound;
        return;
      }
      if target * 99 <= gasCost {
        pool := ReleaseInitLock(pool);
        outcome := TooSmall;
        return;
      }
      outcome, result, lost, made, gas, count := SplitAndAdd(found, gasCost, nextObject);
      if outcome != NeverEnds {
        ledger := Post(ledger, set c | c in found :: c.id, result + lost);
      }
      AddBesideLock(old(pool), attempt.1.initLock, result);
      if outcome == Complete {
        pool := ReleaseInitLock(pool);
      }
    }

    /** The part of `run_once` between the guard and the release of the lock. */
    method SplitAndAdd(coins: seq<GasCoin>, gasCost: nat, nextObject: ObjectId)
      returns (outcome: RunOutcome, result: seq<GasCoin>, lost: seq<GasCoin>, ghost made: nat, ghost gas: nat,
        ghost count: nat)
      requires 0 < target
      modifies this`pool
      ensures outcome == NeverEnds || outcome == Panicked || outcome == Complete
      ensures pool.initLock == old(pool).initLock
      ensures outcome == NeverEnds ==> lost != [] && pool == old(pool)
      ensures outcome != NeverEnds ==> RunBooks(coins, result, lost, gasCost, target, nextObject, made, gas, count)
      ensures outcome != NeverEnds ==>
        (lost == [] <==> SplitDone(coins, result, gasCost, target, nextObject, made, gas, count))
      ensures outcome == Panicked ==> !StatsPresent(old(pool))
      ensures outcome == Complete ==> pool == if result == [] then old(pool) else Add(old(pool), result).1
    {
      hide SplitDone, RunBooks, Total;
      var env := new CoinSplitEnv(target, gasCost, nextObject);
      var ended;
      ended, result := env.SplitGasCoins(coins);
      lost := env.lost;
      made, gas, count := env.nextObject - nextObject, env.gasSpent, env.transactions;
      if !ended {
        outcome := NeverEnds;
        return;
      }
      var added := AddInChunks(result);
      outcome := if added then Complete else Panicked;
    }

    /** The loop over chunks: the same as adding everything at once, unless the first chunk already fails. */
    method AddInChunks(coins: seq<GasCoin>) returns (done: bool)
      modifies this`pool
      ensures done <==> coins == [] || StatsPresent(old(pool))
      ensures done ==> pool == if coins == [] then old(pool) else Add(old(pool), coins).1
      ensures !done ==> pool == Add(old(pool), coins[..if |coins| < CHUNK then |coins| else CHUNK]).1
    {
      hide Total;
      ghost var before := pool;
      var i := 0;
      while i < |coins|
        invariant 0 <= i <= |coins|
        invariant i == 0 ==> pool == before
        invariant 0 < i ==> StatsPresent(before) && pool == Add(before, coins[..i]).1
      {
        var n := if |coins| - i < CHUNK then |coins| - i else CHUNK;
        var reply := Add(pool, coins[i..i + n]);
        pool := reply.1;
        assert coins[..i + n] == coins[..i] + coins[i..i + n];
        if 0 < i {
          AddTwice(before, coins[..i], coins[i..i + n]);
        } else {
          assert coins[..0] + coins[0..n] == coins[0..n];
        }
        if reply.0.None? {
          return false;
        }
        i := i + n;
      }
      assert coins[..|coins|] == coins;
      done := true;
    }
  }

  /** Adding neither looks at the init lock nor changes it. */
  lemma AddBesideLock(p: Registry, lock: Option<nat>, coins: seq<GasCoin>)
    ensures Add(p.(initLock := lock), coins).1 == Add(p, coins).1.(initLock := lock)
    ensures StatsPresent(p.(initLock := lock)) <==> StatsPresent(p)
  {
    hide Total;
    var total, sum, count := p.totalBalance, Total(coins), p.coinCount;
    if total.None? {
    } else if count.None? {
    } else {
    }
  }

  lemma AddTwice(p: Registry, a: seq<GasCoin>, b: seq<GasCoin>)
    requires StatsPresent(p) && a != []
    ensures Add(Add(p, a).1, b).1 == Add(p, a + b).1
  {
    TotalConcat(a, b);
    assert (p.available + a) + b == p.available + (a + b);
  }

  lemma NoneListed(l: Ledger)
    ensures Lists([], l, {})
  {
  }

  lemma NextListed(coins: seq<GasCoin>, l: Ledger, ids: set<ObjectId>, id: ObjectId)
    requires Lists(coins, l, ids) && id !in ids && (id in l ==> l[id].id == id)
    ensures Lists(if id in l then coins + [l[id]] else coins, l, ids + {id})
  {
    if id in l {
      assert l[id] in [l[id]];
      assert IdSet([l[id]]) == {id};
      IdSetConcat(coins, [l[id]]);
      DistinctConcat(coins, [l[id]]);
      assert (ids + {id}) * l.Keys == ids * l.Keys + {id};
    } else {
      assert (ids + {id}) * l.Keys == ids * l.Keys;
    }
  }

  lemma StillNamed(l: Ledger, payment: seq<ObjectId>, r: Response)
    requires Payable(l, payment, r) && (forall id :: id in l ==> l[id].id == id)
    ensures var m := LedgerAfter(l, payment, r); forall id :: id in m ==> m[id].id == id
  {
    if EffectsOf(r).Some? {
      var e := EffectsOf(r).value;
      var coin := GasCoin(NetOf(SumOf(l, payment), e.net), payment[0], e.version, e.digest);
      PostContents(l, SetOf(payment), [coin]);
    }
  }

  // ---------------------------------------------------------------- one call is a run of atomic steps

  /** Claimed and queried. */
  lemma ClaimRun(s: Station, id: ReservationId) returns (u: Station)
    requires id in s.pool.reservations && s.nextTask !in s.tasks
    requires forall c :: c in s.pool.reservations[id] ==> c in s.ledger
    ensures Leads(s, [ReadyForExecution(id), QueryTotal(s.nextTask)], u)
    ensures
      var payment := s.pool.reservations[id];
      && u.pool == Ready(s.pool, id).1 && u.ledger == s.ledger && u.target == s.target
      && u.tasks == s.tasks[s.nextTask := Queried(payment, SumOf(s.ledger, payment))]
  {
    hide SumOf, At, Own;
    var t := DoReady(s, id);
    LeadsTwo(s, ReadyForExecution(id), t, QueryTotal(s.nextTask));
    u := Apply(t, QueryTotal(s.nextTask));
  }

  /** Executed, and released if it is not oversized. */
  lemma ExecuteRun(s: Station, k: nat, e: Effects) returns (steps: seq<Step>, u: Station)
    requires k in s.tasks && s.tasks[k].Queried? && CanPay(s, s.tasks[k].ids, e)
    requires s.tasks[k].total == SumOf(s.ledger, s.tasks[k].ids)
    ensures Leads(s, steps, u)
    ensures
      var coin := Smashed(s, s.tasks[k].ids, e);
      && u.pool == (if Oversized([coin], Threshold(s)) then s.pool else Add(s.pool, [coin]).1)
      && u.ledger == Post(s.ledger, SetOf(s.tasks[k].ids), [coin]) && u.tasks == s.tasks - {k}
  {
    hide SumOf, At, Own, SetOf, Post, Oversized, Total;
    var t := DoExecute(s, k, e);
    if Oversized([Smashed(s, s.tasks[k].ids, e)], Threshold(s)) {
      steps, u := [ExecuteOk(k, e)], t;
      assert steps[1..] == [];
    } else {
      LeadsTwo(s, ExecuteOk(k, e), t, ReleaseCoins(k));
      steps, u := [ExecuteOk(k, e), ReleaseCoins(k)], DoRelease(t, k);
    }
  }

  /** Failed and read again: the coins are to be released, or were dropped as oversized. */
  lemma FailRun(s: Station, k: nat, e: Option<Effects>, listing: seq<GasCoin>) returns (u: Station)
    requires k in s.tasks && s.tasks[k].Queried? && (e.Some? ==> CanPay(s, s.tasks[k].ids, e.value))
    requires Lists(listing, DoFail(s, k, e).ledger, SetOf(s.tasks[k].ids))
    ensures Leads(s, [ExecuteErr(k, e), ReadLatest(k, listing)], u)
    ensures u.pool == s.pool && u.ledger == DoFail(s, k, e).ledger
    ensures u.tasks == if Oversized(listing, Threshold(s)) then s.tasks - {k} else s.tasks[k := Settled(listing)]
  {
    hide SumOf, Own, SetOf, Post, Oversized, Lists, CanPay, IdSet;
    var t := DoFail(s, k, e);
    LeadsTwo(s, ExecuteErr(k, e), t, ReadLatest(k, listing));
    u := DoReadLatest(t, k, listing);
    assert t.tasks - {k} == s.tasks - {k};
  }

  lemma ReleaseRun(s: Station, k: nat) returns (u: Station)
    requires k in s.tasks && s.tasks[k].Settled?
    ensures Leads(s, [ReleaseCoins(k)], u)
    ensures u.pool == Add(s.pool, s.tasks[k].coins).1 && u.ledger == s.ledger && u.tasks == s.tasks - {k}
  {
    hide At, Own, Total;
    u := DoRelease(s, k);
    assert [ReleaseCoins(k)][1..] == [];
  }

  /**
   * The atomic steps of `Station` for one execution, taken without interruption, leave the registry and
   * the ledger as the method above does when the payment is what was reserved, oversized or not.
   */
  lemma ExecutionIsARun(s: Station, id: ReservationId, response: Response, listing: seq<GasCoin>)
    returns (steps: seq<Step>, u: Station)
    requires id in s.pool.reservations && s.nextTask !in s.tasks
    requires
      var payment := s.pool.reservations[id];
      && Payable(s.ledger, payment, response) && (forall c :: c in payment ==> c in s.ledger)
      && Updated(s.ledger, LedgerAfter(s.ledger, payment, response), payment, response, listing)
    ensures Leads(s, steps, u)
    ensures u.ledger == LedgerAfter(s.ledger, s.pool.reservations[id], response)
    ensures u.pool ==
      if Oversized(listing, Threshold(s)) then Ready(s.pool, id).1 else Add(Ready(s.pool, id).1, listing).1
    ensures u.tasks == s.tasks
  {
    hide SumOf, Post, SetOf, Lists, Oversized, Leads, Add;
    var k := s.nextTask;
    var q := ClaimRun(s, id);
    steps := [ReadyForExecution(id), QueryTotal(k)];
    match response {
      case Executed(e) =>
        var more;
        more, u := ExecuteRun(q, k, e);
        LeadsOn(s, steps, q, more, u);
        steps := steps + more;
      case Error(e) =>
        u := FailRun(q, k, e, listing);
        LeadsOn(s, steps, q, [ExecuteErr(k, e), ReadLatest(k, listing)], u);
        steps := steps + [ExecuteErr(k, e), ReadLatest(k, listing)];
        if !Oversized(listing, Threshold(s)) {
          var f := u;
          u := ReleaseRun(f, k);
          LeadsOn(s, steps, f, [ReleaseCoins(k)], u);
          steps := steps + [ReleaseCoins(k)];
        }
    }
    assert u.tasks == s.tasks;
  }

  /** So is one turn of the unlocker that finds something due. */
  lemma UnlockIsARun(s: Station, now: nat, listing: seq<GasCoin>) returns (steps: seq<Step>, u: Station)
    requires s.nextTask !in s.tasks && Pool.Claimed(s.pool, now) != {}
    requires Lists(listing, s.ledger, ClaimedIds(s.pool, now))
    ensures Leads(s, steps, u)
    ensures u.pool == Add(Expire(s.pool, now), listing).1 && u.ledger == s.ledger && u.tasks == s.tasks
  {
    hide Own, Oversized, Lists, Add, Due, ClaimedIds;
    var k := s.nextTask;
    var t := DoExpire(s, now);
    LeadsTwo(s, ExpireCoins(now), t, ReadLatest(k, listing));
    var f := DoReadLatest(t, k, listing);
    u := ReleaseRun(f, k);
    LeadsOn(s, [ExpireCoins(now), ReadLatest(k, listing)], f, [ReleaseCoins(k)], u);
    steps := [ExpireCoins(now), ReadLatest(k, listing)] + [ReleaseCoins(k)];
    assert u.tasks == s.tasks;
  }
}
