/** `RedisStorage` over one registry namespace: the Lua scripts on strings, and the Rust around them. */
module RedisStorage {
  import opened Coins
  import opened CoinCodec
  import opened Pool

  /** What `reserve_gas_coins.lua` returns; `id` is -1 in maintenance and 0 when the budget is not reached. */
  datatype ScriptReply = Reply(id: int, coins: seq<string>, newBalance: int, newCount: int) | ScriptFailed

  datatype ReserveResult = Ok(id: ReservationId, coins: seq<GasCoin>) | Maintenance | Unable | Failed

  function Texts(coins: seq<GasCoin>): (texts: seq<string>)
    ensures |texts| == |coins| && forall i :: 0 <= i < |coins| ==> texts[i] == Format(coins[i])
  {
    seq(|coins|, i requires 0 <= i < |coins| => Format(coins[i]))
  }

  lemma TextsConcat(a: seq<GasCoin>, b: seq<GasCoin>)
    ensures Texts(a + b) == Texts(a) + Texts(b)
  {
  }

  lemma TextsSlice(coins: seq<GasCoin>, i: nat, j: nat)
    requires i <= j <= |coins|
    ensures Texts(coins)[i..j] == Texts(coins[i..j])
  {
  }

  lemma IdTextsOfPrefix(coins: seq<GasCoin>, k: nat)
    requires k < |coins|
    ensures IdTexts(IdsOf(coins[..k])) + [IdText(coins[k].id)] == IdTexts(IdsOf(coins[..k + 1]))
  {
  }

  lemma TotalOfPrefix(coins: seq<GasCoin>, k: nat)
    requires k < |coins|
    ensures Total(coins[..k + 1]) == Total(coins[..k]) + coins[k].balance
  {
    assert coins[..k + 1] == coins[..k] + [coins[k]];
    TotalConcat(coins[..k], [coins[k]]);
    assert [coins[k]][1..] == [];
  }

  lemma EmptyPrefix(coins: seq<GasCoin>)
    ensures coins[..0] == [] && coins[0..] == coins && coins[|coins|..] == [] && coins[..|coins|] == coins
    ensures Total(coins[..0]) == 0 && Texts(coins[..0]) == [] && IdTexts(IdsOf(coins[..0])) == []
  {
  }

  lemma PushFront(coins: seq<GasCoin>, i: nat, rest: seq<GasCoin>)
    requires i < |coins|
    ensures [Texts(coins)[i]] + Texts(coins[i + 1..] + rest) == Texts(coins[i..] + rest)
  {
    assert coins[i..] + rest == [coins[i]] + (coins[i + 1..] + rest);
    TextsConcat([coins[i]], coins[i + 1..] + rest);
    assert Texts([coins[i]]) == [Format(coins[i])];
  }

  lemma PushRear(coins: seq<GasCoin>, more: seq<GasCoin>, i: nat)
    requires i < |more|
    ensures Texts(coins + more[..i]) + [Texts(more)[i]] == Texts(coins + more[..i + 1])
  {
    assert coins + more[..i + 1] == (coins + more[..i]) + [more[i]];
    TextsConcat(coins + more[..i], [more[i]]);
    assert Texts([more[i]]) == [Format(more[i])];
  }

  /** Both Lua readings of the `i`-th text of a formatted list. */
  lemma ReadsBack(texts: seq<string>, coins: seq<GasCoin>, i: nat)
    requires texts == Texts(coins) && i < |coins|
    ensures LuaBalance(texts[i]) == Some(coins[i].balance)
    ensures LuaObjectId(texts[i]) == Some(IdText(coins[i].id))
  {
    LuaReadsTheSame(coins[i]);
  }

  lemma NextTexts(coins: seq<GasCoin>, k: nat)
    requires k < |coins|
    ensures Texts(coins[..k]) + [Format(coins[k])] == Texts(coins[..k + 1])
  {
  }

  /** The id lists of the reservations in `order`, end to end. */
  ghost function Flatten(lent: map<ReservationId, seq<ObjectId>>, order: seq<ReservationId>): seq<ObjectId>
    requires forall id :: id in order ==> id in lent
  {
    if order == [] then []
    else Flatten(lent, order[..|order| - 1]) + lent[order[|order| - 1]]
  }

  /** What `Reserve` does once the coins are popped, with the reply in the script's own form. */
  ghost function Committed(p: Registry, taken: seq<GasCoin>, expiration: nat): (ScriptReply, Registry) {
    if p.totalBalance.None? then (ScriptFailed, p) else
    var newBalance := p.totalBalance.value - Total(taken);
    if p.coinCount.None? then (ScriptFailed, p.(totalBalance := Some(newBalance))) else
    var newCount := p.coinCount.value - |taken|;
    var id := p.lastReservation + 1;
    (Reply(id, Texts(taken), newBalance, newCount),
     p.(totalBalance := Some(newBalance), coinCount := Some(newCount), lastReservation := id,
        reservations := p.reservations[id := IdsOf(taken)], expirations := p.expirations[id := expiration]))
  }

  class RedisStorage {
    var availableGasCoins: seq<string>
    var coinCount: Option<int>
    var totalBalance: Option<int>
    var reservations: map<ReservationId, string>
    var expirationQueue: map<ReservationId, nat>
    var nextReservationId: Option<nat>
    var initialized: bool
    var schemaVersion: Option<nat>
    var initLock: Option<nat>
    var maintenanceLock: Option<nat>
    // the same list and the same reservations before formatting
    ghost var coins: seq<GasCoin>
    ghost var lent: map<ReservationId, seq<ObjectId>>

    ghost predicate Valid()
      reads this
    {
      && availableGasCoins == Texts(coins)
      && (forall c :: c in coins ==> FitsU64(c))
      && reservations.Keys == lent.Keys
      && (forall id :: id in lent ==> reservations[id] == JoinIds(lent[id]))
    }

    /** The registry that these strings stand for. */
    ghost function Abs(): Registry
      reads this
    {
      Registry(coins, coinCount, totalBalance, lent, expirationQueue,
               if nextReservationId.Some? then nextReservationId.value else 0,
               initialized, schemaVersion, initLock, maintenanceLock)
    }

    constructor ()
      ensures Valid() && Abs() == EMPTY
    {
      availableGasCoins, coins := [], [];
      coinCount, totalBalance, nextReservationId := None, None, None;
      reservations, lent, expirationQueue := map[], map[], map[];
      initialized, schemaVersion, initLock, maintenanceLock := false, None, None, None;
    }

    /** The first loop of `reserve_gas_coins.lua`. */
    method PopCoins(targetBudget: nat) returns (total: nat, popped: seq<string>, objectIds: seq<string>)
      requires Valid()
      modifies this`availableGasCoins, this`coins
      ensures Valid()
      ensures
        var k := Taken(old(coins), targetBudget, MAX_GAS_PER_QUERY);
        && popped == Texts(old(coins)[..k]) && coins == old(coins)[k..]
        && total == Total(old(coins)[..k]) && objectIds == IdTexts(IdsOf(old(coins)[..k]))
    {
      hide Format, LuaBalance, LuaObjectId, IdText, Total, Taken;
      ghost var all := coins;
      EmptyPrefix(all);
      total, popped, objectIds := 0, [], [];
      while total < targetBudget && |popped| < MAX_GAS_PER_QUERY
        invariant |popped| <= |all| && |popped| <= MAX_GAS_PER_QUERY
        invariant coins == all[|popped|..] && Valid()
        invariant popped == Texts(all[..|popped|]) && total == Total(all[..|popped|])
        invariant objectIds == IdTexts(IdsOf(all[..|popped|]))
        invariant forall j :: 0 <= j < |popped| ==> Total(all[..j]) < targetBudget
        decreases MAX_GAS_PER_QUERY - |popped|
      {
        if availableGasCoins == [] { break; }
        var coin := availableGasCoins[0];
        ghost var k := |popped|;
        ReadsBack(availableGasCoins, coins, 0);
        TextsSlice(coins, 1, |coins|);
        availableGasCoins, coins := availableGasCoins[1..], coins[1..];
        NextTexts(all, k);
        TotalOfPrefix(all, k);
        IdTextsOfPrefix(all, k);
        total := total + LuaBalance(coin).value;
        popped := popped + [coin];
        objectIds := objectIds + [LuaObjectId(coin).value];
      }
      TakenIsUnique(all, targetBudget, MAX_GAS_PER_QUERY, |popped|);
    }

    /** The push-back loop: the popped coins return to the head in their original order. */
    method PushBack(popped: seq<string>, ghost poppedCoins: seq<GasCoin>)
      requires Valid() && popped == Texts(poppedCoins)
      requires forall c :: c in poppedCoins ==> FitsU64(c)
      modifies this`availableGasCoins, this`coins
      ensures Valid() && coins == poppedCoins + old(coins)
    {
      hide Format, Texts;
      ghost var rest := coins;
      var i := |popped|;
      assert poppedCoins[i..] + rest == rest;
      while 0 < i
        invariant 0 <= i <= |popped|
        invariant availableGasCoins == Texts(poppedCoins[i..] + rest)
      {
        i := i - 1;
        PushFront(poppedCoins, i, rest);
        availableGasCoins := [popped[i]] + availableGasCoins;
      }
      assert poppedCoins[0..] == poppedCoins;
      coins := poppedCoins + rest;
    }

    method ReserveScript(targetBudget: nat, expiration: nat, now: nat) returns (reply: ScriptReply)
      requires Valid()
      modifies this
      ensures Valid() && Abs() == Reserve(old(Abs()), targetBudget, expiration, now).1
      ensures reply == match Reserve(old(Abs()), targetBudget, expiration, now).0
        case InMaintenance => Reply(-1, [], 0, 0)
        case NotEnough => Reply(0, [], 0, 0)
        case ScriptError => ScriptFailed
        case Reserved(id, taken, newBalance, newCount) => Reply(id, Texts(taken), newBalance, newCount)
    {
      hide Taken, Total, Format, IdText, JoinCommas, Texts;
      if maintenanceLock.Some? && maintenanceLock.value >= now {
        return Reply(-1, [], 0, 0);
      }
      ghost var all := coins;
      var total, popped, objectIds := PopCoins(targetBudget);
      ghost var k := Taken(all, targetBudget, MAX_GAS_PER_QUERY);
      if total < targetBudget {
        PushBack(popped, all[..k]);
        assert all[..k] + all[k..] == all;
        return Reply(0, [], 0, 0);
      }
      reply := Commit(total, popped, objectIds, expiration, all[..k]);
    }

    /** The rest of the script, once the budget is reached: statistics, id, reservation key, queue entry. */
    method Commit(total: nat, popped: seq<string>, objectIds: seq<string>, expiration: nat, ghost taken: seq<GasCoin>)
      returns (reply: ScriptReply)
      requires Valid() && popped == Texts(taken) && objectIds == IdTexts(IdsOf(taken)) && total == Total(taken)
      modifies this`totalBalance, this`coinCount, this`nextReservationId, this`reservations, this`lent,
        this`expirationQueue
      ensures Valid()
      ensures (reply, Abs()) == Committed(old(Abs()), taken, expiration)
    {
      hide Total, IdText, JoinCommas, Texts, IdTexts, FitsU64, IdsOf;
      if totalBalance == None { return ScriptFailed; }
      var newTotalBalance := totalBalance.value - total;
      totalBalance := Some(newTotalBalance);
      if coinCount == None { return ScriptFailed; }
      var newCoinCount := coinCount.value - |popped|;
      coinCount := Some(newCoinCount);
      nextReservationId := Some(if nextReservationId.Some? then nextReservationId.value + 1 else 1);
      var id := nextReservationId.value;
      reservations := reservations[id := JoinCommas(objectIds)];
      lent := lent[id := IdsOf(taken)];
      expirationQueue := expirationQueue[id := expiration];
      return Reply(id, popped, newTotalBalance, newCoinCount);
    }

    /** The closure that parses the returned strings. */
    method ParseCoins(texts: seq<string>, ghost formatted: seq<GasCoin>) returns (parsed: seq<GasCoin>)
      requires texts == Texts(formatted) && forall c :: c in formatted ==> FitsU64(c)
      ensures parsed == formatted
    {
      hide Format, RustParse;
      parsed := [];
      for i := 0 to |texts|
        invariant parsed == formatted[..i]
      {
        RustRoundTrip(formatted[i]);
        parsed := parsed + [RustParse(texts[i]).value];
      }
    }

    /** `Storage::reserve_gas_coins`, at `nowMs` milliseconds. */
    method ReserveGasCoins(targetBudget: nat, reservedDurationMs: nat, nowMs: nat) returns (result: ReserveResult)
      requires Valid()
      modifies this
      ensures Valid()
      ensures Abs() == Reserve(old(Abs()), targetBudget, nowMs + reservedDurationMs, nowMs / 1000).1
      ensures result == match Reserve(old(Abs()), targetBudget, nowMs + reservedDurationMs, nowMs / 1000).0
        case InMaintenance => Maintenance
        case NotEnough => Unable
        case ScriptError => Failed
        case Reserved(id, taken, _, _) => if taken == [] then Unable else Ok(id, taken)
    {
      hide Format, RustParse, Total, Taken, Texts, JoinIds;
      ghost var p := Abs();
      var reply := ReserveScript(targetBudget, nowMs + reservedDurationMs, nowMs / 1000);
      if reply == ScriptFailed { return Failed; }
      if reply.id == -1 { return Maintenance; }
      if reply.coins == [] { return Unable; }
      ghost var taken := Reserve(p, targetBudget, nowMs + reservedDurationMs, nowMs / 1000).0.coins;
      var parsed := ParseCoins(reply.coins, taken);
      return Ok(reply.id, parsed);
    }

    method ReadyForExecution(id: ReservationId) returns (ok: bool)
      requires Valid()
      modifies this`reservations, this`lent
      ensures Valid() && (ok, Abs()) == Ready(old(Abs()), id)
    {
      ok := id in reservations;
      if ok {
        reservations, lent := reservations - {id}, lent - {id};
      }
    }

    /** `add_new_coins`: formats on the Rust side, pushes and counts in the script. */
    method AddNewCoins(newCoins: seq<GasCoin>) returns (totals: Option<(int, int)>)
      requires Valid() && forall c :: c in newCoins ==> FitsU64(c)
      modifies this
      ensures Valid() && (totals, Abs()) == Add(old(Abs()), newCoins)
    {
      hide Format, Total, Texts;
      var formatted := Texts(newCoins);
      var sum := PushNew(formatted, newCoins);
      if 0 < |formatted| {
        initialized := true;
        if schemaVersion == None { schemaVersion := Some(1); }
      }
      if totalBalance == None { return None; }
      totalBalance := Some(totalBalance.value + sum);
      if coinCount == None { return None; }
      coinCount := Some(coinCount.value + |formatted|);
      return Some((totalBalance.value, coinCount.value));
    }

    /** The loop of `add_new_coins.lua`. */
    method PushNew(formatted: seq<string>, ghost newCoins: seq<GasCoin>) returns (sum: nat)
      requires Valid() && formatted == Texts(newCoins) && forall c :: c in newCoins ==> FitsU64(c)
      modifies this`availableGasCoins, this`coins
      ensures Valid() && coins == old(coins) + newCoins && sum == Total(newCoins)
    {
      hide Format, LuaBalance, Total, Texts;
      sum := 0;
      EmptyPrefix(newCoins);
      ghost var before := coins;
      assert before + newCoins[..0] == before;
      for i := 0 to |formatted|
        invariant sum == Total(newCoins[..i])
        invariant availableGasCoins == Texts(before + newCoins[..i])
      {
        ReadsBack(formatted, newCoins, i);
        TotalOfPrefix(newCoins, i);
        sum := sum + LuaBalance(formatted[i]).value;
        PushRear(before, newCoins, i);
        availableGasCoins := availableGasCoins + [formatted[i]];
      }
      coins := before + newCoins;
    }

    /**
     * `expire_coins.lua`: one comma-joined list per claimed reservation. Redis returns the due members by
     * score; the order is left open here, and `order` names the one that was used.
     */
    method ExpireScript(now: nat) returns (lists: seq<string>, ghost order: seq<ReservationId>)
      requires Valid()
      modifies this`reservations, this`lent, this`expirationQueue
      ensures Valid() && Abs() == Expire(old(Abs()), now)
      ensures DistinctIds(order) && (set id | id in order) == Claimed(old(Abs()), now)
      ensures forall id :: id in order ==> id in old(lent)
      ensures |lists| == |order| && forall i :: 0 <= i < |order| ==> lists[i] == JoinIds(old(lent)[order[i]])
    {
      var due := set id | id in expirationQueue && expirationQueue[id] <= now;
      assert due == Due(Abs(), now);
      lists, order := TakeOut(due);
      expirationQueue := expirationQueue - due;
    }

    /** The loop of `expire_coins.lua` over the due members. */
    method TakeOut(due: set<ReservationId>) returns (lists: seq<string>, ghost order: seq<ReservationId>)
      requires Valid()
      modifies this`reservations, this`lent
      ensures Valid() && lent == old(lent) - (set id | id in due && id in old(lent))
      ensures DistinctIds(order) && (set id | id in order) == (set id | id in due && id in old(lent))
      ensures forall id :: id in order ==> id in old(lent)
      ensures |lists| == |order| && forall i :: 0 <= i < |order| ==> lists[i] == JoinIds(old(lent)[order[i]])
    {
      hide JoinIds;
      var elements := due;
      lists, order := [], [];
      ghost var start := lent;
      while elements != {}
        invariant elements <= due
        invariant reservations.Keys == start.Keys - (due - elements)
        invariant forall id :: id in reservations ==> reservations[id] == JoinIds(start[id])
        invariant forall id :: id in order <==> id in due - elements && id in start
        invariant forall id :: id in order ==> id in start
        invariant DistinctIds(order) && |lists| == |order|
        invariant forall i :: 0 <= i < |order| ==> lists[i] == JoinIds(start[order[i]])
        decreases |elements|
      {
        var id :| id in elements;
        elements := elements - {id};
        if id in reservations {
          lists, order := lists + [reservations[id]], order + [id];
          reservations := reservations - {id};
        }
      }
      lent := start - due;
      assert lent == start - (set id | id in due && id in start);
    }

    /** The flat list of ids that the Rust side makes of the script's answer; `None` is its panic. */
    method ExpireCoins(now: nat) returns (ids: Option<seq<ObjectId>>, ghost order: seq<ReservationId>)
      requires Valid()
      modifies this`reservations, this`lent, this`expirationQueue
      ensures Valid() && Abs() == Expire(old(Abs()), now)
      ensures DistinctIds(order) && (set id | id in order) == Claimed(old(Abs()), now)
      ensures forall id :: id in order ==> id in old(lent)
      ensures ids.Some? <==> forall id :: id in order ==> old(lent)[id] != []
      ensures ids.Some? ==> ids.value == Flatten(old(lent), order)
    {
      ghost var start := lent;
      var lists;
      lists, order := ExpireScript(now);
      ids := ParseLists(lists, start, order);
    }

    /** The `flat_map` of `expire_coins`. */
    method ParseLists(lists: seq<string>, ghost start: map<ReservationId, seq<ObjectId>>,
        ghost order: seq<ReservationId>)
      returns (ids: Option<seq<ObjectId>>)
      requires forall id :: id in order ==> id in start
      requires |lists| == |order| && forall i :: 0 <= i < |order| ==> lists[i] == JoinIds(start[order[i]])
      ensures ids.Some? <==> forall id :: id in order ==> start[id] != []
      ensures ids.Some? ==> ids.value == Flatten(start, order)
    {
      hide SplitIds, JoinIds;
      var flat: seq<ObjectId> := [];
      assert order[..0] == [];
      for i := 0 to |lists|
        invariant forall j :: 0 <= j < i ==> start[order[j]] != []
        invariant flat == Flatten(start, order[..i])
      {
        IdListRoundTrip(start[order[i]]);
        if SplitIds(lists[i]) == None {
          assert order[i] in order;
          return None;
        }
        flat := flat + SplitIds(lists[i]).value;
        assert order[..i + 1][..i] == order[..i];
      }
      assert order[..|lists|] == order;
      ids := Some(flat);
    }

    /** The summing loop of `init_coin_stats_at_startup.lua`. */
    method SumBalances() returns (sum: nat)
      requires Valid()
      ensures sum == Total(coins)
    {
      hide Format, LuaBalance, Total;
      sum := 0;
      EmptyPrefix(coins);
      for i := 0 to |availableGasCoins|
        invariant sum == Total(coins[..i])
      {
        ReadsBack(availableGasCoins, coins, i);
        TotalOfPrefix(coins, i);
        sum := sum + LuaBalance(availableGasCoins[i]).value;
      }
    }

    method InitCoinStatsAtStartup() returns (count: int, balance: int)
      requires Valid()
      modifies this`coinCount, this`totalBalance, this`schemaVersion
      ensures Valid() && Abs() == InitStats(old(Abs()))
      ensures coinCount == Some(count) && totalBalance == Some(balance)
    {
      if coinCount == None { coinCount := Some(|availableGasCoins|); }
      if totalBalance == None {
        var sum := SumBalances();
        totalBalance := Some(sum);
      }
      if schemaVersion == None { schemaVersion := Some(1); }
      return coinCount.value, totalBalance.value;
    }

    method TryAcquireInitLock(now: nat, duration: nat) returns (granted: bool)
      requires Valid()
      modifies this`initLock
      ensures Valid() && (granted, Abs()) == AcquireInitLock(old(Abs()), now, duration)
    {
      granted := initLock == None || initLock.value < now;
      if granted { initLock := Some(now + duration); }
    }

    method FreeInitLock()
      requires Valid()
      modifies this`initLock
      ensures Valid() && Abs() == ReleaseInitLock(old(Abs()))
    {
      initLock := Some(0);
    }

    method TryAcquireMaintenanceLock(now: nat, duration: nat) returns (granted: bool)
      requires Valid()
      modifies this`maintenanceLock
      ensures Valid() && (granted, Abs()) == AcquireMaintenanceLock(old(Abs()), now, duration)
    {
      granted := maintenanceLock == None || maintenanceLock.value < now;
      if granted { maintenanceLock := Some(now + duration); }
    }

    method FreeMaintenanceLock()
      requires Valid()
      modifies this`maintenanceLock
      ensures Valid() && Abs() == ReleaseMaintenanceLock(old(Abs()))
    {
      maintenanceLock := Some(0);
    }

    method CleanUpCoinRegistry()
      requires Valid()
      modifies this
      ensures Valid() && Abs() == CleanUp(old(Abs()))
    {
      hide Texts, JoinIds, FitsU64;
      availableGasCoins, coins := [], [];
      coinCount, totalBalance, nextReservationId := None, None, None;
      reservations, lent, expirationQueue := map[], map[], map[];
      initialized, schemaVersion := false, None;
    }
  }
}
