/** The coin registry of one sponsor, and what each Redis script does to it. */
module Pool {
  import opened Coins

  const MAX_GAS_PER_QUERY: nat := 256

  type ReservationId = nat

  datatype Registry = Registry(
    available: seq<GasCoin>,                              // available_gas_coins, head first
    coinCount: Option<int>,                               // available_coin_count
    totalBalance: Option<int>,                            // available_coin_total_balance
    reservations: map<ReservationId, seq<ObjectId>>,      // one key per reservation
    expirations: map<ReservationId, nat>,                 // expiration_queue: member to score
    lastReservation: nat,                                 // next_reservation_id, 0 when absent
    initialized: bool,
    schemaVersion: Option<nat>,
    initLock: Option<nat>,
    maintenanceLock: Option<nat>)

  datatype ReserveReply =
    | InMaintenance
    | NotEnough
    | Reserved(id: ReservationId, coins: seq<GasCoin>, newBalance: int, newCount: int)
    | ScriptError

  /** Both lock scripts, and the check in `reserve_gas_coins`, treat a lock as live up to its timestamp. */
  predicate Live(lock: Option<nat>, now: nat) {
    lock.Some? && now <= lock.value
  }

  /** How many coins the pop loop takes. */
  function Taken(coins: seq<GasCoin>, budget: int, limit: nat): (k: nat)
    ensures k <= |coins| && k <= limit
  {
    if budget <= 0 || limit == 0 || coins == [] then 0
    else 1 + Taken(coins[1..], budget - coins[0].balance, limit - 1)
  }

  function Reserve(p: Registry, budget: nat, expiration: nat, now: nat): (ReserveReply, Registry) {
    if Live(p.maintenanceLock, now) then (InMaintenance, p) else
    var k := Taken(p.available, budget, MAX_GAS_PER_QUERY);
    var coins, rest := p.available[..k], p.available[k..];
    var sum := Total(coins);
    if sum < budget then (NotEnough, p)
    else if p.totalBalance.None? then (ScriptError, p.(available := rest))
    else
      var newBalance := p.totalBalance.value - sum;
      if p.coinCount.None? then (ScriptError, p.(available := rest, totalBalance := Some(newBalance)))
      else
        var newCount := p.coinCount.value - k;
        var id := p.lastReservation + 1;
        (Reserved(id, coins, newBalance, newCount),
         p.(available := rest, totalBalance := Some(newBalance), coinCount := Some(newCount), lastReservation := id,
            reservations := p.reservations[id := IdsOf(coins)], expirations := p.expirations[id := expiration]))
  }

  /** `ready_for_execution`: true when this call took the reservation out. */
  function Ready(p: Registry, id: ReservationId): (bool, Registry) {
    if id in p.reservations then (true, p.(reservations := p.reservations - {id})) else (false, p)
  }

  /** `add_new_coins`; `None` is the script error after the pushes. */
  function Add(p: Registry, coins: seq<GasCoin>): (Option<(int, int)>, Registry) {
    var pushed := p.(available := p.available + coins);
    var marked :=
      if coins == [] then pushed
      else pushed.(initialized := true,
                   schemaVersion := if p.schemaVersion.None? then Some(1) else p.schemaVersion);
    if p.totalBalance.None? then (None, marked)
    else
      var newBalance := p.totalBalance.value + Total(coins);
      if p.coinCount.None? then (None, marked.(totalBalance := Some(newBalance)))
      else
        var newCount := p.coinCount.value + |coins|;
        (Some((newBalance, newCount)), marked.(totalBalance := Some(newBalance), coinCount := Some(newCount)))
  }

  /** Queue members whose score has come. */
  function Due(p: Registry, now: nat): set<ReservationId> {
    set id | id in p.expirations && p.expirations[id] <= now
  }

  /** The reservations an expiry at `now` claims. */
  function Claimed(p: Registry, now: nat): set<ReservationId> {
    set id | id in Due(p, now) && id in p.reservations
  }

  function Expire(p: Registry, now: nat): Registry {
    p.(reservations := p.reservations - Claimed(p, now), expirations := p.expirations - Due(p, now))
  }

  function InitStats(p: Registry): Registry {
    p.(coinCount := if p.coinCount.None? then Some(|p.available|) else p.coinCount,
       totalBalance := if p.totalBalance.None? then Some(Total(p.available)) else p.totalBalance,
       schemaVersion := if p.schemaVersion.None? then Some(1) else p.schemaVersion)
  }

  function AcquireInitLock(p: Registry, now: nat, duration: nat): (bool, Registry) {
    if Live(p.initLock, now) then (false, p) else (true, p.(initLock := Some(now + duration)))
  }

  function ReleaseInitLock(p: Registry): Registry {
    p.(initLock := Some(0))
  }

  function AcquireMaintenanceLock(p: Registry, now: nat, duration: nat): (bool, Registry) {
    if Live(p.maintenanceLock, now) then (false, p) else (true, p.(maintenanceLock := Some(now + duration)))
  }

  function ReleaseMaintenanceLock(p: Registry): Registry {
    p.(maintenanceLock := Some(0))
  }

  const EMPTY: Registry := Registry([], None, None, map[], map[], 0, false, None, None, None)

  /** `clean_up_coin_registry`: every key of the namespace but the two locks. */
  function CleanUp(p: Registry): Registry {
    EMPTY.(initLock := p.initLock, maintenanceLock := p.maintenanceLock)
  }

  // ---------------------------------------------------------------- the contract of reserving

  lemma {:induction false} TotalPrefixMono(coins: seq<GasCoin>, j: nat, k: nat)
    requires j <= k <= |coins|
    ensures Total(coins[..j]) <= Total(coins[..k])
  {
    assert coins[..k] == coins[..j] + coins[j..k];
    TotalConcat(coins[..j], coins[j..k]);
  }

  /** The pop loop stops at the shortest prefix that reaches the budget, or at the limit. */
  lemma {:induction false} TakenIsShortest(coins: seq<GasCoin>, budget: int, limit: nat)
    ensures
      var k := Taken(coins, budget, limit);
      && (forall j :: 0 <= j < k ==> Total(coins[..j]) < budget)
      && (budget <= Total(coins[..k]) || k == limit || k == |coins|)
  {
    var k := Taken(coins, budget, limit);
    if 0 < k {
      TakenIsShortest(coins[1..], budget - coins[0].balance, limit - 1);
      forall j | 0 <= j <= k
        ensures Total(coins[..j]) == if j == 0 then 0 else coins[0].balance + Total(coins[1..][..j - 1])
      {
        if 0 < j {
          assert coins[..j][1..] == coins[1..][..j - 1];
        }
      }
    }
  }

  /** ... and is the only count with that property. */
  lemma TakenIsUnique(coins: seq<GasCoin>, budget: int, limit: nat, k: nat)
    requires k <= |coins| && k <= limit
    requires forall j :: 0 <= j < k ==> Total(coins[..j]) < budget
    requires budget <= Total(coins[..k]) || k == limit || k == |coins|
    ensures k == Taken(coins, budget, limit)
  {
    TakenIsShortest(coins, budget, limit);
  }

  /** Some prefix of at most 256 coins reaches the budget. */
  ghost predicate Affordable(p: Registry, budget: nat) {
    exists k :: 0 <= k <= |p.available| && k <= 256 && budget <= Total(p.available[..k])
  }

  /** `coins` is the shortest prefix of the list that reaches the budget. */
  ghost predicate ShortestPrefix(p: Registry, budget: nat, coins: seq<GasCoin>) {
    && coins <= p.available
    && |coins| <= 256
    && budget <= Total(coins)
    && forall j :: 0 <= j < |coins| ==> Total(p.available[..j]) < budget
  }

  /** Nothing but the list, its statistics and the reservations differs. */
  ghost predicate SameMarks(p: Registry, q: Registry) {
    && q.initialized == p.initialized && q.schemaVersion == p.schemaVersion
    && q.initLock == p.initLock && q.maintenanceLock == p.maintenanceLock
  }

  /**
   * `Storage::reserve_gas_coins`: outside maintenance, with the statistics in place, it succeeds exactly
   * when at most 256 coins reach the budget; it then takes the shortest such prefix from the front under
   * a new id, and otherwise the registry is exactly what it was.
   */
  lemma ReserveContract(p: Registry, budget: nat, expiration: nat, now: nat)
    requires p.coinCount.Some? && p.totalBalance.Some?
    ensures
      var (reply, q) := Reserve(p, budget, expiration, now);
      && (reply.Reserved? <==> !Live(p.maintenanceLock, now) && Affordable(p, budget))
      && (reply.InMaintenance? <==> Live(p.maintenanceLock, now))
      && !reply.ScriptError?
      && (!reply.Reserved? ==> q == p)
      && (reply.Reserved? ==>
          && SameMarks(p, q)
          && reply.newCount == p.coinCount.value - |reply.coins| && q.coinCount == Some(reply.newCount)
          && reply.newBalance == p.totalBalance.value - Total(reply.coins) && q.totalBalance == Some(reply.newBalance)
          && ShortestPrefix(p, budget, reply.coins)
          && p.available == reply.coins + q.available
          && reply.id == p.lastReservation + 1 == q.lastReservation
          && q.reservations == p.reservations[reply.id := IdsOf(reply.coins)]
          && q.expirations == p.expirations[reply.id := expiration])
  {
    TakenIsShortest(p.available, budget, MAX_GAS_PER_QUERY);
    var k := Taken(p.available, budget, MAX_GAS_PER_QUERY);
    if Affordable(p, budget) {
      var m :| 0 <= m <= |p.available| && m <= MAX_GAS_PER_QUERY && budget <= Total(p.available[..m]);
      if m <= k {
        TotalPrefixMono(p.available, m, k);
      }
    }
    assert p.available == p.available[..k] + p.available[k..];
    forall j | 0 <= j < k ensures p.available[..k][..j] == p.available[..j] {
    }
  }

  /**
   * Without the statistics the script fails only after the pops. It therefore loses coins exactly when
   * a reservation would have been made and a statistic is missing, and some coin had to be popped.
   */
  lemma ReserveLosesCoins(p: Registry, budget: nat, expiration: nat, now: nat)
    ensures
      var (reply, q) := Reserve(p, budget, expiration, now);
      !reply.Reserved? ==>
        (q.available != p.available <==>
          && (p.coinCount.None? || p.totalBalance.None?)
          && !Live(p.maintenanceLock, now) && Affordable(p, budget) && 0 < budget)
  {
    var full := p.(coinCount := Some(0), totalBalance := Some(0));
    ReserveContract(full, budget, expiration, now);
    assert full.available == p.available;
    assert Affordable(full, budget) <==> Affordable(p, budget);
    TakenIsShortest(p.available, budget, MAX_GAS_PER_QUERY);
    var k := Taken(p.available, budget, MAX_GAS_PER_QUERY);
    assert p.available[..0] == [];
  }

  // ---------------------------------------------------------------- adding, claiming and expiring

  /** Added coins come last: whoever could be served before gets the same coins under the same id. */
  lemma AddedComeLast(p: Registry, coins: seq<GasCoin>, budget: nat, expiration: nat, now: nat)
    requires StatsPresent(p) && Reserve(p, budget, expiration, now).0.Reserved?
    ensures
      var first, later := Reserve(p, budget, expiration, now), Reserve(Add(p, coins).1, budget, expiration, now);
      && later.0.Reserved? && later.0.id == first.0.id && later.0.coins == first.0.coins
      && later.1 == Add(first.1, coins).1
  {
    hide Taken, IdsOf;
    TakenStays(p.available, coins, budget, MAX_GAS_PER_QUERY);
  }

  lemma TakenStays(coins: seq<GasCoin>, more: seq<GasCoin>, budget: nat, limit: nat)
    requires budget <= Total(coins[..Taken(coins, budget, limit)])
    ensures
      var k := Taken(coins, budget, limit);
      Taken(coins + more, budget, limit) == k && (coins + more)[..k] == coins[..k]
      && (coins + more)[k..] == coins[k..] + more
  {
    hide Taken, Total;
    var k := Taken(coins, budget, limit);
    TakenIsShortest(coins, budget, limit);
    forall j | 0 <= j <= k ensures (coins + more)[..j] == coins[..j] {
    }
    TakenIsUnique(coins + more, budget, limit, k);
  }

  /**
   * A reservation that is claimed and brought back restores the registry, with its coins at the end of the list:
   * the same coins, the same statistics, and the reservation gone. Its queue entry stays, and its id is spent.
   */
  lemma ReturnRestores(p: Registry, budget: nat, expiration: nat, now: nat)
    requires StatsPresent(p) && Reserve(p, budget, expiration, now).0.Reserved?
    requires p.lastReservation + 1 !in p.reservations
    ensures
      var (reply, lent) := Reserve(p, budget, expiration, now);
      var (mine, claimed) := Ready(lent, reply.id);
      var back := Add(claimed, reply.coins).1;
      && mine && !Ready(claimed, reply.id).0
      && back.available == p.available[|reply.coins|..] + reply.coins && reply.coins == p.available[..|reply.coins|]
      && back.coinCount == p.coinCount && back.totalBalance == p.totalBalance
      && back.reservations == p.reservations && back.expirations == p.expirations[reply.id := expiration]
      && back.lastReservation == reply.id
  {
    var k := Taken(p.available, budget, MAX_GAS_PER_QUERY);
    TotalConcat(p.available[k..], p.available[..k]);
  }

  /**
   * An expiry takes out the reservations whose time has come and every queue entry of that age, also of
   * reservations claimed before; what is not due stays, and what is due is gone for every later call.
   */
  lemma ExpireContract(p: Registry, now: nat, id: ReservationId)
    ensures
      var q := Expire(p, now);
      && (id in q.expirations <==> id in p.expirations && now < p.expirations[id])
      && (id in q.reservations <==> id in p.reservations && (id in p.expirations ==> now < p.expirations[id]))
      && (id in q.reservations ==> q.reservations[id] == p.reservations[id])
      && (id in q.expirations ==> q.expirations[id] == p.expirations[id])
      && (id in p.reservations && id !in q.reservations ==> !Ready(q, id).0)
      && Expire(q, now) == q && SameMarks(p, q) && q.available == p.available
  {
  }

  // ---------------------------------------------------------------- statistics

  /** The cached statistics, where present, agree with the list. */
  ghost predicate StatsAgree(p: Registry) {
    && (p.coinCount.Some? ==> p.coinCount.value == |p.available|)
    && (p.totalBalance.Some? ==> p.totalBalance.value == Total(p.available))
  }

  ghost predicate StatsPresent(p: Registry) {
    p.coinCount.Some? && p.totalBalance.Some?
  }

  lemma ReserveKeepsStats(p: Registry, budget: nat, expiration: nat, now: nat)
    requires StatsAgree(p) && StatsPresent(p)
    ensures StatsAgree(Reserve(p, budget, expiration, now).1) && StatsPresent(Reserve(p, budget, expiration, now).1)
  {
    var k := Taken(p.available, budget, MAX_GAS_PER_QUERY);
    assert p.available == p.available[..k] + p.available[k..];
    TotalConcat(p.available[..k], p.available[k..]);
  }

  lemma AddKeepsStats(p: Registry, coins: seq<GasCoin>)
    requires StatsAgree(p) && StatsPresent(p)
    ensures StatsAgree(Add(p, coins).1) && StatsPresent(Add(p, coins).1)
  {
    TotalConcat(p.available, coins);
  }

  /** After a clean-up, initialising the statistics makes them present and right; doing it again changes nothing. */
  lemma InitStatsIsIdempotent(p: Registry)
    ensures InitStats(InitStats(p)) == InitStats(p) && StatsPresent(InitStats(p))
    ensures StatsAgree(p) ==> StatsAgree(InitStats(p))
    ensures StatsAgree(InitStats(CleanUp(p))) && InitStats(CleanUp(p)).available == []
  {
  }

  /** Statistics that are there stay, right or wrong; missing ones are counted; nothing else changes. */
  lemma InitStatsFillsIn(p: Registry)
    ensures
      var q := InitStats(p);
      && (p.coinCount.Some? ==> q.coinCount == p.coinCount)
      && (p.totalBalance.Some? ==> q.totalBalance == p.totalBalance)
      && (p.schemaVersion.Some? ==> q.schemaVersion == p.schemaVersion)
      && (p.coinCount.None? ==> q.coinCount == Some(|p.available|))
      && (p.totalBalance.None? ==> q.totalBalance == Some(Total(p.available)))
      && (p.schemaVersion.None? ==> q.schemaVersion == Some(1))
      && q.(coinCount := None, totalBalance := None, schemaVersion := None) ==
           p.(coinCount := None, totalBalance := None, schemaVersion := None)
  {
  }

  /**
   * A cleaned registry is as good as new but for its locks: not marked, without a version, with nothing to lend,
   * and once it is filled again its reservations are numbered from 1.
   */
  lemma CleanedIsNew(p: Registry, coins: seq<GasCoin>, budget: nat, expiration: nat, now: nat)
    requires 0 < budget && !Live(p.maintenanceLock, now)
    ensures
      var q := CleanUp(p);
      && !q.initialized && q.schemaVersion == None && q.reservations == map[] && q.expirations == map[]
      && q.initLock == p.initLock && q.maintenanceLock == p.maintenanceLock
      && Reserve(q, budget, expiration, now) == (NotEnough, q)
      && var filled := Add(InitStats(q), coins).1;
         && (filled.initialized <==> coins != []) && filled.available == coins
         && var reply := Reserve(filled, budget, expiration, now).0;
            reply.Reserved? ==> reply.id == 1 && reply.coins <= coins
  {
    assert [] + coins == coins;
    ReserveContract(Add(InitStats(CleanUp(p)), coins).1, budget, expiration, now);
  }

  // ---------------------------------------------------------------- without the statistics

  /** `release_gas_coins` tries until adding succeeds: the registry after `n` attempts. */
  function AddAttempts(p: Registry, coins: seq<GasCoin>, n: nat): Registry {
    if n == 0 then p else Add(AddAttempts(p, coins, n - 1), coins).1
  }

  function Copies(coins: seq<GasCoin>, n: nat): seq<GasCoin> {
    if n == 0 then [] else Copies(coins, n - 1) + coins
  }

  /** With a statistic missing no attempt ever succeeds, and each leaves one more copy of the coins in the list. */
  lemma {:induction false} AttemptsPileUp(p: Registry, coins: seq<GasCoin>, n: nat)
    requires !StatsPresent(p)
    ensures !StatsPresent(AddAttempts(p, coins, n)) && Add(AddAttempts(p, coins, n), coins).0.None?
    ensures AddAttempts(p, coins, n).available == p.available + Copies(coins, n)
    ensures AddAttempts(p, coins, n).maintenanceLock == p.maintenanceLock
  {
    if n > 0 {
      AttemptsPileUp(p, coins, n - 1);
    }
  }

  const STRAY: GasCoin := GasCoin(50, 7, 3, "")

  /**
   * How coins come to be listed without statistics: a full rescan cleans up, fails before it has set the
   * statistics up again, and frees its lock, while a release that was under way tries to add its coin. After
   * two attempts the coin is listed twice. The next reservation fails and loses one copy; once the statistics
   * are there, two reservations get the same coin.
   */
  lemma CleanUpWithoutStatistics(duration: nat)
    ensures
      var locked := AcquireMaintenanceLock(InitStats(EMPTY), 1, duration).1;
      var p := ReleaseMaintenanceLock(AddAttempts(CleanUp(locked), [STRAY], 2));
      && p.available == [STRAY, STRAY] && !StatsPresent(p)
      && Reserve(p, 50, 9, 1).0.ScriptError? && Reserve(p, 50, 9, 1).1.available == [STRAY]
      && var (first, q) := Reserve(InitStats(p), 50, 9, 1);
         first.Reserved? && first.coins == [STRAY] && Reserve(q, 50, 9, 1).0.Reserved?
         && Reserve(q, 50, 9, 1).0.coins == [STRAY]
  {
    var p := ReleaseMaintenanceLock(AddAttempts(CleanUp(AcquireMaintenanceLock(InitStats(EMPTY), 1, duration).1),
      [STRAY], 2));
    AttemptsPileUp(CleanUp(AcquireMaintenanceLock(InitStats(EMPTY), 1, duration).1), [STRAY], 2);
    assert Copies([STRAY], 1) == [STRAY] && Copies([STRAY], 2) == [STRAY, STRAY];
    OneTaken([STRAY, STRAY]);
    assert [STRAY, STRAY][1..] == [STRAY];
    OneTaken([STRAY]);
  }

  lemma OneTaken(coins: seq<GasCoin>)
    requires coins != [] && coins[0] == STRAY
    ensures Taken(coins, 50, MAX_GAS_PER_QUERY) == 1 && coins[..1] == [STRAY] && Total(coins[..1]) == 50
  {
    assert Taken(coins[1..], 0, MAX_GAS_PER_QUERY - 1) == 0;
    assert [STRAY][1..] == [] && Total([]) == 0;
  }
}
