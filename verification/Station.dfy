/**
 * Any number of station instances over one registry and one ledger. Each step is one atomic action of
 * the real system: one Redis script, one ledger read, or one transaction.
 */
module Station {
  import opened Coins
  import opened SplitMath
  import opened Pool
  import opened Ledger

  const THRESHOLD_FACTOR: nat := 200          // NEW_COIN_BALANCE_FACTOR_THRESHOLD
  const MAX_INIT_DURATION: nat := 60 * 60 * 12
  const CHUNK: nat := 5000

  /** Asynchronous work in flight in some instance. */
  datatype Task =
    // execute_transaction
    | Claimed(ids: seq<ObjectId>)                 // after ready_for_execution
    | Queried(ids: seq<ObjectId>, total: nat)     // after get_total_gas_coin_balance
    | Failed(ids: seq<ObjectId>)                  // Err branch, latest objects not read yet
    // the coin unlocker
    | Expired(lapsed: set<ObjectId>)              // after expire_coins, latest objects not read yet
    // both, on the way to release_gas_coins
    | Settled(coins: seq<GasCoin>)
    // a start that has read the registry's mark, and found none
    | Booted
    // run_once
    | Locked(lease: nat, init: bool)              // init lock granted, ledger not scanned yet
    | Splitting(lease: nat, gas: nat, work: seq<GasCoin>, done: seq<GasCoin>,
                counts: map<ObjectId, nat>)         // the count a hidden split has left a queued coin with

  /** Where a coin id can be held. */
  datatype Place = Avail | Resv(id: ReservationId) | Busy(task: nat)

  /** What a reservation's caller was told. */
  datatype Promise = Promise(coins: seq<GasCoin>, budget: nat)

  datatype Claimant = ByExecutor | ByExpiry

  datatype Station = Station(
    target: nat,                                  // target_init_balance
    pool: Registry,
    ledger: Ledger,
    tasks: map<nat, Task>,
    nextTask: nat,
    clock: nat,                                   // seconds, as the lock scripts see it
    // history, which no step looks at
    used: set<ObjectId>,                          // ids the ledger has ever issued to the sponsor
    unregistered: set<ObjectId>,                  // deposited or cleaned away, and not scanned since
    stranded: set<ObjectId>,                      // left to nobody by an error, and not scanned since
    owner: map<ObjectId, Place>,
    promised: map<ReservationId, Promise>,
    claims: map<ReservationId, Claimant>,
    deposited: nat,
    spent: int)

  function Threshold(s: Station): nat {
    THRESHOLD_FACTOR * s.target
  }

  // ---------------------------------------------------------------- where coins are

  ghost function TaskIds(x: Task): set<ObjectId> {
    match x
    case Claimed(ids) => SetOf(ids)
    case Queried(ids, _) => SetOf(ids)
    case Failed(ids) => SetOf(ids)
    case Expired(lapsed) => lapsed
    case Settled(coins) => IdSet(coins)
    case Booted => {}
    case Locked(_, _) => {}
    case Splitting(_, _, work, done, _) => IdSet(work) + IdSet(done)
  }

  ghost function At(s: Station, p: Place): set<ObjectId> {
    match p
    case Avail => IdSet(s.pool.available)
    case Resv(id) => if id in s.pool.reservations then SetOf(s.pool.reservations[id]) else {}
    case Busy(k) => if k in s.tasks then TaskIds(s.tasks[k]) else {}
  }

  /** No coin id is in two places, and the list holds none twice. */
  ghost predicate Exclusive(s: Station) {
    && (forall p, q :: p != q ==> At(s, p) !! At(s, q))
    && Distinct(s.pool.available)
  }

  // ---------------------------------------------------------------- helpers of the steps

  /** The latest objects among `ids`, in the arbitrary order of a hash map. */
  ghost predicate Lists(listing: seq<GasCoin>, l: Ledger, ids: set<ObjectId>) {
    && Distinct(listing)
    && (forall c :: c in listing ==> c.id in l && l[c.id] == c)
    && IdSet(listing) == ids * l.Keys
  }

  /** Ids of the owned coins that a scan with this threshold selects. */
  ghost function Selected(l: Ledger, threshold: nat): set<ObjectId> {
    set id | id in l && threshold <= l[id].balance
  }

  /** The oversized check of `execute_transaction`: one oversized coin and none is released. */
  ghost predicate Oversized(coins: seq<GasCoin>, threshold: nat) {
    exists c :: c in coins && threshold < c.balance
  }

  /** `total as i64 - net as u64`; the negative case is never reached. */
  function NetOf(total: nat, net: int): nat {
    if net <= total then total - net else 0
  }

  function Large(coins: seq<GasCoin>, limit: nat): seq<GasCoin> {
    if coins == [] then []
    else (if limit < coins[0].balance then [coins[0]] else []) + Large(coins[1..], limit)
  }

  function Small(coins: seq<GasCoin>, limit: nat): seq<GasCoin> {
    if coins == [] then []
    else (if limit < coins[0].balance then [] else [coins[0]]) + Small(coins[1..], limit)
  }

  ghost function Own(owner: map<ObjectId, Place>, ids: set<ObjectId>, p: Place): (m: map<ObjectId, Place>)
    ensures m.Keys == owner.Keys + ids
  {
    map id | id in owner.Keys + ids :: if id in ids then p else owner[id]
  }

  predicate IsRun(x: Task) {
    x.Locked? || x.Splitting?
  }

  // ---------------------------------------------------------------- the steps

  /** What a transaction does to its gas payment: the charge, and the new version of the surviving coin. */
  datatype Effects = Effects(net: int, version: nat, digest: Text)

  /** A split transaction's outcome: the charge, the created objects and the new version of the coin. */
  datatype Split = Split(net: nat, created: seq<ObjectRef>, left: ObjectRef)

  datatype Step =
    | Deposit(coin: GasCoin)
    | ReserveGas(budget: nat, expiration: nat, now: nat)
    | ReadyForExecution(id: ReservationId)
    | QueryTotal(k: nat)
    | ExecuteOk(k: nat, effects: Effects)
    | ExecuteErr(k: nat, tookEffect: Option<Effects>)
    | ReadLatest(k: nat, listing: seq<GasCoin>)
    | ReleaseCoins(k: nat)
    | ReleaseErr(k: nat, applied: bool)
    | Abandon(k: nat)
    | ExpireCoins(now: nat)
    | Boot
    | StartRun(boot: Option<nat>)                   // of the start `boot`, or a refresh
    | AcquireLost
    | Scan(k: nat, gas: nat, listing: seq<GasCoin>)
    | SplitCoin(k: nat, i: nat, split: Split)
    | SplitErr(k: nat, i: nat, hidden: Option<Split>)
    | AddChunk(k: nat)
    | EndRun(k: nat)
    | MaintenanceOn(now: nat, duration: nat)
    | MaintenanceOff
    | CleanAndInit
    | Tick(to: nat)

  function ScanThreshold(s: Station, init: bool): nat {
    if init then 0 else Threshold(s)
  }

  /** Smashing: the payment coins become the first of them. */
  function Smashed(s: Station, ids: seq<ObjectId>, e: Effects): GasCoin
    requires ids != [] && forall id :: id in ids ==> id in s.ledger
  {
    GasCoin(NetOf(SumOf(s.ledger, ids), e.net), ids[0], e.version, e.digest)
  }

  ghost predicate CanPay(s: Station, ids: seq<ObjectId>, e: Effects) {
    && ids != [] && (forall id :: id in ids ==> id in s.ledger)
    && e.net <= SumOf(s.ledger, ids)
  }

  /** How many parts the next attempt asks for: the first attempt's count, whatever is left of the coin. */
  function CountOf(s: Station, k: nat, i: nat): nat
    requires k in s.tasks && s.tasks[k].Splitting? && i < |s.tasks[k].work| && 0 < s.target
  {
    var x := s.tasks[k];
    if x.work[i].id in x.counts then x.counts[x.work[i].id] else SplitCount(x.work[i].balance, x.gas, s.target)
  }

  /** The ledger takes the split transaction of a queued coin. */
  predicate CanSplit(s: Station, k: nat, i: nat) {
    && k in s.tasks && s.tasks[k].Splitting? && i < |s.tasks[k].work| && 0 < s.target
    && s.tasks[k].work[i].id in s.ledger && s.ledger[s.tasks[k].work[i].id] == s.tasks[k].work[i]
    && 0 < CountOf(s, k, i) && s.tasks[k].gas * CountOf(s, k, i) <= s.tasks[k].work[i].balance
  }

  ghost predicate SplitOk(s: Station, k: nat, i: nat, x: Split)
    requires CanSplit(s, k, i)
  {
    && x.net <= s.tasks[k].gas * CountOf(s, k, i)
    && |x.created| == CountOf(s, k, i) - 1
    && (forall i :: 0 <= i < |x.created| ==> x.created[i].id !in s.used)
    && (forall i, j :: 0 <= i < j < |x.created| ==> x.created[i].id != x.created[j].id)
    && x.left.id == s.tasks[k].work[i].id
  }

  function SplitParts(s: Station, k: nat, i: nat, x: Split): seq<GasCoin>
    requires CanSplit(s, k, i) && x.net <= s.tasks[k].gas * CountOf(s, k, i)
  {
    PartsBy(s.tasks[k].work[i], CountOf(s, k, i), s.tasks[k].gas * CountOf(s, k, i), x.net, x.created, x.left)
  }

  ghost predicate Enabled(s: Station, st: Step) {
    match st
    case Deposit(coin) => coin.id !in s.used
    case ReserveGas(budget, _, _) => 0 < budget
    case ReadyForExecution(id) => id in s.pool.reservations
    case QueryTotal(k) => k in s.tasks && s.tasks[k].Claimed? && forall id :: id in s.tasks[k].ids ==> id in s.ledger
    case ExecuteOk(k, e) => k in s.tasks && s.tasks[k].Queried? && CanPay(s, s.tasks[k].ids, e)
    case ExecuteErr(k, e) => k in s.tasks && s.tasks[k].Queried? && (e.Some? ==> CanPay(s, s.tasks[k].ids, e.value))
    case ReadLatest(k, listing) =>
      && k in s.tasks && (s.tasks[k].Failed? || s.tasks[k].Expired?)
      && Lists(listing, s.ledger, TaskIds(s.tasks[k]))
    case ReleaseCoins(k) => k in s.tasks && s.tasks[k].Settled?
    case ReleaseErr(k, _) => k in s.tasks && s.tasks[k].Settled?
    case Abandon(k) => k in s.tasks
    case ExpireCoins(_) => true
    case Boot => true
    case StartRun(boot) =>
      !Live(s.pool.initLock, s.clock) && (boot.Some? ==> boot.value in s.tasks && s.tasks[boot.value].Booted?)
    case AcquireLost => !Live(s.pool.initLock, s.clock)
    case Scan(k, gas, listing) =>
      && k in s.tasks && s.tasks[k].Locked?
      && Lists(listing, s.ledger, Selected(s.ledger, ScanThreshold(s, s.tasks[k].init)))
      && gas < s.target * 99
    case SplitCoin(k, i, x) => CanSplit(s, k, i) && SplitOk(s, k, i, x)
    case SplitErr(k, i, x) =>
      && k in s.tasks && s.tasks[k].Splitting? && i < |s.tasks[k].work| && 0 < s.target
      && (x.Some? ==> CanSplit(s, k, i) && SplitOk(s, k, i, x.value))
    case AddChunk(k) => k in s.tasks && s.tasks[k].Splitting? && s.tasks[k].work == [] && s.tasks[k].done != []
    case EndRun(k) =>
      k in s.tasks && (s.tasks[k].Locked? || (s.tasks[k].Splitting? && s.tasks[k].work == [] && s.tasks[k].done == []))
    case MaintenanceOn(now, _) => !Live(s.pool.maintenanceLock, now)
    case MaintenanceOff => true
    case CleanAndInit => s.tasks == map[] && s.pool.reservations == map[]
    case Tick(to) => s.clock <= to
  }

  ghost function Apply(s: Station, st: Step): Station
    requires Enabled(s, st)
  {
    match st
    case Deposit(coin) => DoDeposit(s, coin)
    case ReserveGas(budget, expiration, now) => DoReserve(s, budget, expiration, now)
    case ReadyForExecution(id) => DoReady(s, id)
    case QueryTotal(k) =>
      s.(tasks := s.tasks[k := Queried(s.tasks[k].ids, SumOf(s.ledger, s.tasks[k].ids))])
    case ExecuteOk(k, e) => DoExecute(s, k, e)
    case ExecuteErr(k, e) => DoFail(s, k, e)
    case ReadLatest(k, listing) => DoReadLatest(s, k, listing)
    case ReleaseCoins(k) => DoRelease(s, k)
    // adding is tried again and again, although the error may hide that it was done
    case ReleaseErr(k, applied) => if applied then s.(pool := Add(s.pool, s.tasks[k].coins).1) else s
    case Abandon(k) => DoAbandon(s, k)
    case ExpireCoins(now) => DoExpire(s, now)
    case Boot => DoBoot(s)
    case StartRun(boot) => DoStart(s, boot)
    // the caller gets an error, and nobody is there to free the lock
    case AcquireLost => s.(pool := AcquireInitLock(s.pool, s.clock, MAX_INIT_DURATION).1)
    case Scan(k, gas, listing) => DoScan(s, k, gas, listing)
    case SplitCoin(k, i, x) => DoSplit(s, k, i, x)
    case SplitErr(k, i, x) => if x.None? then DoReread(s, k, i) else DoHide(s, k, i, x.value)
    case AddChunk(k) => DoAddChunk(s, k)
    case EndRun(k) => s.(pool := ReleaseInitLock(s.pool), tasks := s.tasks - {k})
    case MaintenanceOn(now, duration) => s.(pool := AcquireMaintenanceLock(s.pool, now, duration).1)
    case MaintenanceOff => s.(pool := ReleaseMaintenanceLock(s.pool))
    case CleanAndInit => DoClean(s)
    case Tick(to) => s.(clock := to)
  }

  ghost function DoDeposit(s: Station, coin: GasCoin): Station {
    s.(ledger := s.ledger[coin.id := coin], used := s.used + {coin.id},
       unregistered := s.unregistered + {coin.id}, deposited := s.deposited + coin.balance)
  }

  ghost function DoReady(s: Station, id: ReservationId): Station
    requires id in s.pool.reservations
  {
    s.(pool := Ready(s.pool, id).1,
       tasks := s.tasks[s.nextTask := Claimed(s.pool.reservations[id])], nextTask := s.nextTask + 1,
       owner := Own(s.owner, At(s, Resv(id)), Busy(s.nextTask)),
       claims := s.claims[id := ByExecutor])
  }

  ghost function DoFail(s: Station, k: nat, e: Option<Effects>): Station
    requires k in s.tasks && s.tasks[k].Queried? && (e.Some? ==> CanPay(s, s.tasks[k].ids, e.value))
  {
    var ids := s.tasks[k].ids;
    var failed := s.(tasks := s.tasks[k := Failed(ids)]);
    if e.None? then failed
    else failed.(ledger := Post(s.ledger, SetOf(ids), [Smashed(s, ids, e.value)]), spent := s.spent + e.value.net)
  }

  ghost function DoRelease(s: Station, k: nat): Station
    requires k in s.tasks && s.tasks[k].Settled?
  {
    s.(pool := Add(s.pool, s.tasks[k].coins).1, tasks := s.tasks - {k},
       owner := Own(s.owner, At(s, Busy(k)), Avail))
  }

  /** The instance is gone, or never got the reply that told it of its claim: nobody holds the coins any more. */
  ghost function DoAbandon(s: Station, k: nat): Station
    requires k in s.tasks
  {
    s.(tasks := s.tasks - {k}, owner := s.owner - TaskIds(s.tasks[k]),
       stranded := s.stranded + TaskIds(s.tasks[k]) * s.ledger.Keys)
  }

  /** `is_initialized` is read; what the instance does afterwards hangs on the answer, however old it is by then. */
  ghost function DoBoot(s: Station): Station {
    if s.pool.initialized then s else s.(tasks := s.tasks[s.nextTask := Booted], nextTask := s.nextTask + 1)
  }

  function RunTask(s: Station, boot: Option<nat>): nat {
    if boot.Some? then boot.value else s.nextTask
  }

  ghost function DoStart(s: Station, boot: Option<nat>): Station {
    s.(pool := AcquireInitLock(s.pool, s.clock, MAX_INIT_DURATION).1,
       tasks := s.tasks[RunTask(s, boot) := Locked(s.clock + MAX_INIT_DURATION, boot.Some?)],
       nextTask := if boot.Some? then s.nextTask else s.nextTask + 1)
  }

  ghost function DoScan(s: Station, k: nat, gas: nat, listing: seq<GasCoin>): Station
    requires k in s.tasks && s.tasks[k].Locked?
  {
    var limit := KeepLimit(gas, s.target);
    s.(tasks := s.tasks[k := Splitting(s.tasks[k].lease, gas, Large(listing, limit), Small(listing, limit), map[])],
       owner := Own(s.owner, IdSet(listing), Busy(k)),
       unregistered := s.unregistered - IdSet(listing), stranded := s.stranded - IdSet(listing))
  }

  /** A full rescan: what follows is an Init run, for which nothing is marked any more. */
  ghost function DoClean(s: Station): Station {
    s.(pool := InitStats(CleanUp(s.pool)), owner := map[], promised := map[], claims := map[],
       tasks := map[s.nextTask := Booted], nextTask := s.nextTask + 1,
       unregistered := s.unregistered + IdSet(s.pool.available))
  }

  ghost function DoReserve(s: Station, budget: nat, expiration: nat, now: nat): Station {
    var (reply, pool) := Reserve(s.pool, budget, expiration, now);
    if reply.Reserved? then
      s.(pool := pool, owner := Own(s.owner, IdSet(reply.coins), Resv(reply.id)),
         promised := s.promised[reply.id := Promise(reply.coins, budget)])
    else s.(pool := pool)
  }

  ghost function DoExecute(s: Station, k: nat, e: Effects): Station
    requires k in s.tasks && s.tasks[k].Queried? && CanPay(s, s.tasks[k].ids, e)
  {
    var Queried(ids, total) := s.tasks[k];
    // what the station computes, without reading the ledger again
    var recorded := GasCoin(NetOf(total, e.net), ids[0], e.version, e.digest);
    var paid := s.(ledger := Post(s.ledger, SetOf(ids), [Smashed(s, ids, e)]), spent := s.spent + e.net);
    if Oversized([recorded], Threshold(s)) then paid.(tasks := s.tasks - {k}, owner := s.owner - SetOf(ids))
    else paid.(tasks := s.tasks[k := Settled([recorded])], owner := Own(s.owner - SetOf(ids), {ids[0]}, Busy(k)))
  }

  ghost function DoReadLatest(s: Station, k: nat, listing: seq<GasCoin>): Station
    requires k in s.tasks
  {
    var rest := s.owner - TaskIds(s.tasks[k]);
    if s.tasks[k].Failed? && Oversized(listing, Threshold(s)) then s.(tasks := s.tasks - {k}, owner := rest)
    else s.(tasks := s.tasks[k := Settled(listing)], owner := Own(rest, IdSet(listing), Busy(k)))
  }

  ghost function ClaimedIds(p: Registry, now: nat): set<ObjectId> {
    set r, id | r in Pool.Claimed(p, now) && id in p.reservations[r] :: id
  }

  ghost function DoExpire(s: Station, now: nat): Station {
    var due := Pool.Claimed(s.pool, now);
    var pool := Expire(s.pool, now);
    if due == {} then s.(pool := pool)
    else
      s.(pool := pool,
         tasks := s.tasks[s.nextTask := Expired(ClaimedIds(s.pool, now))], nextTask := s.nextTask + 1,
         owner := Own(s.owner, ClaimedIds(s.pool, now), Busy(s.nextTask)),
         claims := s.claims + map id | id in due :: ByExpiry)
  }

  ghost function DoSplit(s: Station, k: nat, i: nat, x: Split): Station
    requires CanSplit(s, k, i) && SplitOk(s, k, i, x)
  {
    var Splitting(lease, g, work, done, counts) := s.tasks[k];
    var parts := SplitParts(s, k, i, x);
    var limit := KeepLimit(g, s.target);
    s.(ledger := Post(s.ledger, {work[i].id}, parts), used := s.used + IdSet(parts),
       tasks := s.tasks[k := Splitting(lease, g, work[..i] + work[i + 1..] + Large(parts, limit),
         done + Small(parts, limit),
                                       counts - {work[i].id})],
       owner := Own(s.owner, IdSet(parts), Busy(k)), spent := s.spent + x.net)
  }

  /**
   * The run reads the coin again and keeps count and budget. The coin is what it was, unless a second scan has
   * given it to somebody else as well; if it is gone, the run panics.
   */
  ghost function DoReread(s: Station, k: nat, i: nat): Station
    requires k in s.tasks && s.tasks[k].Splitting? && i < |s.tasks[k].work| && 0 < s.target
  {
    var x, id := s.tasks[k], s.tasks[k].work[i].id;
    if id !in s.ledger then DoAbandon(s, k)
    else if s.ledger[id] == x.work[i] then s
    else s.(tasks := s.tasks[k := x.(work := x.work[i := s.ledger[id]], counts := x.counts[id := CountOf(s, k, i)])])
  }

  /** The split happened, but the run only sees an error: it goes on with the remainder and the old count. */
  ghost function DoHide(s: Station, k: nat, i: nat, x: Split): Station
    requires CanSplit(s, k, i) && SplitOk(s, k, i, x)
  {
    var Splitting(lease, g, work, done, counts) := s.tasks[k];
    var parts := SplitParts(s, k, i, x);
    var n := |x.created|;
    s.(ledger := Post(s.ledger, {work[i].id}, parts), used := s.used + IdSet(parts),
       tasks := s.tasks[k := Splitting(lease, g, work[i := parts[n]], done, counts[work[i].id := n + 1])],
       stranded := s.stranded + IdSet(parts[..n]), spent := s.spent + x.net)
  }

  ghost function DoAddChunk(s: Station, k: nat): Station
    requires k in s.tasks && s.tasks[k].Splitting?
  {
    var x := s.tasks[k];
    var n := if |x.done| < CHUNK then |x.done| else CHUNK;
    s.(pool := Add(s.pool, x.done[..n]).1, tasks := s.tasks[k := x.(done := x.done[n..])],
       owner := Own(s.owner, IdSet(x.done[..n]), Avail))
  }

  /** A new deployment: empty registry with its statistics initialised, and no coins yet. */
  function Fresh(target: nat): Station {
    Station(target, InitStats(EMPTY), map[], map[], 0, 0, {}, {}, {}, map[], map[], map[], 0, 0)
  }

  // ---------------------------------------------------------------- runs

  ghost predicate InRun(s: Station, p: Place) {
    p.Busy? && p.task in s.tasks && IsRun(s.tasks[p.task])
  }

  /**
   * The scan of `run_once` is safe when no coin that somebody holds is selected. A refresh scan can go
   * wrong in three ways only: a coin of exactly the threshold is held (execution releases up to and
   * including it, the scan selects from it on) ...
   */
  ghost predicate AtThreshold(s: Station) {
    exists p, id :: id in At(s, p) && !InRun(s, p) && id in s.ledger && s.ledger[id].balance == Threshold(s)
  }

  /** ... or a payment was merged although the executor got an error, and it has not looked yet. */
  ghost predicate UnreadMerge(s: Station) {
    exists k, id :: k in s.tasks && s.tasks[k].Failed? && id in s.tasks[k].ids
      && id in s.ledger && Threshold(s) < s.ledger[id].balance
  }

  /** ... or another run, which has outlived its lease, has a coin queued that the scan selects. */
  ghost predicate QueuedElsewhere(s: Station, k: nat) {
    exists j, c :: j in s.tasks && j != k && s.tasks[j].Splitting? && c in s.tasks[j].work && Threshold(s) <= c.balance
  }

  /** An Init scan goes wrong whenever anything at all is held. */
  ghost predicate NothingHeld(s: Station) {
    && s.pool.available == [] && s.pool.reservations == map[]
    && forall k :: k in s.tasks ==> TaskIds(s.tasks[k]) == {}
  }

  /** And a release goes wrong if its reply is lost after something was added: it is sent again. */
  ghost predicate SafeStep(s: Station, st: Step)
    requires Enabled(s, st)
  {
    match st
    case Scan(k, _, _) =>
      if s.tasks[k].init then NothingHeld(s) else !AtThreshold(s) && !UnreadMerge(s) && !QueuedElsewhere(s, k)
    case ReleaseErr(k, applied) => applied ==> s.tasks[k].coins == []
    case _ => true
  }

  /** `steps` can be taken one after the other from `s`, scans and lost replies to a release only when safe. */
  ghost predicate CanRun(s: Station, steps: seq<Step>)
    decreases |steps|
  {
    steps == [] || (Enabled(s, steps[0]) && SafeStep(s, steps[0]) && CanRun(Apply(s, steps[0]), steps[1..]))
  }

  ghost function Run(s: Station, steps: seq<Step>): Station
    requires CanRun(s, steps)
    decreases |steps|
  {
    if steps == [] then s else Run(Apply(s, steps[0]), steps[1..])
  }

  /** `steps` can be taken one after the other from `s`, safe or not, and lead to `u`. */
  ghost predicate Leads(s: Station, steps: seq<Step>, u: Station)
    decreases |steps|
  {
    if steps == [] then s == u else Enabled(s, steps[0]) && Leads(Apply(s, steps[0]), steps[1..], u)
  }

  /** A state that some safe run of a deployment comes to. */
  ghost predicate Reachable(s: Station) {
    exists steps :: CanRun(Fresh(s.target), steps) && Run(Fresh(s.target), steps) == s
  }
}
