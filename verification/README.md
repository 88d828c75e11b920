# Gas station: proofs about the coin pool, the splitter and the access limits

A gas station sponsors transactions. It owns gas coins on a ledger, keeps a registry of them in Redis,
lends coins out by reservation, executes the sponsored transaction, and puts what is left of the coins
back. This project models that registry and everything that touches it, and proves what holds in every
interleaving of any number of station instances.

## How the files fit together

| file | module(s) |
|---|---|
| `Coins.dfy`, `Ledger.dfy`, `Numerals.dfy` | coins, totals, sums over finite maps, decimal and hexadecimal numerals |
| `Pool.dfy` | the registry as a value and what each Lua script does to it |
| `CoinCodec.dfy`, `RedisStorage.dfy` | the same registry as strings; a class whose methods follow the scripts and the Rust around them, proved against `Pool` |
| `SplitMath.dfy`, `SplitAccounts.dfy`, `Splitter.dfy` | one coin split and its retry, the books of a split run, and the concurrent work queue as a class with a nondeterministic scheduler |
| `Station.dfy` | the protocol: 23 kinds of atomic steps over registry, ledger and tasks in flight |
| `StationInvariant.dfy`, `StationSteps.dfy`, `StationTheorems.dfy` | the invariant, that every safe step keeps it, and the whole-run results |
| `StationValue.dfy`, `StationHidden.dfy` | where all the money is, holder by holder; what errors leave to nobody, and which runs they stop |
| `StationRuns.dfy` | runs of the initializer over time: whose the init lock is, when two runs are active, when a first start may scan, when a stopped run goes on |
| `StationThreshold.dfy` | the runs in which no refresh scan goes wrong |
| `StationRaces.dfy`, `StationOverrun.dfy` | concrete runs in which the code does not meet its properties: scans, releases and errors; the init lock and the runs under it |
| `GasStation.dfy` | one instance's calls as methods, and that executions and unlocks are runs of the atomic steps |
| `Leases.dfy` | maintenance leases over whole runs |
| `Operands.dfy`, `Rules.dfy`, `AccessController.dfy` | rule operands as text, what checking and settling a transaction means, and the staged imperative form of it |
| `RuleLaws.dfy` | what rules say in plain terms: answers, counters, settlements, and who shares a counter |
| `Limiter.dfy`, `LimiterInvariant.dfy`, `LimiterSteps.dfy`, `LimiterTheorems.dfy`, `LimiterSolo.dfy`, `LimiterRaces.dfy` | gas-usage limits under concurrency, that the steps of one transaction are the sequential check, and concrete runs in which a counter is wrong |
| `Migration.dfy`, `CleanUp.dfy` | the namespace migration and the registry clean-up, key by key |
| `RegistryKeys.dfy` | the keys of every registry, and that migration and clean-up do to them what `Pool` says |

## What was found

The code meets its properties except in the cases below. Each is kept in the model as it is and shown by a
lemma with a concrete input or run; where there is an exact condition it is proved, and the property is
proved outside of it.

1. **Exact threshold.** Execution releases a coin of exactly 200 times the target (`>` at
   `src/gas_station/gas_station_core.rs:188`), a refresh scan selects from that balance on (`>=` at
   `src/iota_client.rs:66`). A refresh scan can then split a coin the pool lists: `StationRaces.BoundaryGap`.
   It is the only balance at which this can happen: `StationThreshold.ThresholdIsTheOnlyGap`.
2. **An error that hides an effect.** When the executor gets an error for a transaction that did take
   effect, a refresh scan can take the merged coin before the executor reads it:
   `StationRaces.ErrorRace`. With the first case, and a coin that a run past its lease has queued (finding
   11), this is exactly when a refresh scan is unsafe: `StationTheorems.RefreshScanExact`.
3. **Initialization decided before the lock.** `is_initialized` is read before the init lock is taken, so
   an instance that read it early can scan the whole pool a second time: `StationRaces.InitRace`,
   `StationTheorems.InitScanExact`. If the registry is still unmarked at the scan and no other run is active,
   the scan is always safe: `StationRuns.FirstStartIsSafe`.
4. **Counters that are wrong once a transaction is through.** The unused part of a claim stays on its
   counter when a second limited rule claims for the same transaction and overwrites the request, when the
   tracker's reply to the claim is lost, and when the tracker does not take the settlement:
   `LimiterTheorems.OverwriteNeedsTwoRules`, `LimiterRaces.OverwrittenRequest`, `LimiterRaces.LostReply`. In
   the other direction, an execution that returns an error is settled as if it had used nothing
   (`src/rpc/server.rs:403-411`). If the ledger did charge, the counter falls short by the charge, and a limit
   can be passed, by what errors have hidden and never by more: `LimiterTheorems.UsageIsBounded`,
   `LimiterTheorems.AllowRuleLimits`, `LimiterTheorems.DenyRuleLimits`; in `LimiterRaces.HiddenChargePasses`
   every limit is passed by every charge up to it. Exactly when which of this happens:
   `LimiterTheorems.CounterIsExact`, `LimiterTheorems.LossIsExact` (over whole runs), `Rules.TransactionNet`.
5. **Early expiry of a counter.** A settlement that comes after its counter expired is taken from the
   present window: `LimiterTheorems.LateSettlementUndercounts`. This breaks a limit: in
   `LimiterRaces.LimitIsPassed` a rule with a limit of 100 lets through a usage of 190 in one window.
6. **Missing statistics.** With the cached statistics absent, reserving pops coins and then fails; exactly
   then coins are lost from the list: `Pool.ReserveLosesCoins`. Adding fails after the pushes and is tried
   again, each time with one more copy in the list: `Pool.AttemptsPileUp`. The state comes up when a full
   rescan fails between the clean-up and setting the statistics up again, which frees the maintenance lock,
   while a release is under way: `Pool.CleanUpWithoutStatistics`, where two reservations end with one coin.
7. **A hidden split.** After an error the splitter reads the coin again but keeps the count and the budget
   of the first attempt. If the error hid a split, the created coins are nobody's and only a scan that
   selects them finds them (`StationHidden.StrandedExact`, `StationHidden.HiddenSplitStrands`), and the
   remainder can pay the next attempt if and only if the hidden one charged no more than one created coin and
   the rest of the division (`SplitMath.RetryIsPayable`). If it can, the parts may be smaller than the
   target: `SplitMath.RetryIsTooSmall`. If not, the run keeps its lock until the lease is over and neither ends
   nor adds anything, also long after: `StationHidden.HiddenSplitStalls`, `StationHidden.StuckForGood`, and the
   input in `SplitMath.RetryNeverPayable` and `StationRaces.HiddenSplit`. In runs that are not safe it goes on
   only if somebody else brings its coin to the kept budget: `StationRuns.StuckUntilFed`,
   `StationRuns.PaysIfFed`. That can happen, and then it splits a coin that others hold:
   `StationOverrun.StuckRunEnds`.
8. **A registry with only reservations.** The migration is skipped for an old registry that was never
   marked initialized and lists no coin, even if it holds reservations: `Migration.FirstStartCarriesOver`,
   `Migration.ReservationStaysBehind`. The scripts here mark a registry with its first coin, so this concerns
   a namespace that something else has written, or from which the mark was taken.
9. **A release sent twice.** Adding coins is tried until a reply comes. If a reply is lost after the coins
   were added, they are listed twice and lent twice: `StationRaces.ReleaseRace`, and
   `StationTheorems.ResendExact` for when exactly.
10. **A claim without a claimant.** If the reply to a claim or an expiry is lost, or the instance goes down
    with a task in flight, the coins are nobody's until a scan selects them: `StationRaces.LostClaim`,
    `StationHidden.StrandedForGood`.
11. **Two runs at once.** Nothing renews or checks the lease of a run. When it is over, a second run gets the
    lock exactly then, and both are active: `StationRuns.SecondRunExact`, `StationOverrun.TwoRuns` with a run
    stopped as in finding 7. If that run's coin is large enough, the second run's scan selects it:
    `StationOverrun.StuckIsSelected`. As long as no run outlives its lease there is never more than one:
    `StationRuns.RunsAreExclusive`.
12. **A lock without a run.** If the reply to the lock script is lost (`src/gas_station_initializer.rs:357`),
    or an instance goes down with its run, the init lock stays taken for 12 hours:
    `StationOverrun.LostLock`, `StationOverrun.LockOfNobody`. These are the only ways to keep the next run
    from the lock while none is in progress: `StationRuns.LockIsExact`, `StationRuns.LockBetweenRuns`.

Documentation and code differ in one place that matters here: `src/storage/mod.rs:64-67` says maintenance
blocks adding coins; `add_new_coins.lua` does not look at the lock, and the model follows the script.

## Assumptions

- The ledger: payments are owned and distinct, a charge never exceeds the payment or the budget, gas used
  never exceeds the budget, splitting into n creates n - 1 coins, object ids are never reused.
- Ledger reads are current. What a failed execution or a failed split did is on the ledger when its caller
  reads the coins again, and not later. The net gas of a split is not negative.
- The payment of an executed transaction is what was reserved. `GasStation.GasStation.ExecuteTransaction`
  does not need this; the whole-run results do.
- The target balance does not change. A run of the initializer may take any time.
- Clean-up with the statistics set up again happens while nothing is reserved or in flight; finding 6 shows
  what can happen otherwise.
- A safe run takes scans, and loses replies to a release, only where `Station.SafeStep` allows it; findings
  1 to 3, 9 and 11 say what it excludes. What is said of every run needs no such condition.
- A limiter run has no counter overflow and no counter expiring under an open claim, and transaction
  digests are distinct.

## Model

| member | source | states |
|---|---|---|
| StationTheorems.ReachableIsExclusive | src/gas_station/gas_station_core.rs:123-208 | In every state that a safe run of any number of instances reaches, a coin id is in at most one place: list position, live reservation, executor, unlocker or splitter; no two reservations share a coin. |
| StationTheorems.RegistryAgrees | src/gas_station/gas_station_core.rs:185-208 | In every state of a safe run listed and reserved coins are the ledger's current objects, listed ones at most the threshold, the statistics are right, and a reservation covers its budget. |
| StationValue.ValueIsConserved | src/gas_station/gas_station_core.rs:132-168 | In every state of a safe run the cached total, what live reservations promise, what each executor, unlocker and initializer run has on record, and the coins nobody holds make up what was deposited minus all net gas; a coin nobody holds is oversized, not scanned since its deposit, or stranded by an error. |
| StationTheorems.NothingStranded | src/storage/redis/lua_scripts/reserve_gas_coins.lua:73-78 | Every reservation id ever issued is either live with a queue entry or claimed, never both, and no other id is. |
| StationTheorems.ClaimsAreFinal | src/storage/redis/lua_scripts/ready_for_execution.lua:14-20 | Each step leaves earlier claims alone; a new one is made by ready_for_execution on that id or by an expiry that was due, and takes the reservation out. |
| StationTheorems.ExpiryIsExact | src/storage/redis/lua_scripts/expire_coins.lua:14-27 | An expiry at a time claims exactly the live reservations due by then and leaves the others as they are. |
| StationRuns.RunsAreExclusive | src/storage/redis/lua_scripts/acquire_init_lock.lua:16-28 | In every safe run, as long as no run of the initializer outlives its lease on the way, at most one is active, and meanwhile the lock script refuses everybody. |
| StationRuns.SecondRunExact | src/storage/redis/lua_scripts/acquire_init_lock.lua:20-28 | From such a state time may pass to any moment, and a second run is granted the lock if and only if the first has outlived its lease by then; both are then active. |
| StationRuns.LockIsExact | src/storage/redis/lua_scripts/acquire_init_lock.lua:20-28 | In every run, safe or not, the init lock is granted if and only if it was not taken since any run last freed it, or that lease is over. |
| StationRuns.LockBetweenRuns | src/gas_station_initializer.rs:356-370 | In every safe run, while no run of the initializer is in progress the next one gets the init lock if and only if nobody took it since it was last freed, or that lease is over; and if somebody did, the reply was lost or the run's instance went down. |
| StationRuns.FirstStartIsSafe | src/gas_station_initializer.rs:246-260 | In every reachable state with the registry unmarked and no other run active, an Init scan is safe and finds that nobody holds anything. |
| StationTheorems.RefreshScanExact | src/gas_station_initializer.rs:372-380 | A refresh scan keeps coins in one place if and only if no coin of exactly the threshold is held outside of runs, no failed payment hides an oversized coin, and no other run has a coin of at least the threshold queued. |
| StationTheorems.InitScanExact | src/gas_station_initializer.rs:246-260 | An Init scan keeps coins in one place if and only if nothing at all is held. |
| StationTheorems.ResendExact | src/gas_station/gas_station_core.rs:337-346 | A release whose reply is lost after it was done keeps coins in one place if and only if there were none. |
| StationTheorems.OversizedIsRecovered | src/gas_station/gas_station_core.rs:185-199 | Every registered coin of ordinary size that no error has left to nobody is held by somebody, and a scan takes up every oversized one. |
| StationTheorems.DropsOnlyOversized | src/gas_station/gas_station_core.rs:140-209 | A coin that leaves everybody's hands and still exists is above the threshold and dropped by an execution, unless the task that held it is gone; then it is on record as stranded. |
| StationSteps.KeepStep | src/gas_station/gas_station_core.rs:100-223 | Each of the 23 atomic steps, where safe, keeps the eight-part invariant of registry, promises, claims, tasks, ownership, ledger, custody and value. |
| StationSteps.KeepRun | src/gas_station_initializer.rs:299-346 | So does every safe run of any steps by any instances. |
| StationHidden.StrandedIsUnheld | src/gas_station_initializer.rs:134-146 | In every state of a safe run the coins that errors have left to nobody are on the ledger and in no place. |
| StationHidden.StrandedExact | src/gas_station_initializer.rs:366-380 | Every step leaves such a coin as it is, and exactly a scan that selects it takes it up. |
| StationHidden.StrandedForGood | src/gas_station_initializer.rs:134-146 | Over whole runs it stays nobody's and unchanged unless some scan selects it. |
| StationHidden.HiddenSplitStrands | src/gas_station_initializer.rs:134-146 | A split behind an error strands all its created coins, and a refresh can find them if and only if the split coin held 2000 times the gas cost and threshold together. |
| StationHidden.HiddenSplitStalls | src/gas_station_initializer.rs:78-146 | It leaves a coin that can never pay the kept budget if and only if it charged more than one created coin and the rest of the division. |
| StationHidden.StuckForGood | src/gas_station_initializer.rs:134-146 | In every safe run from then on, before and after the end of its lease, the run does not end and adds nothing, unless its instance goes down. |
| StationRuns.StuckUntilFed | src/gas_station_initializer.rs:90-148 | In every run of the system, safe or not: as long as the ledger never holds the kept budget under the coin's id, a stopped run does not end and adds nothing. |
| StationRuns.PaysIfFed | src/gas_station_initializer.rs:134-146 | Reading its coin again, a run can pay the next attempt if and only if the ledger holds the kept budget under the id; the coin is then split and done with. |
| StationThreshold.ThresholdIsTheOnlyGap | src/gas_station_initializer.rs:396-410 | If no execution leaves a payment at exactly the threshold and no release is sent twice, every refresh scan is safe that no hidden effect precedes and that finds no coin of such a size queued by another run, because the guard on the gas cost keeps what a run adds below the threshold. |
| StationThreshold.MissedThresholdIsSafe | src/gas_station_initializer.rs:56-62 | The same from any state that satisfies the invariant. |
| StationRaces.BoundaryGap | src/gas_station/gas_station_core.rs:185-191 | A reachable run in which a coin of exactly the threshold is released and then selected and split by a refresh. |
| StationRaces.ErrorRace | src/gas_station/gas_station_core.rs:169-181 | A reachable run in which a refresh takes the coin of a transaction that took effect behind an error. |
| StationRaces.InitRace | src/gas_station_initializer.rs:246-258 | A reachable run in which two instances read the mark before either has the lock, and the second one's Init scan takes the pool that the first has filled and marked. |
| StationRaces.ReleaseRace | src/gas_station/gas_station_core.rs:337-346 | A reachable run after which a release whose reply is lost lists a coin twice, and two callers reserve it. |
| StationRaces.LostClaim | src/gas_station/gas_station_core.rs:123-131 | A reachable run after which two claimed coins are nobody's and too small for a refresh. |
| StationRaces.HiddenSplit | src/gas_station_initializer.rs:134-146 | A reachable run in which a hidden split strands a coin and leaves a remainder that never pays. |
| StationOverrun.LostLock | src/gas_station_initializer.rs:356-357 | A reachable state without a run in which the lock script refuses everybody for 12 hours, because a reply of it was lost. |
| StationOverrun.LockOfNobody | src/gas_station_initializer.rs:356-370 | The same after an instance went down with its run. |
| StationOverrun.TwoRuns | src/storage/redis/lua_scripts/acquire_init_lock.lua:20-28 | A reachable state in which a stopped run has outlived its lease and a second run is active beside it. |
| StationOverrun.StuckIsSelected | src/gas_station_initializer.rs:372-380 | A reachable run in which the second run's refresh scan selects the coin of 96001 that the stopped one has queued, and nothing else is wrong with it. |
| StationOverrun.StuckRunEnds | src/gas_station_initializer.rs:90-148 | A run in which a stopped run's coin is listed by a first start and merged up to 200 by a payment; the stopped run then splits it, adds the parts, ends, and leaves a coin listed twice. |
| GasStation.GasStation.ExecuteTransaction | src/gas_station/gas_station_core.rs:100-223 | Claims first; on success computes the new coin from the balance read before and the gas charged, on error reads the coins again; releases all of them, or none and asks for a rescan if one is oversized. |
| GasStation.GasStation.UnlockExpired | src/gas_station/gas_station_core.rs:373-391 | One turn of the unlocker returns the latest objects of exactly the coins whose reservations were due. |
| GasStation.GasStation.RunOnce | src/gas_station_initializer.rs:348-435 | Scans the ledger itself; reply lost, refused, empty, too small, complete, panicked without statistics, or never ending after a hidden split. A refused run changes nothing, a lost reply leaves the lock taken, an empty, too small or complete run leaves it free. What a complete run adds is exactly right if and only if no error hid a split, and on the ledger it and the hidden coins replace what was scanned. |
| GasStation.AddTwice | src/gas_station_initializer.rs:426-428 | Adding in chunks is the same as adding at once. |
| GasStation.ExecutionIsARun | src/gas_station/gas_station_core.rs:123-208 | One execution is a run of the atomic steps and leaves the same registry and ledger, on success and on error, oversized or not. |
| GasStation.UnlockIsARun | src/gas_station/gas_station_core.rs:373-391 | One turn of the unlocker that finds something due is a run of the atomic steps and leaves the same registry. |
| Pool.ReserveContract | src/storage/redis/lua_scripts/reserve_gas_coins.lua:22-80 | Outside maintenance, reserving succeeds if and only if some prefix of at most 256 coins reaches the budget; it then takes exactly the shortest such prefix, and otherwise changes nothing. |
| Pool.ReserveLosesCoins | src/storage/redis/lua_scripts/reserve_gas_coins.lua:62-71 | A reservation that does not succeed changes the list exactly when statistics are missing and the budget could be reached. |
| Pool.AttemptsPileUp | src/storage/redis/lua_scripts/add_new_coins.lua:18-51 | With a statistic missing no attempt to add ever succeeds, and each leaves one more copy of the coins in the list. |
| Pool.CleanUpWithoutStatistics | src/gas_station_initializer.rs:214-286 | A clean-up that gets no further, two attempts of a release, and then a lost copy, or two reservations with one coin. |
| Pool.TakenIsShortest | src/storage/redis/lua_scripts/reserve_gas_coins.lua:39-52 | The pop loop stops at the first prefix that reaches the budget, or at the limit or the end. |
| Pool.ReserveKeepsStats | src/storage/redis/lua_scripts/reserve_gas_coins.lua:62-71 | Reserving keeps the cached count and total equal to the list's. |
| Pool.AddKeepsStats | src/storage/redis/lua_scripts/add_new_coins.lua:42-51 | So does adding. |
| Pool.InitStatsIsIdempotent | src/storage/redis/lua_scripts/init_coin_stats_at_startup.lua:14-41 | Initializing the statistics twice is initializing once; after a clean-up they are present and right. |
| Pool.InitStatsFillsIn | src/storage/redis/lua_scripts/init_coin_stats_at_startup.lua:14-41 | Statistics and version that are there stay, right or wrong; missing ones are counted; nothing else changes. |
| Pool.CleanedIsNew | src/storage/redis/lua_scripts/clean_up_coin_registry.lua:8-39 | A cleaned registry is unmarked, has no version and nothing to lend, keeps its locks, and once filled numbers its reservations from 1. |
| Pool.AddedComeLast | src/storage/redis/lua_scripts/add_new_coins.lua:18-29 | Whoever can be served before coins are added gets the same coins under the same id afterwards, and leaves the same registry. |
| Pool.ReturnRestores | src/storage/redis/lua_scripts/reserve_gas_coins.lua:62-80 | Reserving, claiming and bringing back restores coins, statistics and reservations, with the coins at the end of the list; only once can it be claimed. |
| Pool.ExpireContract | src/storage/redis/lua_scripts/expire_coins.lua:14-27 | An expiry takes the reservations that are due and every queue entry of that age, and a second one at the same time does nothing. |
| RedisStorage.RedisStorage.PopCoins | src/storage/redis/lua_scripts/reserve_gas_coins.lua:35-52 | The loop over comma-separated strings pops exactly the coins the specification takes, with their total and ids. |
| RedisStorage.RedisStorage.PushBack | src/storage/redis/lua_scripts/reserve_gas_coins.lua:54-60 | The push-back loop restores the list in its original order. |
| RedisStorage.RedisStorage.ReserveScript | src/storage/redis/lua_scripts/reserve_gas_coins.lua:17-80 | The whole script, on strings, replies and changes the registry as specified, on every branch. |
| RedisStorage.RedisStorage.ReserveGasCoins | src/storage/redis/mod.rs:99-161 | The Rust side returns the coins that were formatted, with maintenance, shortage and script errors told apart. |
| RedisStorage.RedisStorage.ReadyForExecution | src/storage/redis/lua_scripts/ready_for_execution.lua:11-20 | Succeeds on a live reservation once, deletes its key and nothing else. |
| RedisStorage.RedisStorage.AddNewCoins | src/storage/redis/lua_scripts/add_new_coins.lua:13-53 | Formats, pushes to the end, marks the registry and updates the statistics as specified. |
| RedisStorage.RedisStorage.ExpireScript | src/storage/redis/lua_scripts/expire_coins.lua:9-29 | Deletes the due reservations and queue entries and returns one id list for each claimed one. |
| RedisStorage.RedisStorage.ExpireCoins | src/storage/redis/mod.rs:220-238 | The flat id list is the claimed reservations' lists end to end; it panics exactly if one of them was empty. |
| RedisStorage.RedisStorage.InitCoinStatsAtStartup | src/storage/redis/lua_scripts/init_coin_stats_at_startup.lua:10-43 | The summing loop over strings gives the statistics of the specification. |
| RedisStorage.RedisStorage.TryAcquireMaintenanceLock | src/storage/redis/lua_scripts/acquire_maintenance_lock.lua:21-33 | Grants when there is no lock or it ran out, and sets the new end. |
| RedisStorage.RedisStorage.TryAcquireInitLock | src/storage/redis/lua_scripts/acquire_init_lock.lua:16-28 | The same for the init lock. |
| RedisStorage.RedisStorage.FreeInitLock | src/storage/redis/lua_scripts/release_init_lock.lua:8-11 | Ends the init lock and touches nothing else. |
| RedisStorage.RedisStorage.FreeMaintenanceLock | src/storage/redis/lua_scripts/release_maintenance_lock.lua:8-11 | Ends the maintenance lock and touches nothing else. |
| RedisStorage.RedisStorage.CleanUpCoinRegistry | src/storage/redis/lua_scripts/clean_up_coin_registry.lua:8-39 | Empties every field of the registry but the two locks. |
| RedisStorage.RedisStorage.Commit | src/storage/redis/lua_scripts/reserve_gas_coins.lua:62-80 | Statistics, id, reservation key and queue entry after a successful pop, and the failure on missing statistics. |
| RedisStorage.RedisStorage.PushNew | src/storage/redis/lua_scripts/add_new_coins.lua:18-29 | The push loop appends the coins in order and sums their balances. |
| RedisStorage.RedisStorage.TakeOut | src/storage/redis/lua_scripts/expire_coins.lua:16-25 | The loop over due members claims each live reservation once, in any order. |
| RedisStorage.RedisStorage.SumBalances | src/storage/redis/lua_scripts/init_coin_stats_at_startup.lua:24-31 | The loop over strings sums exactly the listed balances. |
| RedisStorage.RedisStorage.ParseCoins | src/storage/redis/mod.rs:135-149 | Parsing a formatted list gives the coins back in order. |
| CoinCodec.RustRoundTrip | src/storage/redis/mod.rs:135-149 | The Rust split parser recovers exactly the formatted coin, for all 64-bit balances and versions. |
| CoinCodec.CoinIsWritten | src/storage/redis/mod.rs:187-193 | A coin is written as balance, id, version and digest with commas between, in this order. |
| CoinCodec.IdTextIsFixed | src/storage/redis/mod.rs:187-193 | Every 32-byte id is written as 0x and 64 hexadecimal digits. |
| CoinCodec.LuaReadsTheSame | src/storage/redis/lua_scripts/reserve_gas_coins.lua:43-48 | The Lua index arithmetic reads the same balance and the same id text from the same string. |
| CoinCodec.IdListRoundTrip | src/storage/redis/mod.rs:230-234 | Splitting a joined id list gives the list back, unless it was empty. |
| CoinCodec.SplitJoin | src/storage/redis/lua_scripts/reserve_gas_coins.lua:75 | Splitting undoes joining if and only if there is at least one part. |
| SplitMath.SplitIsPayable | src/gas_station_initializer.rs:80-89 | For every coin that is split the count is between 2 and the cap, and count times gas and target, so also the budget, never exceed the coin. |
| SplitMath.SplitIsLargest | src/gas_station_initializer.rs:80-84 | The count is the largest the coin can pay for with gas and a whole target each, up to 2000. |
| SplitMath.CreatedCoinsAreTight | src/gas_station_initializer.rs:80-89 | Below that cap the equal parts together hold less than one more target and its gas above their targets. |
| SplitMath.SplitIsExact | src/gas_station_initializer.rs:149-162 | Under that budget every part holds at least the target, the remainder is the largest, and parts plus gas are the coin. |
| SplitMath.PartsAreExact | src/gas_station_initializer.rs:149-162 | The coins one split leaves, in order, with ids and exact value. |
| SplitMath.KeepLimitBelowThreshold | src/gas_station_initializer.rs:396-410 | Coins kept whole are below the refresh threshold if and only if the guard on the gas cost holds. |
| SplitMath.RetryIsPayable | src/gas_station_initializer.rs:78-146 | With the count and budget of the first attempt, the remainder of a hidden split can pay again if and only if the hidden charge was at most one created coin and the rest of the division. |
| SplitMath.RetryIsTooSmall | src/gas_station_initializer.rs:149-151 | A payable retry makes parts below the target if and only if the remainder is below count times gas and target. |
| SplitMath.RetryNeverPayable | src/gas_station_initializer.rs:80-89 | A coin of 200, target 1 and gas cost 98: hidden at a charge of 50, 148 are left for a budget of 196. |
| SplitMath.HiddenSplitIsFound | src/gas_station_initializer.rs:372-380 | Created coins reach the refresh threshold if and only if the split coin held 2000 times the gas cost and threshold together. |
| Splitter.CoinSplitEnv.SplitGasCoins | src/gas_station_initializer.rs:437-463 | For every schedule and whatever the errors hide, the drain ends, or some task sends for ever what its coin cannot pay, and that only after a hidden split. When it ends, results, hidden coins and gas make up the inputs, and the result is exactly what it should be if and only if nothing was hidden: then there are at least as many coins as the inputs have room for targets with their gas, and no more than they have targets. |
| Splitter.CoinSplitEnv.EnqueueTask | src/gas_station_initializer.rs:55-67 | Keeps a coin of at most twice the gas cost and target whole, otherwise spawns a task and queues its handle last. |
| Splitter.CoinSplitEnv.ExecuteWithRetries | src/gas_station_initializer.rs:90-148 | Attempts that fail with or without effect, each followed by a new read of the coin: hidden coins, charges and transactions are accounted for, and the last attempt is paid if and only if what is left reaches the budget. |
| Splitter.CoinSplitEnv.Execute | src/gas_station_initializer.rs:78-148 | One task's transaction with its retries conserves value and ids, hidden coins included, and lowers the termination measure even if it costs nothing; it stalls only with a coin that cannot pay. If nothing was hidden, the coin is in as many equal parts and a remainder as it can pay for. |
| Splitter.CoinSplitEnv.EnqueuePart | src/gas_station_initializer.rs:149-162 | Handing on one part conserves value and ids and lowers the measure. |
| Splitter.CoinSplitEnv.Await | src/gas_station_initializer.rs:450-455 | Waiting for a task ends with its result or with a task that never returns, whatever the other tasks do meanwhile. |
| Splitter.CoinSplitEnv.Drain | src/gas_station_initializer.rs:450-463 | The loop over handles awaits every spawned task, or comes to one that never returns, which takes a hidden split. |
| SplitAccounts.RunDone | src/gas_station_initializer.rs:437-463 | The books of a whole run: value, ids, number of results and of transactions, and that the result is exactly right if and only if no error hid a split. |
| Leases.LeasesNeverOverlap | src/storage/redis/lua_scripts/acquire_maintenance_lock.lua:25-33 | In no run do two granted leases cover the same moment. |
| Leases.MaintenanceHoldsOff | src/storage/redis/lua_scripts/reserve_gas_coins.lua:22-27 | No reservation succeeds while any lease is in force. |
| Operands.OrderIsExact | src/access_controller/predicates/number.rs:115-118 | For every order of the six operators, printing and parsing round-trips all values if and only if the two-character comparisons come before their one-character prefixes. |
| Operands.ValueRoundTrip | src/access_controller/predicates/number.rs:77-140 | Parsing a printed operand gives it back, for all operators and every 64-bit number. |
| Operands.OperatorsAreRead | src/access_controller/predicates/number.rs:8-13 | Each of the six texts before a 64-bit number means the comparison it shows, on all values; a bare number is refused. |
| Numerals.ParseU64IsRead | src/access_controller/predicates/number.rs:120-125 | Numbers are read with a plus sign or leading zeros; empty, doubly signed, negative or oversized ones are refused. |
| Operands.CountByIsExact | src/access_controller/predicates/aggregate/count_by.rs:39-93 | A text parses to a counting key if and only if it is the key's printed form and the header name does not contain the prefix. |
| Operands.CountByIsRead | src/access_controller/predicates/aggregate/count_by.rs:39-93 | The texts of the two kinds of counting keys, and that a header name with the prefix inside is refused. |
| Rules.FirstRuleDecides | src/access_controller/mod.rs:72-140 | The answer is that of the first rule that does not pass, or else the default policy; a rule decides exactly when all six predicates hold and its action or hook says so, passes if its hook decides nothing, and fails if its hook does. |
| RuleLaws.PoliciesDecide | src/access_controller/mod.rs:72-75 | Without rules the policy answers, and a disabled controller allows everything and counts nothing. |
| RuleLaws.SendersDecide | src/access_controller/predicates/iota_address.rs:25-31 | A rule for everybody, one address or a list decides exactly for those senders, and the default policy for all others. |
| RuleLaws.BudgetsDecide | src/access_controller/rule.rs:275-298 | A rule on the gas budget, written as any of the six operators and a number, decides exactly when that comparison holds. |
| RuleLaws.PackagesDecide | src/access_controller/rule.rs:245-273 | A rule on packages decides exactly if some package of the transaction is among them, so never for a transaction without any. |
| RuleLaws.CommandsDecide | src/access_controller/rule.rs:222-243 | A rule on the command count decides exactly if the count matches or the transaction has none. |
| RuleLaws.RegoDecides | src/access_controller/rule.rs:184-220 | A Rego expression decides exactly if it says yes; its failure is one of the check only if it was asked, which the other predicates prevent. |
| RuleLaws.HookDecides | src/access_controller/mod.rs:101-122 | A hook's decision is the answer, without one the default policy's is, and its error fails the check. |
| RuleLaws.LimitDecides | src/access_controller/rule.rs:368-405 | A gas limit compares its counter with the claim on top; either way the claim is on that counter and on no other, and is remembered. |
| RuleLaws.TrackerFails | src/access_controller/rule.rs:381-385 | Without the tracker's reply the check fails and remembers nothing; a lost reply has raised the counter. |
| RuleLaws.CastsAreExact | src/access_controller/rule.rs:384-391 | The casts between signed and unsigned 64 bits are inverse to each other and keep what fits both. |
| RuleLaws.IncrementIsExact | src/tracker/stats_tracker_storage/redis/lua_scripts/aggr_increment_sum.lua:12-25 | The counter script adds, sets the maximum on an overflow in either direction, and leaves all other counters alone. |
| RuleLaws.SettlementIsExact | src/access_controller/mod.rs:142-168 | Settling takes the request out and lowers its own counter by exactly what was not used, by nothing if more was used or the tracker refuses. |
| RuleLaws.CountersAreExact | src/access_controller/rule.rs:335-366 | Two rules put two transactions on one counter if and only if they differ at most in their senders, not in those unless senders are counted, and the transactions agree on everything counted. |
| RuleLaws.CountersOfARule | src/access_controller/rule.rs:335-366 | Under one rule two transactions share a counter if and only if they agree on the sender, if it is counted, and on every counted header, where none is as good as an empty one. |
| RuleLaws.CountedApart | src/access_controller/rule.rs:335-391 | What one transaction claims does not change the answer to another that a counted sender or header tells apart from it. |
| Rules.TransactionNet | src/access_controller/mod.rs:85-93 | After check and settlement no request is left. Every counter is up by what was charged for each claim on it if and only if the books balance; with a charge that is reported, if and only if the whole budget was used or every claim is settled; with a charge behind an error, a settled claim's counter falls short by just that charge. |
| Rules.SettledNet | src/access_controller/mod.rs:142-168 | What settlement leaves on each counter: all claims, less the refund of the last remembered one if the tracker takes it. |
| AccessController.AccessController.CheckAccess | src/access_controller/mod.rs:72-140 | The rule loop with its reports refines the simple specification: same answer, counters and requests, for all rules and all answers from outside. |
| AccessController.AccessController.CheckRule | src/access_controller/mod.rs:80-134 | One turn of the loop claims only when the first five predicates hold, and answers as specified, errors included. |
| AccessController.MatchStages | src/access_controller/rule.rs:184-220 | The staged evaluation equals the conjunction of five predicates and reports up to the first that fails. |
| AccessController.MatchGlobalLimits | src/access_controller/rule.rs:317-413 | Claims the budget before comparing, and returns the request to settle; a lost reply leaves the counter raised without a request. |
| AccessController.GetRuleMeta | src/access_controller/rule.rs:335-366 | The loop over counting keys gives the counter's identity, in any order of the keys. |
| AccessController.RuleReport.AddPredicateReport | src/access_controller/reports.rs:76-79 | Recomputing the flag from all reports is keeping a running conjunction: the new flag is the report's and the old flag, and the new report's alone for the first one. |
| AccessController.StatsTracker.UpdateAggr | src/tracker/stats_tracker_storage/redis/lua_scripts/aggr_increment_sum.lua:12-25 | Creates the counter at zero, adds, and sets it to the maximum when the sum is out of range. |
| AccessController.AccessController.ConfirmTransaction | src/access_controller/mod.rs:142-168 | Takes the requests out and lowers their counters by the unused part, or by all of it without a usage, until the tracker fails, whether or not the error hides the update. |
| AccessController.AccessController.ExecuteTx | src/rpc/server.rs:320-424 | Asks the station to execute exactly on Allow and once, and settles once on every path, with the usage only after a successful execution and without it after an error, whatever was charged; a settlement that fails changes no reply. |
| LimiterTheorems.CounterIsExact | src/access_controller/mod.rs:147-166 | At every moment of every interleaving a counter is what is due for each claim of its window, the charge of settled ones and the budget of open or lost ones, less what was charged behind errors to settled ones; it is right if and only if there is no such charge. |
| LimiterTheorems.UsageIsBounded | src/access_controller/rule.rs:381-391 | Transactions whose claims found the counter within a limit are never charged more than that limit together, in any window, but for what errors have hidden from their settlements. |
| LimiterTheorems.AllowRuleLimits | src/access_controller/rule.rs:368-405 | The transactions that a rule whose operand admits at most L (`<=`, `<`, `=`) lets through in one window are charged at most L and what errors have hidden from their settlements; at most L if those hid nothing. |
| LimiterTheorems.DenyRuleLimits | src/access_controller/mod.rs:97-123 | The transactions that claim under a rule denying everything above L (`>`, `>=`, `!=`) in one window and get past it, by later rules or the default policy, are charged at most L and what errors have hidden from their settlements; at most L if those hid nothing. |
| LimiterTheorems.OperandsCap | src/access_controller/predicates/number.rs:64-74 | Which limit each of the six operators sets, for matching and for not matching. |
| LimiterTheorems.DenyRuleHolds | src/access_controller/mod.rs:97-123 | All transactions together that match a rule denying everything above L and get past it are charged at most L for each window its counter has seen so far, and what errors have hidden from their settlements. |
| LimiterTheorems.NobodySlipsBy | src/access_controller/mod.rs:85-87 | No transaction gets past a limited rule whose four own predicates it meets without having claimed under it, unless the rule's Rego expression said no. |
| LimiterTheorems.VetoIsExact | src/access_controller/rule.rs:184-220 | A rule counts as vetoed exactly if the run has a step in which its Rego expression was asked for the transaction and said no. |
| LimiterTheorems.NothingPends | src/rpc/server.rs:360-416 | When all transactions are through, no request is open and every claim is settled or lost. |
| LimiterTheorems.LossIsExact | src/access_controller/mod.rs:88-93 | Over whole runs, a transaction that is through has on the counter of each claim what it was charged; the full budget instead if and only if the claim was overwritten, its reply lost, or its settlement not taken; and otherwise less by just what an error of its execution hid. |
| LimiterTheorems.OverwriteNeedsTwoRules | src/access_controller/mod.rs:85-93 | A request is overwritten only if two limited rules match the transaction's own data. |
| LimiterTheorems.LateSettlementUndercounts | src/tracker/stats_tracker_storage/redis/lua_scripts/aggr_increment_sum.lua:13-18 | In any later window, whatever was claimed in it, a settlement leaves the counter short of its window's claims by the refund, and right only if there is none. |
| LimiterRaces.OverwrittenRequest | src/access_controller/mod.rs:88-93 | A reachable run in which a second limited rule claims: the first counter stays at 10 for a transaction that used 3. |
| LimiterRaces.LostReply | src/access_controller/rule.rs:381-385 | A reachable run in which a claim's reply is lost: the counter stays at 10 for a transaction that was not executed. |
| LimiterRaces.HiddenChargePasses | src/rpc/server.rs:403-411 | For every limit and every hidden charge up to it, a reachable run in which the rule lets through charges of the limit and the hidden one on top. |
| LimiterRaces.LimitIsPassed | src/tracker/stats_tracker_storage/redis/lua_scripts/aggr_increment_sum.lua:13-18 | A run with one early expiry in which a limit of 100 lets through a usage of 190 in one window. |
| LimiterSteps.KeepStep | src/access_controller/mod.rs:72-168 | Each atomic step of check, claim, record, lost reply, execution, settlement and expiry keeps the invariant. |
| LimiterSolo.SoloCheck | src/access_controller/mod.rs:72-140 | The concurrent steps of one transaction, taken alone, are the sequential check: same answer, counters and requests, for all answers of the tracker. |
| LimiterSolo.SoloConfirm | src/access_controller/mod.rs:142-168 | And its settlement steps are the sequential settlement, whatever the tracker answers. |
| Migration.RegistryIsPreserved | src/storage/redis/lua_scripts/migrate_keys.lua:41-92 | Into a namespace without registry keys the whole registry is carried over as it is, and none of it stays behind. |
| Migration.ReservationKeys | src/storage/redis/lua_scripts/migrate_keys.lua:61-86 | The reservation keys that are moved are exactly the texts of decimal digits, so also what is printed for any reservation id. |
| Migration.ReservationsMove | src/storage/redis/lua_scripts/migrate_keys.lua:61-86 | The key of every reservation id that is free at the target is moved with its value, and is read there as a reservation. |
| RegistryKeys.KeysAreKept | src/storage/redis/lua_scripts/reserve_gas_coins.lua:62-80 | Every registry with natural statistics has keys it is kept under, one for each reservation. |
| RegistryKeys.MigrationKeepsTheRegistry | src/storage/redis/lua_scripts/migrate_keys.lua:36-94 | Whatever registry a namespace keeps, coins, statistics, reservations, queue, marks and locks, its migration into a free namespace keeps there. |
| RegistryKeys.EveryRegistryMigrates | src/storage/redis/lua_scripts/migrate_keys.lua:36-94 | So does that of the keys of every registry there can be. |
| Migration.MarkDecides | src/storage/redis/lua_scripts/get_schema_version.lua:28-34 | A target marked with a version is migrated into exactly if that version is 0. |
| Migration.NothingIsOverwritten | src/storage/redis/lua_scripts/migrate_keys.lua:45-57 | No target key but the version changes, a key moves exactly if it is eligible and free, and no value is lost. |
| Migration.SecondRunDoesNothing | src/storage/redis/migration.rs:100-144 | After a migration the version check stops every later one, and the script itself would move nothing. |
| Migration.FirstStartCarriesOver | src/storage/redis/lua_scripts/get_schema_version.lua:28-50 | The first start on an empty namespace carries the old registry over if and only if it was initialized, lists coins, or is empty. |
| Migration.ReservationStaysBehind | src/storage/redis/lua_scripts/get_schema_version.lua:31-50 | An old namespace with one live reservation, no mark and no listed coin: nothing is carried over. |
| Migration.Namespaces.MigrateKeys | src/storage/redis/lua_scripts/migrate_keys.lua:36-94 | Both loops, for every order and repetition of the scan, move exactly the eligible free keys and count them; the key of every reservation id that is free at the target is moved with its value. |
| Migration.Namespaces.MaybeMigrate | src/storage/redis/migration.rs:100-144 | Migrates exactly when the version check says old format, and reports so. |
| Migration.CountsCover | src/storage/redis/lua_scripts/migrate_keys.lua:48-86 | Migrated plus skipped covers every eligible key, exactly if the scan repeats none. |
| CleanUp.Namespace.CleanUpCoinRegistry | src/storage/redis/lua_scripts/clean_up_coin_registry.lua:18-39 | Whatever the scan's order and repetitions, only the two lock keys are left. |
| CleanUp.OnlyLocksLeft | src/storage/redis/lua_scripts/clean_up_coin_registry.lua:11-13 | What is left reads as an empty registry under the same locks. |
| RegistryKeys.CleanUpIsKeyByKey | src/storage/redis/lua_scripts/clean_up_coin_registry.lua:18-39 | Deleting all keys but the two locks from whatever registry a namespace keeps leaves exactly the cleaned registry. |

## Left out

- HTTP, RPC client, authorization, metrics, logging, configuration, hooks' transport, signing and the Rego engine: plumbing or foreign code. Hooks, Rego, the tracker and the node appear as arbitrary answers.
- The transaction validity checks of `src/gas_station/gas_station_core.rs:108-111`, the daily usage cap, request validity beyond a positive budget, and display: they do not touch the registry.
- GasStation.GasStation.ExecuteTransaction: the release succeeds at once; lost replies to it are a step of Station, and repeated attempts are in Pool.AttemptsPileUp.
- GasStation.GasStation.RunOnce: as one call with the splitter's own interleavings inside; that other instances act meanwhile is in Station only, where the steps of a split are stated on their own and not derived from the class.
- Lua's numbers: all sums are assumed below 2^53, and `tonumber` is modelled on decimal digits only.
- 64-bit wrap-around of coin arithmetic: balances and totals are unbounded, except for parsing and for the limiter's casts, which are modelled.
- RedisStorage.RedisStorage.ExpireScript: the order in which Redis returns due members is left open.
- Station.Apply: clean-up and the setting up of the statistics are one step, and runs that ignore the locks are not modelled.
- The total coin counter of the splitter, which is only logged and not maintained for queued coins.
- Header values are given sorted and joined, header names are compared exactly, and hashing a counter's identity is assumed to be injective.
- Rules.TransactionNet: for counters and budgets that do not overflow 64 bits; the casts themselves are in the model.
- Reloading the access controller while settlements are open.
- Text forms of digests and ids beyond being free of commas, and wrong value types under a Redis key.
- The consistency check at start-up, which only warns.
