/** The concurrent work queue of `src/gas_station_initializer.rs`. */
module Splitter {
  import opened Coins
  import opened SplitMath
  import opened SplitAccounts

  /**
   * `CoinSplitEnv` with its spawned tasks. A task handle is the task's index; `queue` is the shared
   * queue of handles. Tasks run interleaved: `RunSomeTasks` lets any of them make any progress.
   */
  class CoinSplitEnv {
    const target: nat
    const gasCost: nat
    var queue: seq<nat>
    var tasks: seq<Task>
    // the network
    var nextObject: ObjectId
    ghost var gasSpent: nat
    ghost var transactions: nat
    var lost: seq<GasCoin>           // on the ledger only: created behind an error, and no task knows of them

    /** `awaited` is the handle the drain loop has popped and not collected yet. */
    ghost predicate Valid(awaited: Option<nat>)
      reads this
    {
      && 0 < target
      && AllOk(tasks, gasCost, target, lost == [])
      && Linked(queue, tasks, awaited)
      && (lost != [] ==> 0 < Total(lost))
    }

    constructor (target: nat, gasCost: nat, nextObject: ObjectId)
      requires 0 < target
      ensures Valid(None) && tasks == [] && queue == []
      ensures this.target == target && this.gasCost == gasCost && this.nextObject == nextObject
      ensures gasSpent == 0 && transactions == 0 && lost == []
    {
      this.target, this.gasCost, this.nextObject := target, gasCost, nextObject;
      queue, tasks := [], [];
      gasSpent, transactions, lost := 0, 0, [];
    }

    /** Hands a coin back whole, or spawns a task for it and queues the handle. */
    method EnqueueTask(coin: GasCoin, ghost awaited: Option<nat>) returns (kept: seq<GasCoin>)
      requires Valid(awaited)
      modifies this`queue, this`tasks
      ensures Valid(awaited)
      ensures coin.balance <= 2 * (gasCost + target) ==>
        kept == [coin] && tasks == old(tasks) && queue == old(queue)
      ensures 2 * (gasCost + target) < coin.balance ==>
        kept == [] && tasks == old(tasks) + [Running(coin)] && queue == old(queue) + [|old(tasks)|]
      ensures old(tasks) <= tasks && old(queue) <= queue
    {
      if coin.balance <= (gasCost + target) * 2 {
        kept := [coin];
      } else {
        SpawnLinked(queue, tasks, awaited, Running(coin));
        queue := queue + [|tasks|];
        tasks := tasks + [Running(coin)];
        kept := [];
      }
    }

    /** The network executes a split: it names the created objects and charges gas within the budget. */
    method ExecuteOnNetwork(coin: GasCoin, n: nat, budget: nat)
      returns (net: nat, created: seq<ObjectRef>, left: ObjectRef)
      requires 0 < n
      modifies this`nextObject, this`gasSpent, this`transactions
      ensures net <= budget && left.id == coin.id && |created| == n - 1
      ensures forall i :: 0 <= i < |created| ==> created[i].id == old(nextObject) + i
      ensures nextObject == old(nextObject) + |created|
      ensures gasSpent == old(gasSpent) + net && transactions == old(transactions) + 1
    {
      net :| 0 <= net <= budget;
      var first := nextObject;
      created := seq(n - 1, i requires 0 <= i < n - 1 => ObjectRef(first + i, coin.version + 1, ""));
      left := ObjectRef(coin.id, coin.version + 1, "");
      nextObject := nextObject + (n - 1);
      gasSpent, transactions := gasSpent + net, transactions + 1;
    }

    /**
     * The retry loop. After an error the coin is read again and the transaction is sent for what is left of
     * it, with the count and budget of the first attempt. An error may hide that the attempt took effect.
     * The node refuses a coin below the budget, every time: then the loop has no end.
     */
    method ExecuteWithRetries(coin: GasCoin, n: nat, budget: nat)
      returns (paid: bool, current: GasCoin, net: nat, created: seq<ObjectRef>, left: ObjectRef,
               hidden: seq<GasCoin>, ghost gas: nat, ghost count: nat)
      requires 0 < target && KeepLimit(gasCost, target) < coin.balance
      requires n == SplitCount(coin.balance, gasCost, target) && 2 <= n && budget == gasCost * n <= coin.balance
      modifies this`nextObject, this`gasSpent, this`transactions
      ensures Retried(coin, current, target, hidden, old(nextObject), gas, count)
      ensures paid <==> budget <= current.balance
      ensures paid ==> net <= budget && left.id == coin.id && |created| == n - 1
      ensures paid ==> forall i :: 0 <= i < |created| ==> created[i].id == old(nextObject) + |hidden| + i
      ensures nextObject == old(nextObject) + |hidden| + (if paid then |created| else 0)
      ensures gasSpent == old(gasSpent) + gas + (if paid then net else 0)
      ensures transactions == old(transactions) + count + (if paid then 1 else 0)
    {
      hide NewBalance, PartsBy;
      var onLedger := coin;
      current, hidden, gas, count := coin, [], 0, 0;
      net, created, left := 0, [], ObjectRef(coin.id, coin.version, coin.digest);
      var errors: nat :| true;
      for attempt := 0 to errors
        invariant current == onLedger && Retried(coin, current, target, hidden, old(nextObject), gas, count)
        invariant nextObject == old(nextObject) + |hidden|
        invariant gasSpent == old(gasSpent) + gas && transactions == old(transactions) + count
        invariant tasks == old(tasks) && queue == old(queue) && lost == old(lost)
      {
        var tookEffect := *;
        if tookEffect && budget <= current.balance {
          net, created, left := ExecuteOnNetwork(current, n, budget);
          RetriedAgain(coin, current, gasCost, target, hidden, old(nextObject), gas, count, n, net, created, left);
          var parts := PartsBy(current, n, budget, net, created, left);
          PartsByExact(current, n, budget, net, created, left);
          hidden, gas, count := hidden + parts[..n - 1], gas + net, count + 1;
          onLedger := parts[n - 1];
        }
        current := onLedger;
      }
      paid := budget <= current.balance;
      if paid {
        net, created, left := ExecuteOnNetwork(current, n, budget);
      }
    }

    ghost function Now(): Snapshot
      reads this
    {
      Snapshot(tasks, lost, nextObject, gasSpent, transactions)
    }

    /** `Running -> Enqueueing`, or `Running -> Stalled`: the transaction of `split_one_gas_coin`. */
    method Execute(h: nat, ghost awaited: Option<nat>)
      requires Valid(awaited) && h < |tasks| && tasks[h].Running?
      modifies this`tasks, this`nextObject, this`gasSpent, this`transactions, this`lost
      ensures Valid(awaited) && Conserves(old(Now()), Now(), gasCost, target)
      ensures SumTasks(tasks, Steps, target) < SumTasks(old(tasks), Steps, target)
      ensures |tasks| == |old(tasks)| && forall k :: 0 <= k < |tasks| && k != h ==> tasks[k] == old(tasks)[k]
      ensures tasks[h] != Collected
      ensures lost == old(lost) ==>
        tasks[h].Enqueueing? && tasks[h].kept == [] && EvenSplit(old(tasks)[h].coin, tasks[h].pending, gasCost, target)
      ensures tasks[h].Stalled? ==> tasks[h].coin.balance < gasCost * tasks[h].count && lost != []
    {
      hide SumTasks, PartsBy, Conserves, AllOk, Linked, Retried, Total, StepsOf, Value, EvenSplit;
      TaskOf(tasks, h, gasCost, target, lost == []);
      ghost var clean := lost == [];
      var coin := tasks[h].coin;
      var n := SplitCount(coin.balance, gasCost, target);
      SplitIsPayable(coin.balance, gasCost, target);
      ghost var s := Now();
      var paid, current, net, created, left;
      var hidden;
      ghost var gas, count;
      paid, current, net, created, left, hidden, gas, count := ExecuteWithRetries(coin, n, gasCost * n);
      NotPaidIsHidden(coin, current, target, hidden, s.nextObject, gas, count);
      LostMore(lost, hidden, target);
      lost := lost + hidden;
      var x: Task;
      if paid {
        x := Enqueueing(PartsBy(current, n, gasCost * n, net, created, left), []);
        if hidden == [] {
          PartsAreEven(coin, gasCost, target, n, net, created, left);
        }
        ExecuteConserves(s, h, coin, current, gasCost, target, hidden, gas, count, n, net, created, left);
        RetriedAccounted(coin, current, gasCost, target, hidden, s.nextObject, gas, count, n, net, created, left);
      } else {
        x := Stalled(current, n);
        StallConserves(s, h, coin, current, gasCost, target, hidden, gas, count, n);
      }
      AllOkUpdate(tasks, h, x, gasCost, target, clean, lost == []);
      UpdateLinked(queue, tasks, awaited, h, x);
      tasks := tasks[h := x];
    }

    /** One turn of the loop that hands the parts on; each part is spawned or kept. */
    method EnqueuePart(h: nat, ghost awaited: Option<nat>)
      requires Valid(awaited) && h < |tasks| && tasks[h].Enqueueing? && tasks[h].pending != []
      modifies this`tasks, this`queue
      ensures Valid(awaited) && Conserves(old(Now()), Now(), gasCost, target)
      ensures SumTasks(tasks, Steps, target) < SumTasks(old(tasks), Steps, target)
      ensures |old(tasks)| <= |tasks| && forall k :: 0 <= k < |old(tasks)| && k != h ==> tasks[k] == old(tasks)[k]
      ensures old(queue) <= queue && tasks[h] != Collected
    {
      hide SumTasks, Conserves, Linked, StepsOf, Value, AllOk;
      TaskOf(tasks, h, gasCost, target, lost == []);
      var Enqueueing(p, k) := tasks[h];
      if KeepLimit(gasCost, target) < p[0].balance {
        SpawnConserves(tasks, h, p, k, gasCost, target, Now());
        assert k + [] == k;
      } else {
        KeepConserves(tasks, h, p, k, gasCost, target, Now());
      }
      var kept := EnqueueTask(p[0], awaited);
      var x := Enqueueing(p[1..], k + kept);
      AllOkUpdate(tasks, h, x, gasCost, target, lost == [], lost == []);
      UpdateLinked(queue, tasks, awaited, h, x);
      tasks := tasks[h := x];
    }

    /** Any one step of a task that has not returned yet. */
    method Step(h: nat, ghost awaited: Option<nat>)
      requires Valid(awaited) && h < |tasks| && (tasks[h].Running? || tasks[h].Enqueueing?)
      modifies this
      ensures Valid(awaited) && Conserves(old(Now()), Now(), gasCost, target)
      ensures SumTasks(tasks, Steps, target) < SumTasks(old(tasks), Steps, target)
      ensures |old(tasks)| <= |tasks| && forall k :: 0 <= k < |old(tasks)| && k != h ==> tasks[k] == old(tasks)[k]
      ensures old(queue) <= queue && tasks[h] != Collected
    {
      hide SumTasks, Conserves, Linked, StepsOf, AllOk;
      if tasks[h].Running? {
        Execute(h, awaited);
      } else if tasks[h].pending != [] {
        EnqueuePart(h, awaited);
      } else {
        var k := tasks[h].kept;
        TaskOf(tasks, h, gasCost, target, lost == []);
        AllOkUpdate(tasks, h, Finished(k), gasCost, target, lost == [], lost == []);
        FinishConserves(tasks, h, k, gasCost, target, Now());
        UpdateLinked(queue, tasks, awaited, h, Finished(k));
        tasks := tasks[h := Finished(k)];
      }
    }

    /** The scheduler: any tasks make any progress, in any order. */
    method RunSomeTasks(ghost awaited: Option<nat>)
      requires Valid(awaited)
      modifies this
      ensures Valid(awaited) && Conserves(old(Now()), Now(), gasCost, target)
      ensures SumTasks(tasks, Steps, target) <= SumTasks(old(tasks), Steps, target)
      ensures SumTasks(tasks, Steps, target) == SumTasks(old(tasks), Steps, target) ==> queue == old(queue)
      ensures |old(tasks)| <= |tasks| && old(queue) <= queue
      ensures forall k :: 0 <= k < |old(tasks)| && !old(tasks)[k].Running? && !old(tasks)[k].Enqueueing? ==>
        tasks[k] == old(tasks)[k]
    {
      hide SumTasks;
      while *
        invariant Valid(awaited) && Conserves(old(Now()), Now(), gasCost, target)
        invariant SumTasks(tasks, Steps, target) <= SumTasks(old(tasks), Steps, target)
        invariant SumTasks(tasks, Steps, target) == SumTasks(old(tasks), Steps, target) ==> queue == old(queue)
        invariant |old(tasks)| <= |tasks| && old(queue) <= queue
        invariant forall k :: 0 <= k < |old(tasks)| && !old(tasks)[k].Running? && !old(tasks)[k].Enqueueing? ==>
          tasks[k] == old(tasks)[k]
        decreases SumTasks(tasks, Steps, target)
      {
        if h: nat :| h < |tasks| && (tasks[h].Running? || tasks[h].Enqueueing?) {
          ghost var before := Now();
          Step(h, awaited);
          ConservesTransitive(old(Now()), before, Now(), gasCost, target);
        } else {
          break;
        }
      }
    }

    /** `task.await`: other tasks go on meanwhile, until this one has returned or can never return. */
    method Await(h: nat) returns (returned: bool)
      requires Valid(Some(h))
      modifies this
      ensures Valid(Some(h)) && Conserves(old(Now()), Now(), gasCost, target)
      ensures h < |tasks| && if returned then tasks[h].Finished? else tasks[h].Stalled?
      ensures SumTasks(tasks, Steps, target) <= SumTasks(old(tasks), Steps, target)
      ensures SumTasks(tasks, Steps, target) == SumTasks(old(tasks), Steps, target) ==> queue == old(queue)
    {
      hide SumTasks;
      RunSomeTasks(Some(h));
      while !tasks[h].Finished? && !tasks[h].Stalled?
        invariant Valid(Some(h)) && Conserves(old(Now()), Now(), gasCost, target)
        invariant SumTasks(tasks, Steps, target) <= SumTasks(old(tasks), Steps, target)
        invariant SumTasks(tasks, Steps, target) == SumTasks(old(tasks), Steps, target) ==> queue == old(queue)
        decreases SumTasks(tasks, Steps, target)
      {
        ghost var before := Now();
        Step(h, Some(h));
        ConservesTransitive(old(Now()), before, Now(), gasCost, target);
        ghost var between := Now();
        RunSomeTasks(Some(h));
        ConservesTransitive(old(Now()), between, Now(), gasCost, target);
      }
      returned := tasks[h].Finished?;
    }

    /** Some task sends, for ever, a transaction whose budget its coin cannot pay. */
    ghost predicate NeverPays()
      reads this
    {
      exists h :: 0 <= h < |tasks| && tasks[h].Stalled? && tasks[h].coin.balance < gasCost * tasks[h].count
    }

    /** The first loop of `split_gas_coins`. */
    method EnqueueAll(coins: seq<GasCoin>) returns (result: seq<GasCoin>)
      requires Valid(None) && tasks == [] && lost == []
      modifies this
      ensures Valid(None) && ResultFits(result, coins)
      ensures Conserves(Whole(old(Now()), [], coins), Whole(Now(), result, []), gasCost, target)
    {
      hide SumTasks, Conserves, StepsOf, AllOk, Linked;
      result := [];
      ghost var start := Now();
      assert coins[0..] == coins;
      ConservesReflexive(Whole(start, [], coins), gasCost, target);
      for i := 0 to |coins|
        invariant Valid(None) && ResultFits(result, coins)
        invariant Conserves(Whole(start, [], coins), Whole(Now(), result, coins[i..]), gasCost, target)
      {
        ghost var rest, before, sofar := coins[i..], Now(), result;
        InputConserves(before, result, rest, gasCost, target);
        var kept := EnqueueTask(coins[i], None);
        result := result + kept;
        assert rest[1..] == coins[i + 1..] && sofar + [] == sofar;
        assert Conserves(Whole(before, sofar, rest), Whole(Now(), result, coins[i + 1..]), gasCost, target);
        ConservesTransitive(Whole(start, [], coins), Whole(before, sofar, rest), Whole(Now(), result, coins[i + 1..]),
          gasCost, target);
        ghost var between := Now();
        RunSomeTasks(None);
        StillFits(result, coins, between);
        WholeConserves(between, Now(), result, coins[i + 1..], gasCost, target);
        ConservesTransitive(Whole(start, [], coins), Whole(between, result, coins[i + 1..]),
          Whole(Now(), result, coins[i + 1..]), gasCost, target);
      }
      assert coins[|coins|..] == [];
    }

    /** The second loop: awaits one handle after the other, unless one of them never returns. */
    method Drain(kept: seq<GasCoin>, ghost coins: seq<GasCoin>) returns (ended: bool, result: seq<GasCoin>)
      requires Valid(None) && ResultFits(kept, coins)
      modifies this
      ensures Conserves(Whole(old(Now()), kept, []), Whole(Now(), result, []), gasCost, target)
      ensures if ended then Valid(None) && queue == [] && ResultFits(result, coins) else lost != [] && NeverPays()
    {
      hide SumTasks, Conserves, StepsOf, AllOk, Linked;
      result := kept;
      ghost var start := Now();
      ConservesReflexive(Whole(start, kept, []), gasCost, target);
      while queue != []
        invariant Valid(None) && ResultFits(result, coins)
        invariant Conserves(Whole(start, kept, []), Whole(Now(), result, []), gasCost, target)
        decreases SumTasks(tasks, Steps, target), |queue|
      {
        ghost var before := Now();
        var h := queue[0];
        PopLinked(queue, tasks);
        queue := queue[1..];
        var returned := Await(h);
        StillFits(result, coins, before);
        WholeConserves(before, Now(), result, [], gasCost, target);
        ConservesTransitive(Whole(start, kept, []), Whole(before, result, []), Whole(Now(), result, []), gasCost,
          target);
        if !returned {
          TaskOf(tasks, h, gasCost, target, lost == []);
          return false, result;
        }
        ghost var between, sofar := Now(), result;
        var more := tasks[h].kept;
        TaskOf(tasks, h, gasCost, target, lost == []);
        AllOkUpdate(tasks, h, Collected, gasCost, target, lost == [], lost == []);
        CollectConserves(between, h, more, result, gasCost, target);
        CollectLinked(queue, tasks, h);
        result := result + more;
        tasks := tasks[h := Collected];
        ConservesTransitive(Whole(start, kept, []), Whole(between, sofar, []), Whole(Now(), result, []), gasCost,
          target);
      }
      ended := true;
    }

    /**
     * Splits and drains. Whatever the interleaving and whatever the errors hide, it ends or comes to a task
     * whose coin can never pay; and when it ends, every coin is in the result or was hidden by an error.
     * Without hidden effects it always ends, and only then does it give exactly what it should.
     */
    method SplitGasCoins(coins: seq<GasCoin>) returns (ended: bool, result: seq<GasCoin>)
      requires Valid(None) && tasks == [] && lost == []
      modifies this
      ensures old(nextObject) <= nextObject && old(gasSpent) <= gasSpent && old(transactions) <= transactions
      ensures lost == [] ==> ended
      ensures !ended ==> NeverPays()
      ensures ended ==> Valid(None) && queue == [] && !NeverPays()
      ensures ended ==> RunBooks(coins, result, lost, gasCost, target, old(nextObject),
        nextObject - old(nextObject), gasSpent - old(gasSpent), transactions - old(transactions))
      ensures ended ==> (lost == [] <==> SplitDone(coins, result, gasCost, target, old(nextObject),
        nextObject - old(nextObject), gasSpent - old(gasSpent), transactions - old(transactions)))
    {
      hide SumTasks, Conserves, SplitDone, RunBooks, StepsOf, SumBy;
      ghost var start := Now();
      var kept := EnqueueAll(coins);
      ghost var before := Now();
      ended, result := Drain(kept, coins);
      ConservesTransitive(Whole(start, [], coins), Whole(before, kept, []), Whole(Now(), result, []), gasCost, target);
      WholeGrows(start, [], coins, Now(), result, []);
      if ended {
        assert forall h :: 0 <= h < |tasks| ==> tasks[h] == Collected;
        RunDone(coins, result, gasCost, target, start, Now());
      }
    }

    /** The bounds of the result; the lower one only as long as no error has hidden anything. */
    ghost predicate ResultFits(result: seq<GasCoin>, coins: seq<GasCoin>)
      reads this
    {
      && (forall c :: c in result ==> c.balance <= KeepLimit(gasCost, target))
      && (lost == [] ==> ResultOk(result, coins, gasCost, target))
    }

    lemma StillFits(result: seq<GasCoin>, coins: seq<GasCoin>, before: Snapshot)
      requires 0 < target && Conserves(before, Now(), gasCost, target)
      requires forall c :: c in result ==> c.balance <= KeepLimit(gasCost, target)
      requires before.lost == [] ==> ResultOk(result, coins, gasCost, target)
      ensures ResultFits(result, coins)
    {
    }

    lemma WholeGrows(start: Snapshot, result0: seq<GasCoin>, rest0: seq<GasCoin>, now: Snapshot, result: seq<GasCoin>,
        rest: seq<GasCoin>)
      requires 0 < target && Conserves(Whole(start, result0, rest0), Whole(now, result, rest), gasCost, target)
      ensures start.nextObject <= now.nextObject && start.gas <= now.gas && start.transactions <= now.transactions
    {
    }
  }

  lemma NotPaidIsHidden(coin: GasCoin, current: GasCoin, target: nat, hidden: seq<GasCoin>, first: ObjectId, gas: nat,
      count: nat)
    requires Retried(coin, current, target, hidden, first, gas, count)
    ensures hidden == [] ==> current == coin
    ensures hidden != [] ==> target <= Total(hidden)
  {
  }

  lemma LostMore(lost: seq<GasCoin>, hidden: seq<GasCoin>, target: nat)
    requires 0 < target && (lost != [] ==> 0 < Total(lost)) && (hidden != [] ==> target <= Total(hidden))
    ensures lost + hidden != [] ==> 0 < Total(lost + hidden)
    ensures hidden == [] ==> lost + hidden == lost
  {
    TotalConcat(lost, hidden);
  }
}
