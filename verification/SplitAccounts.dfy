/** Quantities that a run of the splitter conserves, bounds or uses up. */
module SplitAccounts {
  import opened Coins
  import opened SplitMath

  /** A split task of the work queue, from `spawn` until the drain loop has awaited it. */
  datatype Task =
    | Running(coin: GasCoin)                                  // transaction not executed yet
    | Stalled(coin: GasCoin, count: nat)                      // sends a transaction its coin cannot pay, for ever
    | Enqueueing(pending: seq<GasCoin>, kept: seq<GasCoin>)   // executed, handing on its parts
    | Finished(kept: seq<GasCoin>)                            // returned, not awaited yet
    | Collected                                               // awaited: its coins are in the result

  datatype Metric =
    | Balance
    | Count
    | Ident(id: ObjectId)   // how often an object id occurs
    | Shares                // whole targets in a coin, at least one
    | Least(gasCost: nat)   // how many coins a run makes of a coin at least
    | Steps                 // an upper bound on the scheduler steps a coin can still cause

  function Value(c: GasCoin, m: Metric, target: nat): nat
    requires 0 < target
  {
    match m
    case Balance => c.balance
    case Count => 1
    case Ident(id) => if c.id == id then 1 else 0
    case Shares => if c.balance < target then 1 else c.balance / target
    case Least(gasCost) => LeastOf(c.balance, gasCost, target)
    case Steps => if c.balance < target then 1 else StepsOf(c.balance, target)
  }

  /**
   * As many coins as there are targets with their gas in it; from 2000 of them on, 2000 times as many as the
   * equal parts give that are left when all the gas is paid.
   */
  function LeastOf(balance: nat, gasCost: nat, target: nat): (n: nat)
    requires 0 < target
    ensures 1 <= n
    decreases balance
  {
    if balance <= (gasCost + target) * 2 then 1
    else if balance < (gasCost + target) * 2000 then
      DivAtLeast(balance, gasCost + target, 2);
      balance / (gasCost + target)
    else 2000 * LeastOf((balance - gasCost * 2000) / 2000, gasCost, target)
  }

  /** A larger coin gives at least as many. */
  lemma {:induction false} LeastMono(a: nat, b: nat, gasCost: nat, target: nat)
    requires 0 < target && a <= b
    ensures LeastOf(a, gasCost, target) <= LeastOf(b, gasCost, target)
    decreases b
  {
    var unit := gasCost + target;
    if unit * 2000 <= a {
      LeastMono((a - gasCost * 2000) / 2000, (b - gasCost * 2000) / 2000, gasCost, target);
    } else if unit * 2 < a {
      MulDivLe(a, unit);
      if 2000 <= a / unit {
        MulMono(2000, a / unit, unit);
      }
      if b < unit * 2000 {
        DivMono(a, b, unit);
      }
    }
  }

  /** How many coins a split asks for, in units of a target with its gas. */
  lemma CountInUnits(balance: nat, gasCost: nat, target: nat)
    requires 0 < target && KeepLimit(gasCost, target) < balance
    ensures
      var n := SplitCount(balance, gasCost, target);
      2 <= n && n == if balance < (gasCost + target) * 2000 then balance / (gasCost + target) else 2000
  {
    var unit := gasCost + target;
    SplitIsPayable(balance, gasCost, target);
    MulDivLe(balance, unit);
    if balance < unit * 2000 {
      if 2000 <= balance / unit {
        MulMono(2000, balance / unit, unit);
      }
    } else {
      DivAtLeast(balance, unit, 2000);
    }
  }

  /** Equal parts, and a rest no smaller, give at least as many coins as the split coin should. */
  lemma PartsLeast(balance: nat, gasCost: nat, target: nat, x: nat, r: nat)
    requires 0 < target && KeepLimit(gasCost, target) < balance && x <= r
    requires
      var n := SplitCount(balance, gasCost, target);
      0 < n && gasCost * n <= balance && x == NewBalance(balance, gasCost * n, n)
    ensures LeastOf(balance, gasCost, target) <=
      (SplitCount(balance, gasCost, target) - 1) * LeastOf(x, gasCost, target) + LeastOf(r, gasCost, target)
  {
    hide SplitCount, NewBalance, LeastOf, KeepLimit;
    var n := SplitCount(balance, gasCost, target);
    CountInUnits(balance, gasCost, target);
    LeastInCount(balance, gasCost, target, n);
    LeastMono(x, r, gasCost, target);
    OneLess(n, LeastOf(x, gasCost, target));
  }

  lemma OneLess(n: nat, l: nat)
    requires 0 < n && 0 < l
    ensures (n - 1) * l + l == n * l && n <= n * l
  {
    MulMono(1, l, n);
  }

  lemma LeastInCount(balance: nat, gasCost: nat, target: nat, n: nat)
    requires 0 < target && KeepLimit(gasCost, target) < balance && 0 < n && gasCost * n <= balance
    requires n == if balance < (gasCost + target) * 2000 then balance / (gasCost + target) else 2000
    ensures LeastOf(balance, gasCost, target) ==
      if balance < (gasCost + target) * 2000 then n
      else n * LeastOf(NewBalance(balance, gasCost * n, n), gasCost, target)
  {
  }

  const STEPS_PER_TARGET: nat := 2006       // more than the parts of one split

  function StepsOf(balance: nat, target: nat): nat
    requires 0 < target <= balance
  {
    DivAtLeast(balance, target, 1);
    STEPS_PER_TARGET * (balance / target) - 3
  }

  function SumBy(coins: seq<GasCoin>, m: Metric, target: nat): nat
    requires 0 < target
  {
    if coins == [] then 0 else Value(coins[0], m, target) + SumBy(coins[1..], m, target)
  }

  function TaskCoins(task: Task): seq<GasCoin> {
    match task
    case Running(c) => [c]
    case Stalled(c, _) => [c]
    case Enqueueing(p, k) => p + k
    case Finished(k) => k
    case Collected => []
  }

  function TaskValue(task: Task, m: Metric, target: nat): nat
    requires 0 < target
  {
    if m != Steps then SumBy(TaskCoins(task), m, target) else
    match task
    case Running(c) => if c.balance < target then 1 else StepsOf(c.balance, target) - 1
    case Stalled(_, _) => 0
    case Enqueueing(p, k) => 1 + SumBy(p, Steps, target)
    case Finished(_) => 0
    case Collected => 0
  }

  function SumTasks(tasks: seq<Task>, m: Metric, target: nat): nat
    requires 0 < target
  {
    if tasks == [] then 0
    else SumTasks(tasks[..|tasks| - 1], m, target) + TaskValue(tasks[|tasks| - 1], m, target)
  }

  lemma {:induction false} SumByConcat(a: seq<GasCoin>, b: seq<GasCoin>, m: Metric, target: nat)
    requires 0 < target
    ensures SumBy(a + b, m, target) == SumBy(a, m, target) + SumBy(b, m, target)
  {
    if a == [] {
      assert a + b == b;
    } else {
      assert (a + b)[1..] == a[1..] + b;
      SumByConcat(a[1..], b, m, target);
    }
  }

  lemma {:induction false} SumByBalance(coins: seq<GasCoin>, target: nat)
    requires 0 < target
    ensures SumBy(coins, Balance, target) == Total(coins)
    ensures SumBy(coins, Count, target) == |coins|
  {
    if coins != [] {
      SumByBalance(coins[1..], target);
    }
  }

  lemma SumBySingle(c: GasCoin, m: Metric, target: nat)
    requires 0 < target
    ensures SumBy([c], m, target) == Value(c, m, target)
  {
    assert [c][1..] == [];
  }

  lemma {:induction false} SumByUniform(coins: seq<GasCoin>, m: Metric, target: nat, v: nat)
    requires 0 < target && forall c :: c in coins ==> Value(c, m, target) == v
    ensures SumBy(coins, m, target) == |coins| * v
  {
    hide Value;
    if coins != [] {
      SumByUniform(coins[1..], m, target, v);
      var n := |coins|;
      assert n * v == (n - 1) * v + v;
    }
  }

  lemma {:induction false} SumByFreshIds(coins: seq<GasCoin>, first: nat, id: ObjectId, target: nat)
    requires 0 < target && forall i :: 0 <= i < |coins| ==> coins[i].id == first + i
    ensures SumBy(coins, Ident(id), target) == if first <= id < first + |coins| then 1 else 0
  {
    if coins != [] {
      SumByFreshIds(coins[1..], first + 1, id, target);
    }
  }

  lemma {:induction false} SumTasksUpdate(tasks: seq<Task>, h: nat, x: Task, m: Metric, target: nat)
    requires 0 < target && h < |tasks|
    ensures SumTasks(tasks[h := x], m, target) + TaskValue(tasks[h], m, target)
         == SumTasks(tasks, m, target) + TaskValue(x, m, target)
  {
    var n := |tasks| - 1;
    if h == n {
      assert tasks[h := x][..n] == tasks[..n];
    } else {
      assert tasks[h := x][..n] == tasks[..n][h := x];
      SumTasksUpdate(tasks[..n], h, x, m, target);
    }
  }

  lemma SumTasksSpawn(tasks: seq<Task>, x: Task, m: Metric, target: nat)
    requires 0 < target
    ensures SumTasks(tasks + [x], m, target) == SumTasks(tasks, m, target) + TaskValue(x, m, target)
  {
    assert (tasks + [x])[..|tasks|] == tasks;
  }

  lemma {:induction false} SumTasksCollected(tasks: seq<Task>, m: Metric, target: nat)
    requires 0 < target && forall h :: 0 <= h < |tasks| ==> tasks[h] == Collected
    ensures SumTasks(tasks, m, target) == 0
  {
    if tasks != [] {
      SumTasksCollected(tasks[..|tasks| - 1], m, target);
    }
  }

  /**
   * What one split does to every account: value leaves only as gas, the coin keeps its identity and
   * the created ids are new, whole targets do not multiply, and the work left goes strictly down
   * even when no gas at all is charged.
   */
  lemma SplitAccounted(coin: GasCoin, gasCost: nat, target: nat, net: nat, created: seq<ObjectRef>, left: ObjectRef,
      first: nat)
    requires 0 < target && KeepLimit(gasCost, target) < coin.balance
    requires net <= gasCost * SplitCount(coin.balance, gasCost, target)
    requires |created| == SplitCount(coin.balance, gasCost, target) - 1
    requires left.id == coin.id && forall i :: 0 <= i < |created| ==> created[i].id == first + i
    ensures
      var parts := Parts(coin, gasCost, target, net, created, left);
      && SumBy(parts, Balance, target) + net == coin.balance
      && SumBy(parts, Count, target) == |created| + 1
      && SumBy(parts, Shares, target) <= Value(coin, Shares, target)
      && 2 + SumBy(parts, Steps, target) < Value(coin, Steps, target)
      && forall id: ObjectId :: SumBy(parts, Ident(id), target)
           == Value(coin, Ident(id), target) + (if first <= id < first + |created| then 1 else 0)
  {
    PartsAreExact(coin, gasCost, target, net, created, left);
    SplitIsExact(coin.balance, gasCost, target, net);
    SplitIsPayable(coin.balance, gasCost, target);
    var parts := Parts(coin, gasCost, target, net, created, left);
    var k := |created|;
    var made, rest := parts[..k], parts[k..];
    assert parts == made + rest && rest == [parts[k]];
    SumByBalance(parts, target);
    var x, r := NewBalance(coin.balance, gasCost * (k + 1), k + 1), parts[k].balance;
    assert forall c :: c in made ==> c.balance == x;
    PartsIdents(made, rest[0], coin, first, target);
    PartsShares(made, rest[0], x, target);
    FloorsAdd(k, x, r, target);
    DivMono(k * x + r, coin.balance, target);
    StepsDrop(k, x / target, r / target, coin.balance / target);
  }

  /** Ids of a split: the created ones once each, the remainder keeps the id of the split coin. */
  lemma PartsIdents(made: seq<GasCoin>, left: GasCoin, coin: GasCoin, first: ObjectId, target: nat)
    requires 0 < target && left.id == coin.id
    requires forall i :: 0 <= i < |made| ==> made[i].id == first + i
    ensures forall id: ObjectId ::
      SumBy(made + [left], Ident(id), target) ==
        Value(coin, Ident(id), target) + (if first <= id < first + |made| then 1 else 0)
  {
    forall id: ObjectId
      ensures SumBy(made + [left], Ident(id), target)
        == Value(coin, Ident(id), target) + (if first <= id < first + |made| then 1 else 0)
    {
      SumByConcat(made, [left], Ident(id), target);
      SumByFreshIds(made, first, id, target);
      SumBySingle(left, Ident(id), target);
    }
  }

  /** The coins that parts give at least. */
  lemma PartsGiveLeast(made: seq<GasCoin>, left: GasCoin, coin: GasCoin, gasCost: nat, target: nat)
    requires 0 < target && KeepLimit(gasCost, target) < coin.balance
    requires
      var n := SplitCount(coin.balance, gasCost, target);
      && 0 < n == |made| + 1 && gasCost * n <= coin.balance
      && NewBalance(coin.balance, gasCost * n, n) <= left.balance
      && forall c :: c in made ==> c.balance == NewBalance(coin.balance, gasCost * n, n)
    ensures Value(coin, Least(gasCost), target) <= SumBy(made + [left], Least(gasCost), target)
  {
    hide SplitCount, NewBalance, LeastOf;
    var n := |made| + 1;
    var x := NewBalance(coin.balance, gasCost * n, n);
    SumByConcat(made, [left], Least(gasCost), target);
    SumByUniform(made, Least(gasCost), target, LeastOf(x, gasCost, target));
    SumBySingle(left, Least(gasCost), target);
    PartsLeast(coin.balance, gasCost, target, x, left.balance);
  }

  lemma SplitGivesLeast(coin: GasCoin, gasCost: nat, target: nat, net: nat, created: seq<ObjectRef>, left: ObjectRef)
    requires 0 < target && KeepLimit(gasCost, target) < coin.balance
    requires net <= gasCost * SplitCount(coin.balance, gasCost, target)
    requires |created| == SplitCount(coin.balance, gasCost, target) - 1
    ensures Value(coin, Least(gasCost), target) <=
      SumBy(Parts(coin, gasCost, target, net, created, left), Least(gasCost), target)
  {
    hide SplitCount, NewBalance, PartsBy, LeastOf, Value, Remainder;
    SplitIsPayable(coin.balance, gasCost, target);
    SplitIsExact(coin.balance, gasCost, target, net);
    var n := |created| + 1;
    var parts := Parts(coin, gasCost, target, net, created, left);
    PartsByExact(coin, n, gasCost * n, net, created, left);
    PartsGiveLeast(parts[..n - 1], parts[n - 1], coin, gasCost, target);
  }

  /** Whole targets and steps of `|made|` equal coins and a remainder. */
  lemma PartsShares(made: seq<GasCoin>, left: GasCoin, x: nat, target: nat)
    requires 0 < target && target <= x && target <= left.balance
    requires forall c :: c in made ==> c.balance == x
    ensures SumBy(made + [left], Shares, target) == |made| * (x / target) + left.balance / target
    ensures SumBy(made + [left], Steps, target) == |made| * StepsOf(x, target) + StepsOf(left.balance, target)
    ensures 1 <= x / target && 1 <= left.balance / target
  {
    SumByConcat(made, [left], Shares, target);
    SumByConcat(made, [left], Steps, target);
    SumByUniform(made, Shares, target, x / target);
    SumByUniform(made, Steps, target, StepsOf(x, target));
    SumBySingle(left, Shares, target);
    SumBySingle(left, Steps, target);
    DivAtLeast(x, target, 1);
    DivAtLeast(left.balance, target, 1);
  }

  lemma StepsDrop(k: nat, fx: nat, fr: nat, f: nat)
    requires 1 <= k && 1 <= fx && 1 <= fr && k * fx + fr <= f
    ensures 2 + k * (STEPS_PER_TARGET * fx - 3) + (STEPS_PER_TARGET * fr - 3) < STEPS_PER_TARGET * f - 3
  {
    assert k * (STEPS_PER_TARGET * fx - 3) == STEPS_PER_TARGET * (k * fx) - 3 * k;
  }

  /** Steps of any coins at all, however small. */
  lemma {:induction false} StepsAtMost(coins: seq<GasCoin>, target: nat)
    requires 0 < target
    ensures SumBy(coins, Steps, target) <= |coins| + STEPS_PER_TARGET * (Total(coins) / target)
  {
    if coins != [] {
      StepsAtMost(coins[1..], target);
      FloorsAdd(1, coins[0].balance, Total(coins[1..]), target);
    }
  }

  // ---------------------------------------------------------------- errors that hide an effect

  /**
   * Where the retry loop stands: errors so far hid `hidden` new coins, `count` transactions and `gas`, and
   * `current` is what the re-read has found.
   */
  ghost predicate Retried(coin: GasCoin, current: GasCoin, target: nat, hidden: seq<GasCoin>, first: ObjectId, gas: nat,
      count: nat) {
    && current.id == coin.id && current.balance + Total(hidden) + gas == coin.balance
    && (forall i :: 0 <= i < |hidden| ==> hidden[i].id == first + i)
    && count <= |hidden|
    && (hidden == [] ==> current == coin && gas == 0 && count == 0)
    && (hidden != [] ==> target <= Total(hidden))
  }

  /** One more error that hides a split of the current coin, with the first attempt's count and budget. */
  lemma RetriedAgain(
    coin: GasCoin, current: GasCoin, gasCost: nat, target: nat, hidden: seq<GasCoin>, first: ObjectId, gas: nat,
      count: nat,
    n: nat, net: nat, created: seq<ObjectRef>, left: ObjectRef)
    requires 0 < target && KeepLimit(gasCost, target) < coin.balance && n == SplitCount(coin.balance, gasCost, target)
    requires Retried(coin, current, target, hidden, first, gas, count)
    requires 2 <= n && net <= gasCost * n <= current.balance && |created| == n - 1 && left.id == coin.id
    requires forall i :: 0 <= i < |created| ==> created[i].id == first + |hidden| + i
    ensures
      var parts := PartsBy(current, n, gasCost * n, net, created, left);
      Retried(coin, parts[n - 1], target, hidden + parts[..n - 1], first, gas + net, count + 1)
  {
    var budget := gasCost * n;
    PartsByExact(current, n, budget, net, created, left);
    var parts := PartsBy(current, n, budget, net, created, left);
    var made, rest := parts[..n - 1], parts[n - 1];
    TotalConcat(made, [rest]);
    TotalOne(rest);
    TotalConcat(hidden, made);
    if hidden == [] {
      SplitIsPayable(coin.balance, gasCost, target);
      SplitIsExact(coin.balance, gasCost, target, net);
      assert made[0] in made && target <= made[0].balance;
      FirstInTotal(made);
    }
  }

  lemma FirstInTotal(coins: seq<GasCoin>)
    requires coins != []
    ensures coins[0].balance <= Total(coins)
  {
  }

  /** The parts and the hidden coins are the coin's own id and `made` new ones, each once. */
  ghost predicate IdsOnce(parts: seq<GasCoin>, hidden: seq<GasCoin>, coin: GasCoin, first: ObjectId, made: nat,
      target: nat)
    requires 0 < target
  {
    forall id: ObjectId ::
      SumBy(parts, Ident(id), target) + SumBy(hidden, Ident(id), target)
        == Value(coin, Ident(id), target) + (if first <= id < first + made then 1 else 0)
  }

  /** The parts of the attempt that succeeds in the end, next to what earlier attempts hid. */
  lemma RetriedAccounted(
    coin: GasCoin, current: GasCoin, gasCost: nat, target: nat, hidden: seq<GasCoin>, first: ObjectId, gas: nat,
      count: nat,
    n: nat, net: nat, created: seq<ObjectRef>, left: ObjectRef)
    requires 0 < target && KeepLimit(gasCost, target) < coin.balance && n == SplitCount(coin.balance, gasCost, target)
    requires Retried(coin, current, target, hidden, first, gas, count)
    requires 2 <= n && net <= gasCost * n <= current.balance && |created| == n - 1 && left.id == coin.id
    requires forall i :: 0 <= i < |created| ==> created[i].id == first + |hidden| + i
    ensures
      var parts := PartsBy(current, n, gasCost * n, net, created, left);
      && SumBy(parts, Balance, target) + SumBy(hidden, Balance, target) + gas + net == coin.balance
      && SumBy(parts, Count, target) + SumBy(hidden, Count, target) == |hidden| + |created| + 1
      && (hidden == [] ==>
          && SumBy(parts, Shares, target) <= Value(coin, Shares, target)
          && Value(coin, Least(gasCost), target) <= SumBy(parts, Least(gasCost), target)
          && forall c :: c in parts ==> target <= c.balance)
      && 2 + SumBy(parts, Steps, target) < Value(coin, Steps, target)
      && IdsOnce(parts, hidden, coin, first, |hidden| + |created|, target)
  {
    hide Value, KeepLimit, StepsOf;
    var parts := PartsBy(current, n, gasCost * n, net, created, left);
    PartsByExact(current, n, gasCost * n, net, created, left);
    SumByBalance(parts, target);
    SumByBalance(hidden, target);
    RetriedSteps(coin, current, gasCost, target, hidden, first, gas, count, n, net, created, left);
    RetriedIdents(coin, current, target, hidden, first, gas, count, parts, created);
  }

  lemma RetriedSteps(
    coin: GasCoin, current: GasCoin, gasCost: nat, target: nat, hidden: seq<GasCoin>, first: ObjectId, gas: nat,
      count: nat,
    n: nat, net: nat, created: seq<ObjectRef>, left: ObjectRef)
    requires 0 < target && KeepLimit(gasCost, target) < coin.balance && n == SplitCount(coin.balance, gasCost, target)
    requires Retried(coin, current, target, hidden, first, gas, count)
    requires 2 <= n && net <= gasCost * n <= current.balance && |created| == n - 1 && left.id == coin.id
    requires forall i :: 0 <= i < |created| ==> created[i].id == first + |hidden| + i
    ensures
      var parts := PartsBy(current, n, gasCost * n, net, created, left);
      && 2 + SumBy(parts, Steps, target) < Value(coin, Steps, target)
      && (hidden == [] ==>
          && SumBy(parts, Shares, target) <= Value(coin, Shares, target)
          && Value(coin, Least(gasCost), target) <= SumBy(parts, Least(gasCost), target)
          && forall c :: c in parts ==> target <= c.balance)
  {
    var parts := PartsBy(current, n, gasCost * n, net, created, left);
    if hidden == [] {
      SplitAccounted(coin, gasCost, target, net, created, left, first);
      SplitGivesLeast(coin, gasCost, target, net, created, left);
      PartsAreExact(coin, gasCost, target, net, created, left);
    } else {
      PartsByExact(current, n, gasCost * n, net, created, left);
      StepsAtMost(parts, target);
      // the hidden coins took a whole target with them
      DivMono(Total(parts) + target, coin.balance, target);
      FloorsAdd(1, target, Total(parts), target);
      DivAtLeast(target, target, 1);
      assert Total(parts) / target + 1 <= coin.balance / target;
    }
  }

  lemma RetriedIdents(
    coin: GasCoin, current: GasCoin, target: nat, hidden: seq<GasCoin>, first: ObjectId, gas: nat, count: nat,
    parts: seq<GasCoin>, created: seq<ObjectRef>)
    requires 0 < target && Retried(coin, current, target, hidden, first, gas, count) && |parts| == |created| + 1
    requires forall i :: 0 <= i < |created| ==> parts[i].id == created[i].id == first + |hidden| + i
    requires parts[|created|].id == coin.id
    ensures IdsOnce(parts, hidden, coin, first, |hidden| + |created|, target)
  {
    var made, rest := parts[..|created|], parts[|created|];
    assert parts == made + [rest];
    PartsIdents(made, rest, coin, first + |hidden|, target);
    forall id: ObjectId ensures SumBy(hidden, Ident(id), target) == if first <= id < first + |hidden| then 1 else 0 {
      SumByFreshIds(hidden, first, id, target);
    }
  }

  /** `clean`: no error has hidden anything so far. Only then is the target a lower bound. */
  ghost predicate TaskOk(x: Task, gasCost: nat, target: nat, clean: bool) {
    match x
    case Running(c) => KeepLimit(gasCost, target) < c.balance
    case Stalled(c, n) => !clean && c.balance < gasCost * n
    case Enqueueing(p, k) => (clean ==> forall c :: c in p ==> target <= c.balance) && KeptOk(k, gasCost, target, clean)
    case Finished(k) => KeptOk(k, gasCost, target, clean)
    case Collected => true
  }

  ghost predicate KeptOk(kept: seq<GasCoin>, gasCost: nat, target: nat, clean: bool) {
    forall c :: c in kept ==> c.balance <= KeepLimit(gasCost, target) && (clean ==> target <= c.balance)
  }

  ghost predicate AllOk(tasks: seq<Task>, gasCost: nat, target: nat, clean: bool) {
    forall h :: 0 <= h < |tasks| ==> TaskOk(tasks[h], gasCost, target, clean)
  }

  /** One task changes, and what errors have hidden so far only grows. */
  lemma AllOkUpdate(tasks: seq<Task>, h: nat, x: Task, gasCost: nat, target: nat, clean: bool, still: bool)
    requires AllOk(tasks, gasCost, target, clean) && h < |tasks| && (still ==> clean)
    requires TaskOk(x, gasCost, target, still)
    ensures AllOk(tasks[h := x], gasCost, target, still)
  {
    var next := tasks[h := x];
    forall k | 0 <= k < |next| ensures TaskOk(next[k], gasCost, target, still) {
      assert TaskOk(tasks[k], gasCost, target, clean);
    }
  }

  lemma TaskOf(tasks: seq<Task>, h: nat, gasCost: nat, target: nat, clean: bool)
    requires AllOk(tasks, gasCost, target, clean) && h < |tasks|
    ensures TaskOk(tasks[h], gasCost, target, clean)
  {
  }

  /** The queue holds live handles once each, and no live task is out of reach of the drain loop. */
  ghost predicate Linked(queue: seq<nat>, tasks: seq<Task>, awaited: Option<nat>) {
    && (forall i :: 0 <= i < |queue| ==> queue[i] < |tasks| && tasks[queue[i]] != Collected)
    && (forall i, j :: 0 <= i < j < |queue| ==> queue[i] != queue[j])
    && (awaited.Some? ==> awaited.value < |tasks| && awaited.value !in queue && tasks[awaited.value] != Collected)
    && (forall h :: 0 <= h < |tasks| ==> tasks[h] == Collected || h in queue || awaited == Some(h))
  }

  lemma SpawnLinked(queue: seq<nat>, tasks: seq<Task>, awaited: Option<nat>, x: Task)
    requires Linked(queue, tasks, awaited) && x != Collected
    ensures Linked(queue + [|tasks|], tasks + [x], awaited)
  {
    var q, ts := queue + [|tasks|], tasks + [x];
    assert q[|queue|] == |tasks|;
    forall h | 0 <= h < |ts| && ts[h] != Collected && awaited != Some(h) ensures h in q {
      if h < |tasks| {
        var i :| 0 <= i < |queue| && queue[i] == h;
        assert q[i] == h;
      }
    }
  }

  lemma UpdateLinked(queue: seq<nat>, tasks: seq<Task>, awaited: Option<nat>, h: nat, x: Task)
    requires Linked(queue, tasks, awaited) && h < |tasks| && tasks[h] != Collected && x != Collected
    ensures Linked(queue, tasks[h := x], awaited)
  {
  }

  /** Spawning moves a coin into the tasks and leaves one step less than the coin was worth. */
  lemma SpawnAccounted(tasks: seq<Task>, coin: GasCoin, gasCost: nat, target: nat)
    requires 0 < target && KeepLimit(gasCost, target) < coin.balance
    ensures forall m {:trigger SumTasks(tasks + [Running(coin)], m, target)} :: m != Steps ==>
      SumTasks(tasks + [Running(coin)], m, target) == SumTasks(tasks, m, target) + Value(coin, m, target)
    ensures SumTasks(tasks + [Running(coin)], Steps, target) + 1 ==
      SumTasks(tasks, Steps, target) + Value(coin, Steps, target)
  {
    forall m: Metric
      ensures SumTasks(tasks + [Running(coin)], m, target) ==
        SumTasks(tasks, m, target) + TaskValue(Running(coin), m, target)
      ensures m != Steps ==> TaskValue(Running(coin), m, target) == Value(coin, m, target)
    {
      SumTasksSpawn(tasks, Running(coin), m, target);
      SumBySingle(coin, m, target);
    }
  }

  /** Handing on the first pending part: what was kept of it moves over, the rest is unchanged. */
  lemma HandedOn(tasks: seq<Task>, h: nat, p: seq<GasCoin>, k: seq<GasCoin>, kept: seq<GasCoin>, target: nat)
    requires 0 < target && h < |tasks| && p != [] && tasks[h] == Enqueueing(p, k)
    ensures forall m {:trigger SumTasks(tasks[h := Enqueueing(p[1..], k + kept)], m, target)} :: m != Steps ==>
      SumTasks(tasks[h := Enqueueing(p[1..], k + kept)], m, target) + Value(p[0], m, target)
        == SumTasks(tasks, m, target) + SumBy(kept, m, target)
    ensures SumTasks(tasks[h := Enqueueing(p[1..], k + kept)], Steps, target) + Value(p[0], Steps, target)
      == SumTasks(tasks, Steps, target)
  {
    var x := Enqueueing(p[1..], k + kept);
    forall m: Metric
      ensures SumTasks(tasks[h := x], m, target) + TaskValue(tasks[h], m, target)
           == SumTasks(tasks, m, target) + TaskValue(x, m, target)
      ensures m != Steps ==>
        TaskValue(x, m, target) + Value(p[0], m, target) == TaskValue(tasks[h], m, target) + SumBy(kept, m, target)
    {
      SumTasksUpdate(tasks, h, x, m, target);
      SumByConcat(p, k, m, target);
      SumByConcat(p[1..], k + kept, m, target);
      SumByConcat(k, kept, m, target);
    }
  }

  /** The tasks, the coins nobody was told of, and what the network has done so far. */
  datatype Snapshot = Snapshot(tasks: seq<Task>, lost: seq<GasCoin>, nextObject: ObjectId, gas: nat, transactions: nat)

  /** What any number of task steps leaves true: nothing is doubled, and what is lost was hidden by an error. */
  ghost predicate Conserves(a: Snapshot, b: Snapshot, gasCost: nat, target: nat)
    requires 0 < target
  {
    && SumTasks(b.tasks, Balance, target) + SumBy(b.lost, Balance, target) + b.gas
         == SumTasks(a.tasks, Balance, target) + SumBy(a.lost, Balance, target) + a.gas
    && SumTasks(b.tasks, Count, target) + SumBy(b.lost, Count, target) + a.nextObject
         == SumTasks(a.tasks, Count, target) + SumBy(a.lost, Count, target) + b.nextObject
    && a.lost <= b.lost
    && (b.lost == [] ==> SumTasks(b.tasks, Shares, target) <= SumTasks(a.tasks, Shares, target))
    && (b.lost == [] ==> SumTasks(a.tasks, Least(gasCost), target) <= SumTasks(b.tasks, Least(gasCost), target))
    && a.nextObject <= b.nextObject && a.gas <= b.gas
    && a.transactions <= b.transactions <= a.transactions + (b.nextObject - a.nextObject)
    && (forall id: ObjectId {:trigger SumTasks(b.tasks, Ident(id), target)} ::
         SumTasks(b.tasks, Ident(id), target) + SumBy(b.lost, Ident(id), target)
         == SumTasks(a.tasks, Ident(id), target) + SumBy(a.lost, Ident(id), target)
           + (if a.nextObject <= id < b.nextObject then 1 else 0))
  }

  lemma ConservesReflexive(a: Snapshot, gasCost: nat, target: nat)
    requires 0 < target
    ensures Conserves(a, a, gasCost, target)
  {
  }

  lemma ConservesTransitive(a: Snapshot, b: Snapshot, c: Snapshot, gasCost: nat, target: nat)
    requires 0 < target && Conserves(a, b, gasCost, target) && Conserves(b, c, gasCost, target)
    ensures Conserves(a, c, gasCost, target)
  {
    hide SumBy, SumTasks;
    forall id: ObjectId
      ensures SumTasks(c.tasks, Ident(id), target) + SumBy(c.lost, Ident(id), target)
        == SumTasks(a.tasks, Ident(id), target) + SumBy(a.lost, Ident(id), target)
          + (if a.nextObject <= id < c.nextObject then 1 else 0)
    {
      assert SumTasks(b.tasks, Ident(id), target) + SumBy(b.lost, Ident(id), target)
        == SumTasks(a.tasks, Ident(id), target) + SumBy(a.lost, Ident(id), target)
          + (if a.nextObject <= id < b.nextObject then 1 else 0);
    }
  }

  /** Executing the split transaction of task `h`, after errors that hid what they hid. */
  lemma ExecuteConserves(
    s: Snapshot, h: nat, coin: GasCoin, current: GasCoin, gasCost: nat, target: nat, hidden: seq<GasCoin>, gas: nat,
      count: nat,
    n: nat, net: nat, created: seq<ObjectRef>, left: ObjectRef)
    requires 0 < target && h < |s.tasks| && s.tasks[h] == Running(coin)
    requires KeepLimit(gasCost, target) < coin.balance && n == SplitCount(coin.balance, gasCost, target)
    requires Retried(coin, current, target, hidden, s.nextObject, gas, count)
    requires 2 <= n && net <= gasCost * n <= current.balance && |created| == n - 1 && left.id == coin.id
    requires forall i :: 0 <= i < |created| ==> created[i].id == s.nextObject + |hidden| + i
    ensures
      var next := s.tasks[h := Enqueueing(PartsBy(current, n, gasCost * n, net, created, left), [])];
      && Conserves(s, Snapshot(next, s.lost + hidden, s.nextObject + |hidden| + |created|, s.gas + gas + net,
        s.transactions + count + 1), gasCost, target)
      && SumTasks(next, Steps, target) < SumTasks(s.tasks, Steps, target)
  {
    hide SumTasks, KeepLimit, StepsOf, PartsBy;
    var parts := PartsBy(current, n, gasCost * n, net, created, left);
    var x := Enqueueing(parts, []);
    RetriedAccounted(coin, current, gasCost, target, hidden, s.nextObject, gas, count, n, net, created, left);
    assert parts + [] == parts;
    forall m: Metric
      ensures SumTasks(s.tasks[h := x], m, target) + TaskValue(s.tasks[h], m, target)
           == SumTasks(s.tasks, m, target) + TaskValue(x, m, target)
      ensures m != Steps ==> TaskValue(s.tasks[h], m, target) == Value(coin, m, target)
      ensures SumBy(s.lost + hidden, m, target) == SumBy(s.lost, m, target) + SumBy(hidden, m, target)
    {
      SumTasksUpdate(s.tasks, h, x, m, target);
      SumBySingle(coin, m, target);
      SumByConcat(s.lost, hidden, m, target);
    }
    SumByBalance(hidden, target);
  }

  /** Errors that left a coin which cannot pay the transaction that is sent again. */
  lemma StallConserves(s: Snapshot, h: nat, coin: GasCoin, current: GasCoin, gasCost: nat, target: nat,
      hidden: seq<GasCoin>, gas: nat, count: nat, n: nat)
    requires 0 < target && h < |s.tasks| && s.tasks[h] == Running(coin) && target <= coin.balance
    requires Retried(coin, current, target, hidden, s.nextObject, gas, count) && hidden != []
    ensures
      var next := s.tasks[h := Stalled(current, n)];
      && Conserves(s, Snapshot(next, s.lost + hidden, s.nextObject + |hidden|, s.gas + gas, s.transactions + count),
        gasCost, target)
      && SumTasks(next, Steps, target) < SumTasks(s.tasks, Steps, target)
  {
    hide SumTasks;
    var x := Stalled(current, n);
    forall m: Metric
      ensures SumTasks(s.tasks[h := x], m, target) + TaskValue(s.tasks[h], m, target)
           == SumTasks(s.tasks, m, target) + TaskValue(x, m, target)
      ensures m != Steps ==>
        TaskValue(s.tasks[h], m, target) == Value(coin, m, target)
        && TaskValue(x, m, target) == Value(current, m, target)
      ensures SumBy(s.lost + hidden, m, target) == SumBy(s.lost, m, target) + SumBy(hidden, m, target)
    {
      SumTasksUpdate(s.tasks, h, x, m, target);
      SumBySingle(coin, m, target);
      SumBySingle(current, m, target);
      SumByConcat(s.lost, hidden, m, target);
    }
    SumByBalance(hidden, target);
    DivAtLeast(coin.balance, target, 1);
    forall id: ObjectId
      ensures SumBy(hidden, Ident(id), target) == if s.nextObject <= id < s.nextObject + |hidden| then 1 else 0
    {
      SumByFreshIds(hidden, s.nextObject, id, target);
    }
  }

  /** Handing on a part that `enqueue_task` keeps whole. */
  lemma KeepConserves(tasks: seq<Task>, h: nat, p: seq<GasCoin>, k: seq<GasCoin>, gasCost: nat, target: nat,
      s: Snapshot)
    requires 0 < target && h < |tasks| && p != [] && tasks[h] == Enqueueing(p, k)
    requires s.tasks == tasks
    ensures
      var next := tasks[h := Enqueueing(p[1..], k + [p[0]])];
      && Conserves(s, s.(tasks := next), gasCost, target)
      && SumTasks(next, Steps, target) < SumTasks(tasks, Steps, target)
  {
    HandedOn(tasks, h, p, k, [p[0]], target);
    forall m: Metric ensures SumBy([p[0]], m, target) == Value(p[0], m, target) {
      SumBySingle(p[0], m, target);
    }
    if target <= p[0].balance {
      DivAtLeast(p[0].balance, target, 1);
    }
  }

  /** Handing on a part that gets a task of its own. */
  lemma SpawnConserves(tasks: seq<Task>, h: nat, p: seq<GasCoin>, k: seq<GasCoin>, gasCost: nat, target: nat,
      s: Snapshot)
    requires 0 < target && h < |tasks| && p != [] && tasks[h] == Enqueueing(p, k)
    requires KeepLimit(gasCost, target) < p[0].balance && s.tasks == tasks
    ensures
      var next := (tasks + [Running(p[0])])[h := Enqueueing(p[1..], k)];
      && Conserves(s, s.(tasks := next), gasCost, target)
      && SumTasks(next, Steps, target) < SumTasks(tasks, Steps, target)
  {
    var spawned := tasks + [Running(p[0])];
    SpawnAccounted(tasks, p[0], gasCost, target);
    HandedOn(spawned, h, p, k, [], target);
    assert k + [] == k;
  }

  /** A task that has handed on all its parts returns what it kept. */
  lemma FinishConserves(tasks: seq<Task>, h: nat, k: seq<GasCoin>, gasCost: nat, target: nat, s: Snapshot)
    requires 0 < target && h < |tasks| && tasks[h] == Enqueueing([], k) && s.tasks == tasks
    ensures
      var next := tasks[h := Finished(k)];
      && Conserves(s, s.(tasks := next), gasCost, target)
      && SumTasks(next, Steps, target) < SumTasks(tasks, Steps, target)
  {
    assert [] + k == k;
    forall m: Metric
      ensures SumTasks(tasks[h := Finished(k)], m, target) + TaskValue(tasks[h], m, target)
           == SumTasks(tasks, m, target) + TaskValue(Finished(k), m, target)
    {
      SumTasksUpdate(tasks, h, Finished(k), m, target);
    }
  }

  /** All coins of a run: in tasks, in the result so far, or not enqueued yet. */
  ghost function Whole(s: Snapshot, result: seq<GasCoin>, rest: seq<GasCoin>): Snapshot {
    s.(tasks := s.tasks + [Finished(result + rest)])
  }

  lemma WholeSum(s: Snapshot, result: seq<GasCoin>, rest: seq<GasCoin>, m: Metric, target: nat)
    requires 0 < target && m != Steps
    ensures SumTasks(Whole(s, result, rest).tasks, m, target)
         == SumTasks(s.tasks, m, target) + SumBy(result, m, target) + SumBy(rest, m, target)
  {
    SumTasksSpawn(s.tasks, Finished(result + rest), m, target);
    SumByConcat(result, rest, m, target);
  }

  lemma WholeSums(s: Snapshot, result: seq<GasCoin>, rest: seq<GasCoin>, target: nat)
    requires 0 < target
    ensures forall m {:trigger SumTasks(Whole(s, result, rest).tasks, m, target)} :: m != Steps ==>
      SumTasks(Whole(s, result, rest).tasks, m, target)
        == SumTasks(s.tasks, m, target) + SumBy(result, m, target) + SumBy(rest, m, target)
  {
    forall m: Metric | m != Steps
      ensures SumTasks(Whole(s, result, rest).tasks, m, target)
           == SumTasks(s.tasks, m, target) + SumBy(result, m, target) + SumBy(rest, m, target)
    {
      WholeSum(s, result, rest, m, target);
    }
  }

  lemma WholeConserves(a: Snapshot, b: Snapshot, result: seq<GasCoin>, rest: seq<GasCoin>, gasCost: nat, target: nat)
    requires 0 < target && Conserves(a, b, gasCost, target)
    ensures Conserves(Whole(a, result, rest), Whole(b, result, rest), gasCost, target)
  {
    hide SumTasks, SumBy;
    WholeSums(a, result, rest, target);
    WholeSums(b, result, rest, target);
    forall id: ObjectId
      ensures SumTasks(Whole(b, result, rest).tasks, Ident(id), target) + SumBy(b.lost, Ident(id), target)
        == SumTasks(Whole(a, result, rest).tasks, Ident(id), target) + SumBy(a.lost, Ident(id), target)
           + (if a.nextObject <= id < b.nextObject then 1 else 0)
    {
      assert SumTasks(b.tasks, Ident(id), target) + SumBy(b.lost, Ident(id), target)
        == SumTasks(a.tasks, Ident(id), target) + SumBy(a.lost, Ident(id), target)
          + (if a.nextObject <= id < b.nextObject then 1 else 0);
    }
  }

  /** The first loop of `split_gas_coins`: the next input coin is kept or spawned. */
  lemma InputConserves(s: Snapshot, result: seq<GasCoin>, rest: seq<GasCoin>, gasCost: nat, target: nat)
    requires 0 < target && rest != []
    ensures Conserves(Whole(s, result, rest), Whole(s, result + [rest[0]], rest[1..]), gasCost, target)
    ensures KeepLimit(gasCost, target) < rest[0].balance ==>
      Conserves(Whole(s, result, rest), Whole(s.(tasks := s.tasks + [Running(rest[0])]), result, rest[1..]), gasCost,
        target)
  {
    hide SumTasks, StepsOf;
    assert result + rest == (result + [rest[0]]) + rest[1..];
    if KeepLimit(gasCost, target) < rest[0].balance {
      SpawnAccounted(s.tasks, rest[0], gasCost, target);
      WholeSums(s, result, rest, target);
      WholeSums(s.(tasks := s.tasks + [Running(rest[0])]), result, rest[1..], target);
    }
  }

  /** Awaiting a task moves what it returned into the result. */
  lemma CollectConserves(s: Snapshot, h: nat, k: seq<GasCoin>, result: seq<GasCoin>, gasCost: nat, target: nat)
    requires 0 < target && h < |s.tasks| && s.tasks[h] == Finished(k)
    ensures Conserves(Whole(s, result, []), Whole(s.(tasks := s.tasks[h := Collected]), result + k, []), gasCost,
      target)
    ensures SumTasks(s.tasks[h := Collected], Steps, target) == SumTasks(s.tasks, Steps, target)
  {
    hide SumTasks;
    var next := s.tasks[h := Collected];
    forall m: Metric
      ensures SumTasks(next, m, target) + TaskValue(s.tasks[h], m, target)
           == SumTasks(s.tasks, m, target) + TaskValue(Collected, m, target)
      ensures SumBy(result + k, m, target) == SumBy(result, m, target) + SumBy(k, m, target)
    {
      SumTasksUpdate(s.tasks, h, Collected, m, target);
      SumByConcat(result, k, m, target);
    }
    WholeSums(s, result, [], target);
    WholeSums(s.(tasks := next), result + k, [], target);
  }

  lemma CollectLinked(queue: seq<nat>, tasks: seq<Task>, h: nat)
    requires Linked(queue, tasks, Some(h))
    ensures Linked(queue, tasks[h := Collected], None)
  {
  }

  lemma PopLinked(queue: seq<nat>, tasks: seq<Task>)
    requires Linked(queue, tasks, None) && queue != []
    ensures Linked(queue[1..], tasks, Some(queue[0]))
  {
    forall h | 0 <= h < |tasks| && tasks[h] != Collected && h != queue[0] ensures h in queue[1..] {
      var i :| 0 <= i < |queue| && queue[i] == h;
      assert queue[1..][i - 1] == h;
    }
  }

  /** Where a coin of the result comes from, and how large it can be. */
  ghost predicate ResultOk(result: seq<GasCoin>, coins: seq<GasCoin>, gasCost: nat, target: nat) {
    forall c :: c in result ==> c.balance <= KeepLimit(gasCost, target) && (c in coins || target <= c.balance)
  }

  /** The whole run, read off at its end: `made` objects were created, `gas` was charged in `count` transactions. */
  ghost predicate SplitDone(coins: seq<GasCoin>, result: seq<GasCoin>, gasCost: nat, target: nat, first: ObjectId,
      made: nat, gas: nat, count: nat)
    requires 0 < target
  {
    && ResultOk(result, coins, gasCost, target)
    && Total(result) + gas == Total(coins)
    && |result| == |coins| + made
    && count <= made
    && SumBy(coins, Least(gasCost), target) <= |result| <= SumBy(coins, Shares, target)
    && (forall id: ObjectId {:trigger SumBy(result, Ident(id), target)} ::
         SumBy(result, Ident(id), target) ==
           SumBy(coins, Ident(id), target) + (if first <= id < first + made then 1 else 0))
  }

  lemma {:induction false} AtLeastOneShare(coins: seq<GasCoin>, target: nat)
    requires 0 < target
    ensures |coins| <= SumBy(coins, Shares, target)
  {
    if coins != [] {
      AtLeastOneShare(coins[1..], target);
      if target <= coins[0].balance {
        DivAtLeast(coins[0].balance, target, 1);
      }
    }
  }

  /** The books of a run that ended, whatever its errors hid. */
  ghost predicate RunBooks(
    coins: seq<GasCoin>, result: seq<GasCoin>, lost: seq<GasCoin>, gasCost: nat, target: nat, first: ObjectId,
      made: nat, gas: nat, count: nat)
    requires 0 < target
  {
    && (forall c :: c in result ==> c.balance <= KeepLimit(gasCost, target))
    && Total(result) + Total(lost) + gas == Total(coins)
    && |result| + |lost| == |coins| + made
    && count <= made
    && (forall id: ObjectId {:trigger SumBy(result, Ident(id), target)} ::
         SumBy(result, Ident(id), target) + SumBy(lost, Ident(id), target)
         == SumBy(coins, Ident(id), target) + (if first <= id < first + made then 1 else 0))
  }

  /** A run that ended gave exactly what it should if and only if no error hid an effect. */
  lemma RunDone(coins: seq<GasCoin>, result: seq<GasCoin>, gasCost: nat, target: nat, start: Snapshot, end: Snapshot)
    requires 0 < target && start.tasks == [] && start.lost == []
    requires Conserves(Whole(start, [], coins), Whole(end, result, []), gasCost, target)
    requires forall h :: 0 <= h < |end.tasks| ==> end.tasks[h] == Collected
    requires forall c :: c in result ==> c.balance <= KeepLimit(gasCost, target)
    requires end.lost == [] ==> ResultOk(result, coins, gasCost, target)
    requires end.lost != [] ==> 0 < Total(end.lost)
    ensures start.nextObject <= end.nextObject && start.gas <= end.gas && start.transactions <= end.transactions
    ensures RunBooks(coins, result, end.lost, gasCost, target, start.nextObject,
      end.nextObject - start.nextObject, end.gas - start.gas, end.transactions - start.transactions)
    ensures
      var made, gas, count := end.nextObject - start.nextObject, end.gas - start.gas,
        end.transactions - start.transactions;
      SplitDone(coins, result, gasCost, target, start.nextObject, made, gas, count) <==> end.lost == []
  {
    hide SumTasks;
    WholeSums(start, [], coins, target);
    WholeSums(end, result, [], target);
    forall m: Metric ensures SumTasks(end.tasks, m, target) == 0 && SumTasks(start.tasks, m, target) == 0 {
      SumTasksCollected(end.tasks, m, target);
      SumTasksCollected(start.tasks, m, target);
    }
    SumByBalance(coins, target);
    SumByBalance(result, target);
    SumByBalance(end.lost, target);
    AtLeastOneShare(result, target);
    SumByUniform(result, Least(gasCost), target, 1);
    var a, b := Whole(start, [], coins), Whole(end, result, []);
    assert SumTasks(b.tasks, Balance, target) == Total(result);
    assert SumTasks(a.tasks, Balance, target) == Total(coins);
    assert SumTasks(b.tasks, Shares, target) == SumBy(result, Shares, target);
    assert SumTasks(a.tasks, Shares, target) == SumBy(coins, Shares, target);
    assert SumTasks(b.tasks, Least(gasCost), target) == SumBy(result, Least(gasCost), target);
    assert SumTasks(a.tasks, Least(gasCost), target) == SumBy(coins, Least(gasCost), target);
    forall id: ObjectId
      ensures SumBy(result, Ident(id), target) + SumBy(end.lost, Ident(id), target) == SumBy(coins, Ident(id), target)
        + (if start.nextObject <= id < end.nextObject then 1 else 0)
    {
      assert SumTasks(b.tasks, Ident(id), target) == SumBy(result, Ident(id), target);
      assert SumTasks(a.tasks, Ident(id), target) == SumBy(coins, Ident(id), target);
    }
  }
}
