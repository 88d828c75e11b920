/** The arithmetic of one coin split, as `split_one_gas_coin` performs it. */
module SplitMath {
  import opened Coins

  /** At most 2048 objects may change in one transaction; the source stops at 2000. */
  const MAX_SPLIT: nat := 2000

  function SplitCount(balance: nat, gasCost: nat, target: nat): nat
    requires 0 < target
  {
    var n := balance / (gasCost + target);
    if n < MAX_SPLIT then n else MAX_SPLIT
  }

  /** `enqueue_task` keeps a coin whole at or below this balance. */
  function KeepLimit(gasCost: nat, target: nat): nat {
    (gasCost + target) * 2
  }

  function NewBalance(balance: nat, budget: nat, n: nat): nat
    requires 0 < n && budget <= balance
  {
    (balance - budget) / n
  }

  /** What is left of the split coin itself after `n - 1` coins of `newBalance` and `net` gas. */
  function Remainder(balance: nat, newBalance: nat, n: nat, net: nat): int
    requires 0 < n
  {
    balance - newBalance * (n - 1) - net
  }

  lemma MulDivLe(a: nat, b: nat)
    requires 0 < b
    ensures b * (a / b) <= a < b * (a / b) + b
  {
  }

  lemma DivAtLeast(a: nat, b: nat, k: nat)
    requires 0 < b && b * k <= a
    ensures k <= a / b
  {
    MulDivLe(a, b);
    if a / b < k {
      MulMono(a / b + 1, k, b);
      assert false;
    }
  }

  lemma MulMono(x: nat, y: nat, k: nat)
    requires x <= y
    ensures x * k <= y * k && k * x <= k * y
  {
  }

  /** A coin that is split at all is split in two or more, and can pay the whole budget. */
  lemma SplitIsPayable(balance: nat, gasCost: nat, target: nat)
    requires 0 < target && KeepLimit(gasCost, target) < balance
    ensures 2 <= SplitCount(balance, gasCost, target) <= MAX_SPLIT
    ensures SplitCount(balance, gasCost, target) * (gasCost + target) <= balance
    ensures gasCost * SplitCount(balance, gasCost, target) <= balance
  {
    var unit := gasCost + target;
    var n := SplitCount(balance, gasCost, target);
    DivAtLeast(balance, unit, 2);
    MulDivLe(balance, unit);
    MulMono(n, balance / unit, unit);
    assert n * unit == n * gasCost + n * target;
  }

  /**
   * It is split in as many as it can pay for, with gas and a whole target for each, up to 2000: no larger count
   * would do.
   */
  lemma SplitIsLargest(balance: nat, gasCost: nat, target: nat)
    requires 0 < target && KeepLimit(gasCost, target) < balance
    ensures
      var n := SplitCount(balance, gasCost, target);
      && n * (gasCost + target) <= balance && n <= 2000
      && (n == 2000 || balance < (n + 1) * (gasCost + target))
  {
    var n := SplitCount(balance, gasCost, target);
    SplitIsPayable(balance, gasCost, target);
    MulDivLe(balance, gasCost + target);
    assert (n + 1) * (gasCost + target) == n * (gasCost + target) + (gasCost + target);
  }

  /** Below that cap the created coins together hold less than one more target and its gas above their targets. */
  lemma CreatedCoinsAreTight(balance: nat, gasCost: nat, target: nat)
    requires 0 < target && KeepLimit(gasCost, target) < balance
    ensures
      var n := SplitCount(balance, gasCost, target);
      2 <= n && gasCost * n <= balance
    ensures
      var n := SplitCount(balance, gasCost, target);
      var x := NewBalance(balance, gasCost * n, n);
      n * target <= n * x && (n < 2000 ==> n * x < n * target + (gasCost + target))
  {
    hide SplitCount, Remainder;
    var n := SplitCount(balance, gasCost, target);
    SplitIsPayable(balance, gasCost, target);
    SplitIsLargest(balance, gasCost, target);
    SplitIsExact(balance, gasCost, target, 0);
    MulDivLe(balance - gasCost * n, n);
    MulMono(target, NewBalance(balance, gasCost * n, n), n);
    OneMore(n, gasCost, target);
  }

  lemma OneMore(n: nat, gasCost: nat, target: nat)
    ensures (n + 1) * (gasCost + target) == gasCost * n + n * target + (gasCost + target)
  {
    assert (n + 1) * (gasCost + target) == n * (gasCost + target) + (gasCost + target);
    assert n * (gasCost + target) == n * gasCost + n * target;
  }

  /**
   * Every part of a split holds at least `target`, the remainder is never the smallest part,
   * and parts plus gas are exactly the coin that was split.
   */
  lemma SplitIsExact(balance: nat, gasCost: nat, target: nat, net: nat)
    requires 0 < target && KeepLimit(gasCost, target) < balance
    requires net <= gasCost * SplitCount(balance, gasCost, target) <= balance
    requires 0 < SplitCount(balance, gasCost, target)
    ensures
      var n := SplitCount(balance, gasCost, target);
      var x := NewBalance(balance, gasCost * n, n);
      var r := Remainder(balance, x, n, net);
      target <= x <= r && (n - 1) * x + r + net == balance
  {
    SplitIsPayable(balance, gasCost, target);
    var n := SplitCount(balance, gasCost, target);
    var budget := gasCost * n;
    assert n * (gasCost + target) == n * gasCost + n * target;
    assert n * target <= balance - budget;
    DivAtLeast(balance - budget, n, target);
    var x := NewBalance(balance, budget, n);
    MulDivLe(balance - budget, n);
    assert x * n == x * (n - 1) + x;
  }

  /** Whole targets never come out of nowhere: floors of the parts add up to at most the floor of the sum. */
  lemma FloorsAdd(k: nat, x: nat, r: nat, target: nat)
    requires 0 < target
    ensures k * (x / target) + r / target <= (k * x + r) / target
  {
    var fx, fr := x / target, r / target;
    MulDivLe(x, target);
    MulDivLe(r, target);
    MulMono(target * fx, x, k);
    Regroup(target, fx, fr, k);
    DivAtLeast(k * x + r, target, k * fx + fr);
  }

  lemma Regroup(a: nat, b: nat, c: nat, k: nat)
    ensures a * (k * b + c) == k * (a * b) + a * c
  {
    assert a * (k * b + c) == a * (k * b) + a * c;
  }

  lemma DivMono(a: nat, b: nat, d: nat)
    requires 0 < d && a <= b
    ensures a / d <= b / d
  {
    MulDivLe(a, d);
    DivAtLeast(b, d, a / d);
  }

  /** The guard of `run_once`: it is exactly what keeps every unsplit coin below the refresh threshold. */
  lemma KeepLimitBelowThreshold(gasCost: nat, target: nat)
    ensures KeepLimit(gasCost, target) < 200 * target <==> gasCost < target * 99
  {
  }

  /** Created coins and gas never take more than the coin, whatever the count, if it can pay the budget. */
  lemma RemainderCovers(balance: nat, budget: nat, n: nat, net: nat)
    requires 0 < n && net <= budget <= balance
    ensures 0 <= Remainder(balance, NewBalance(balance, budget, n), n, net)
    ensures Remainder(balance, NewBalance(balance, budget, n), n, net) ==
      budget - net + NewBalance(balance, budget, n) + (balance - budget) % n
  {
    var x := NewBalance(balance, budget, n);
    assert balance - budget == n * x + (balance - budget) % n;
    assert n * x == x * (n - 1) + x;
  }

  /** What a transaction with this count and budget makes of a coin: the created coins in order, then the remainder. */
  function PartsBy(coin: GasCoin, n: nat, budget: nat, net: nat, created: seq<ObjectRef>, left: ObjectRef): seq<GasCoin>
    requires 0 < n && net <= budget <= coin.balance
  {
    RemainderCovers(coin.balance, budget, n, net);
    var x := NewBalance(coin.balance, budget, n);
    CreatedCoins(created, x) + [GasCoin(Remainder(coin.balance, x, n, net), left.id, left.version, left.digest)]
  }

  lemma PartsByExact(coin: GasCoin, n: nat, budget: nat, net: nat, created: seq<ObjectRef>, left: ObjectRef)
    requires 0 < n && net <= budget <= coin.balance && |created| == n - 1
    ensures
      var parts := PartsBy(coin, n, budget, net, created, left);
      && |parts| == n && Total(parts) + net == coin.balance
      && (forall i :: 0 <= i < n - 1 ==>
            parts[i].id == created[i].id && parts[i].balance == NewBalance(coin.balance, budget, n))
      && parts[n - 1].id == left.id
      && parts[n - 1].balance == Remainder(coin.balance, NewBalance(coin.balance, budget, n), n, net)
      && parts == parts[..n - 1] + [parts[n - 1]]
  {
    hide NewBalance, CreatedCoins, Total;
    RemainderCovers(coin.balance, budget, n, net);
    var x := NewBalance(coin.balance, budget, n);
    var made := CreatedCoins(created, x);
    CreatedTotal(made, x);
    MulComm(n - 1, x);
    var rest := GasCoin(Remainder(coin.balance, x, n, net), left.id, left.version, left.digest);
    TotalConcat(made, [rest]);
    TotalOne(rest);
  }

  lemma MulComm(a: nat, b: nat)
    ensures a * b == b * a
  {
  }

  lemma TotalOne(c: GasCoin)
    ensures Total([c]) == c.balance
  {
    assert [c][1..] == [];
  }

  /** The coins one split leaves on the ledger. */
  function Parts(coin: GasCoin, gasCost: nat, target: nat, net: nat, created: seq<ObjectRef>,
      left: ObjectRef): seq<GasCoin>
    requires 0 < target && KeepLimit(gasCost, target) < coin.balance
    requires net <= gasCost * SplitCount(coin.balance, gasCost, target)
  {
    SplitIsPayable(coin.balance, gasCost, target);
    PartsBy(coin, SplitCount(coin.balance, gasCost, target), gasCost * SplitCount(coin.balance, gasCost, target), net,
      created, left)
  }

  function CreatedCoins(created: seq<ObjectRef>, balance: nat): (coins: seq<GasCoin>)
    ensures |coins| == |created|
    ensures forall i :: 0 <= i < |created| ==>
      coins[i] == GasCoin(balance, created[i].id, created[i].version, created[i].digest)
  {
    seq(|created|, i requires 0 <= i < |created| =>
      GasCoin(balance, created[i].id, created[i].version, created[i].digest))
  }

  lemma {:induction false} CreatedTotal(coins: seq<GasCoin>, balance: nat)
    requires forall c :: c in coins ==> c.balance == balance
    ensures Total(coins) == |coins| * balance
  {
    if coins != [] {
      CreatedTotal(coins[1..], balance);
      assert |coins| * balance == (|coins| - 1) * balance + balance;
    }
  }

  /** `Parts` in one sentence: at least `target` each, and together the split coin minus its gas. */
  lemma PartsAreExact(coin: GasCoin, gasCost: nat, target: nat, net: nat, created: seq<ObjectRef>, left: ObjectRef)
    requires 0 < target && KeepLimit(gasCost, target) < coin.balance
    requires net <= gasCost * SplitCount(coin.balance, gasCost, target)
    requires |created| == SplitCount(coin.balance, gasCost, target) - 1
    ensures
      var parts := Parts(coin, gasCost, target, net, created, left);
      && |parts| == |created| + 1 >= 2
      && Total(parts) + net == coin.balance
      && (forall c :: c in parts ==> target <= c.balance < coin.balance)
      && (forall i :: 0 <= i < |created| ==>
            parts[i].id == created[i].id && parts[i].balance <= parts[|created|].balance)
      && parts[|created|].id == left.id
  {
    SplitIsPayable(coin.balance, gasCost, target);
    SplitIsExact(coin.balance, gasCost, target, net);
    var n := SplitCount(coin.balance, gasCost, target);
    var x := NewBalance(coin.balance, gasCost * n, n);
    var r := Remainder(coin.balance, x, n, net);
    var made := CreatedCoins(created, x);
    var rest := [GasCoin(r, left.id, left.version, left.digest)];
    CreatedTotal(made, x);
    TotalConcat(made, rest);
    assert Total(rest) == r;
    MulMono(1, n - 1, x);
  }

  /**
   * As many parts as the coin can pay for, up to 2000. All but the last hold the same, which is as much as the
   * gas budget leaves for each, and the last is the coin itself.
   */
  ghost predicate EvenSplit(coin: GasCoin, parts: seq<GasCoin>, gasCost: nat, target: nat) {
    var n, unit := |parts|, gasCost + target;
    && 2 <= n <= 2000 && n * unit <= coin.balance && (n == 2000 || coin.balance < (n + 1) * unit)
    && (forall i :: 0 <= i < n - 1 ==>
          n * parts[i].balance <= coin.balance - gasCost * n < n * parts[i].balance + n)
    && parts[n - 1].id == coin.id
  }

  lemma PartsAreEven(coin: GasCoin, gasCost: nat, target: nat, n: nat, net: nat, created: seq<ObjectRef>,
      left: ObjectRef)
    requires 0 < target && KeepLimit(gasCost, target) < coin.balance
    requires n == SplitCount(coin.balance, gasCost, target) && 0 < n
    requires net <= gasCost * n <= coin.balance && |created| == n - 1 && left.id == coin.id
    ensures EvenSplit(coin, PartsBy(coin, n, gasCost * n, net, created, left), gasCost, target)
  {
    hide SplitCount, PartsBy;
    SplitIsPayable(coin.balance, gasCost, target);
    SplitIsLargest(coin.balance, gasCost, target);
    PartsByExact(coin, n, gasCost * n, net, created, left);
    MulDivLe(coin.balance - gasCost * n, n);
  }

  // ---------------------------------------------------------------- an error that hides a split

  /**
   * After a hidden split the code sends the transaction again, for the remainder but with the count and the
   * budget of the first attempt. The ledger takes it if and only if the first attempt charged no more than
   * one created coin and the rest of the division.
   */
  lemma RetryIsPayable(balance: nat, gasCost: nat, n: nat, net: nat)
    requires 0 < n && net <= gasCost * n <= balance
    ensures
      var x := NewBalance(balance, gasCost * n, n);
      gasCost * n <= Remainder(balance, x, n, net) <==> net <= x + (balance - gasCost * n) % n
  {
    RemainderCovers(balance, gasCost * n, n, net);
  }

  /** A payable retry makes coins below the target if and only if the remainder has too little for the old count. */
  lemma RetryIsTooSmall(rest: nat, gasCost: nat, target: nat, n: nat)
    requires 0 < n && gasCost * n <= rest
    ensures NewBalance(rest, gasCost * n, n) < target <==> rest < n * (gasCost + target)
  {
    assert n * (gasCost + target) == gasCost * n + n * target;
    MulDivLe(rest - gasCost * n, n);
    var x := NewBalance(rest, gasCost * n, n);
    if x < target {
      MulMono(x + 1, target, n);
    } else {
      MulMono(target, x, n);
    }
  }

  /** A coin of 200 with a target of 1 and a gas cost of 98: once hidden at a charge of 50, never payable again. */
  lemma RetryNeverPayable()
    ensures KeepLimit(98, 1) < 200 && SplitCount(200, 98, 1) == 2 && NewBalance(200, 196, 2) == 2
    ensures Remainder(200, 2, 2, 50) == 148 < 196
  {
  }

  /**
   * If an error hides a split that did happen, the code goes on with the remainder and never hears of the
   * created coins. A later refresh scan, which selects from 200 targets on, finds them if and only if the
   * split coin was large enough for the count to be capped with as much to spare.
   */
  lemma HiddenSplitIsFound(balance: nat, gasCost: nat, target: nat)
    requires 0 < target && gasCost < target * 99 && KeepLimit(gasCost, target) < balance
    ensures
      var n := SplitCount(balance, gasCost, target);
      2 <= n && gasCost * n <= balance
    ensures
      var n := SplitCount(balance, gasCost, target);
      200 * target <= NewBalance(balance, gasCost * n, n) <==> MAX_SPLIT * (gasCost + 200 * target) <= balance
  {
    SplitIsPayable(balance, gasCost, target);
    var n := SplitCount(balance, gasCost, target);
    var unit := gasCost + target;
    var rest := balance - gasCost * n;
    MulDivLe(rest, n);
    if n < MAX_SPLIT {
      // n is the uncapped quotient, so the coin is smaller than n + 1 units
      MulDivLe(balance, unit);
      assert unit * n + unit <= unit * n * 2 by { MulMono(1, n, unit); }
      MulMono(n, MAX_SPLIT, unit);
      UncappedIsSmall(gasCost, target, n, rest);
    } else {
      if 200 * target <= rest / n {
        MulMono(200 * target, rest / n, n);
      }
      if n * (200 * target) <= rest {
        DivAtLeast(rest, n, 200 * target);
      }
    }
  }

  lemma UncappedIsSmall(gasCost: nat, target: nat, n: nat, rest: nat)
    requires 1 <= n && gasCost < target * 99
    requires gasCost * n + rest < (gasCost + target) * n * 2
    ensures rest / n < 200 * target
  {
    assert (gasCost + target) * n * 2 == gasCost * n * 2 + target * n * 2;
    MulMono(gasCost, target * 99, n);
    MulDivLe(rest, n);
    if 200 * target <= rest / n {
      MulMono(200 * target, rest / n, n);
    }
  }
}
