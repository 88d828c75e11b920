/** The sponsor's coins on the ledger, and the value they add up to. */
module Ledger {
  import opened Coins

  type Ledger = map<ObjectId, GasCoin>

  ghost function SumValues(m: map<nat, nat>): nat {
    if m == map[] then 0
    else
      var k :| k in m;
      m[k] + SumValues(m - {k})
  }

  lemma {:induction false} SumRemove(m: map<nat, nat>, k: nat)
    requires k in m
    ensures SumValues(m) == m[k] + SumValues(m - {k})
    decreases |m|
  {
    var j :| j in m && SumValues(m) == m[j] + SumValues(m - {j});
    if j != k {
      SumRemove(m - {j}, k);
      SumRemove(m - {k}, j);
      assert m - {j} - {k} == m - {k} - {j};
    }
  }

  lemma SumInsert(m: map<nat, nat>, k: nat, v: nat)
    ensures SumValues(m[k := v]) == v + SumValues(m - {k})
    ensures k in m ==> SumValues(m[k := v]) + m[k] == SumValues(m) + v
    ensures k !in m ==> SumValues(m[k := v]) == SumValues(m) + v
  {
    SumRemove(m[k := v], k);
    assert m[k := v] - {k} == m - {k};
    if k in m {
      SumRemove(m, k);
    } else {
      assert m - {k} == m;
    }
  }

  ghost function Kept(m: map<nat, nat>, ids: set<nat>): map<nat, nat> {
    map k | k in m && k in ids :: m[k]
  }

  /** A sum over a map is the sum over some of its keys and the others. */
  lemma {:induction false} SumSplit(m: map<nat, nat>, ids: set<nat>)
    ensures SumValues(m) == SumValues(Kept(m, ids)) + SumValues(m - ids)
    decreases |m|
  {
    var inside := Kept(m, ids);
    if m != map[] {
      var k :| k in m;
      SumSplit(m - {k}, ids);
      SumRemove(m, k);
      var less := m - {k};
      if k in ids {
        SumRemove(inside, k);
        assert inside - {k} == Kept(less, ids);
        assert less - ids == m - ids;
      } else {
        SumRemove(m - ids, k);
        assert inside == Kept(less, ids);
        assert less - ids == m - ids - {k};
      }
    } else {
      assert inside == map[] && m - ids == map[];
    }
  }

  /** Sums add up key by key. */
  lemma {:induction false} SumAddsUp(a: map<nat, nat>, b: map<nat, nat>, c: map<nat, nat>)
    requires a.Keys == b.Keys == c.Keys && forall k :: k in c ==> c[k] == a[k] + b[k]
    ensures SumValues(c) == SumValues(a) + SumValues(b)
    decreases |c|
  {
    if c == map[] {
      assert a == map[] && b == map[];
    } else {
      var k :| k in c;
      SumRemove(a, k);
      SumRemove(b, k);
      SumRemove(c, k);
      SumAddsUp(a - {k}, b - {k}, c - {k});
    }
  }

  lemma {:induction false} SumIsZero(m: map<nat, nat>)
    ensures SumValues(m) == 0 <==> forall k :: k in m ==> m[k] == 0
    decreases |m|
  {
    if m != map[] {
      var k :| k in m;
      SumRemove(m, k);
      SumIsZero(m - {k});
      assert forall j :: j in m ==> j == k || j in m - {k};
    }
  }

  ghost function Balances(l: Ledger): map<nat, nat> {
    map id | id in l :: l[id].balance
  }

  /** Everything the sponsor owns. */
  ghost function Worth(l: Ledger): nat {
    SumValues(Balances(l))
  }

  /** The listed coins only. */
  function SumOf(l: Ledger, ids: seq<ObjectId>): nat
    requires forall id :: id in ids ==> id in l
  {
    if ids == [] then 0 else l[ids[0]].balance + SumOf(l, ids[1..])
  }

  ghost function SetOf(ids: seq<ObjectId>): set<ObjectId> {
    set id | id in ids
  }

  function AddAll(l: Ledger, coins: seq<GasCoin>): Ledger
    decreases |coins|
  {
    if coins == [] then l else AddAll(l[coins[0].id := coins[0]], coins[1..])
  }

  /** The effect of a transaction on the sponsor's coins: `spent` ids vanish, `made` coins appear. */
  function Post(l: Ledger, spent: set<ObjectId>, made: seq<GasCoin>): Ledger {
    AddAll(l - spent, made)
  }

  lemma HeadApart(coins: seq<GasCoin>)
    requires Distinct(coins) && coins != []
    ensures Distinct(coins[1..]) && IdSet(coins) == {coins[0].id} + IdSet(coins[1..])
    ensures coins[0].id !in IdSet(coins[1..])
    ensures forall c :: c in coins ==> c == coins[0] || c in coins[1..]
  {
    var c, rest := coins[0], coins[1..];
    assert coins == [c] + rest;
    IdSetConcat([c], rest);
    assert IdSet([c]) == {c.id};
    forall r | r in rest ensures r.id != c.id {
      var i :| 0 <= i < |rest| && rest[i] == r;
      assert coins[i + 1] == r;
    }
  }

  lemma {:induction false} AddAllContents(l: Ledger, coins: seq<GasCoin>)
    requires Distinct(coins)
    ensures AddAll(l, coins).Keys == l.Keys + IdSet(coins)
    ensures forall c :: c in coins ==> c.id in AddAll(l, coins) && AddAll(l, coins)[c.id] == c
    ensures forall id :: id in l && id !in IdSet(coins) ==> AddAll(l, coins)[id] == l[id]
    decreases |coins|
  {
    if coins != [] {
      hide Distinct, IdSet;
      var c, rest := coins[0], coins[1..];
      HeadApart(coins);
      AddAllContents(l[c.id := c], rest);
    }
  }

  lemma PostContents(l: Ledger, spent: set<ObjectId>, made: seq<GasCoin>)
    requires Distinct(made)
    ensures Post(l, spent, made).Keys == (l.Keys - spent) + IdSet(made)
    ensures forall c :: c in made ==> c.id in Post(l, spent, made) && Post(l, spent, made)[c.id] == c
    ensures forall id :: id in l && id !in spent && id !in IdSet(made) ==> Post(l, spent, made)[id] == l[id]
  {
    AddAllContents(l - spent, made);
  }

  lemma WorthInsert(l: Ledger, c: GasCoin)
    requires c.id !in l
    ensures Worth(l[c.id := c]) == Worth(l) + c.balance
  {
    assert Balances(l[c.id := c]) == Balances(l)[c.id := c.balance];
    SumInsert(Balances(l), c.id, c.balance);
  }

  lemma WorthRemove(l: Ledger, id: ObjectId)
    requires id in l
    ensures Worth(l) == Worth(l - {id}) + l[id].balance
  {
    assert Balances(l - {id}) == Balances(l) - {id};
    SumRemove(Balances(l), id);
  }

  lemma {:induction false} WorthAddAll(l: Ledger, coins: seq<GasCoin>)
    requires Distinct(coins) && IdSet(coins) !! l.Keys
    ensures Worth(AddAll(l, coins)) == Worth(l) + Total(coins)
    decreases |coins|
  {
    if coins != [] {
      var c, rest := coins[0], coins[1..];
      assert c in coins && c.id in IdSet(coins);
      WorthInsert(l, c);
      forall r | r in rest ensures r.id != c.id && r.id !in l {
        var i :| 0 <= i < |rest| && rest[i] == r;
        assert coins[i + 1] == r && r in coins && r.id in IdSet(coins);
      }
      WorthAddAll(l[c.id := c], rest);
    }
  }

  lemma {:induction false} WorthRemoveAll(l: Ledger, ids: seq<ObjectId>)
    requires DistinctIds(ids) && forall id :: id in ids ==> id in l
    ensures Worth(l) == Worth(l - SetOf(ids)) + SumOf(l, ids)
    decreases |ids|
  {
    if ids == [] {
      assert l - SetOf(ids) == l;
    } else {
      var id, rest := ids[0], ids[1..];
      WorthRemove(l, id);
      forall r | r in rest ensures r != id && r in l {
        var i :| 0 <= i < |rest| && rest[i] == r;
        assert ids[i + 1] == r;
      }
      WorthRemoveAll(l - {id}, rest);
      SumOfSame(l, l - {id}, rest);
      assert l - {id} - SetOf(rest) == l - SetOf(ids);
    }
  }

  lemma {:induction false} SumOfSame(l: Ledger, m: Ledger, ids: seq<ObjectId>)
    requires forall id :: id in ids ==> id in l && id in m && l[id] == m[id]
    ensures SumOf(l, ids) == SumOf(m, ids)
  {
    if ids != [] {
      SumOfSame(l, m, ids[1..]);
    }
  }

  /** Posting a transaction changes the sponsor's worth by exactly what it makes minus what it spends. */
  lemma PostWorth(l: Ledger, ids: seq<ObjectId>, made: seq<GasCoin>)
    requires DistinctIds(ids) && forall id :: id in ids ==> id in l
    requires Distinct(made) && IdSet(made) !! (l.Keys - SetOf(ids))
    ensures Worth(Post(l, SetOf(ids), made)) + SumOf(l, ids) == Worth(l) + Total(made)
  {
    WorthRemoveAll(l, ids);
    WorthAddAll(l - SetOf(ids), made);
  }
}
