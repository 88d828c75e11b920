/** Gas coins and the few facts about lists of coins that every other module uses. */
module Coins {

  datatype Option<+T> = None | Some(value: T)

  /** An object id is an opaque number; its text form is the business of `CoinCodec`. */
  type ObjectId = nat

  /** Text the SDK prints for a digest (Base58, hence free of commas). */
  type Text = s: string | ',' !in s witness ""

  datatype GasCoin = GasCoin(balance: nat, id: ObjectId, version: nat, digest: Text)

  /** What the ledger reports about an object it created or changed. */
  datatype ObjectRef = ObjectRef(id: ObjectId, version: nat, digest: Text)

  function Total(coins: seq<GasCoin>): nat {
    if coins == [] then 0 else coins[0].balance + Total(coins[1..])
  }

  ghost function IdSet(coins: seq<GasCoin>): set<ObjectId> {
    set c | c in coins :: c.id
  }

  ghost predicate Distinct(coins: seq<GasCoin>) {
    forall i, j :: 0 <= i < j < |coins| ==> coins[i].id != coins[j].id
  }

  ghost predicate DistinctIds(ids: seq<ObjectId>) {
    forall i, j :: 0 <= i < j < |ids| ==> ids[i] != ids[j]
  }

  function IdsOf(coins: seq<GasCoin>): (ids: seq<ObjectId>)
    ensures |ids| == |coins|
    ensures forall i :: 0 <= i < |coins| ==> ids[i] == coins[i].id
  {
    seq(|coins|, i requires 0 <= i < |coins| => coins[i].id)
  }

  lemma {:induction false} TotalConcat(a: seq<GasCoin>, b: seq<GasCoin>)
    ensures Total(a + b) == Total(a) + Total(b)
  {
    if a == [] {
      assert a + b == b;
    } else {
      assert (a + b)[1..] == a[1..] + b;
      TotalConcat(a[1..], b);
    }
  }

  lemma IdSetConcat(a: seq<GasCoin>, b: seq<GasCoin>)
    ensures IdSet(a + b) == IdSet(a) + IdSet(b)
  {
    forall c | c in a + b ensures c in a || c in b {
    }
    forall c | c in a || c in b ensures c in a + b {
    }
  }

  lemma DistinctConcat(a: seq<GasCoin>, b: seq<GasCoin>)
    ensures Distinct(a + b) <==> Distinct(a) && Distinct(b) && IdSet(a) !! IdSet(b)
  {
    var s := a + b;
    if Distinct(a) && Distinct(b) && IdSet(a) !! IdSet(b) {
      forall i, j | 0 <= i < j < |s| ensures s[i].id != s[j].id {
        if i < |a| <= j {
          assert a[i] in a && b[j - |a|] in b;
          assert a[i].id in IdSet(a) && b[j - |a|].id in IdSet(b);
        }
      }
    }
    if Distinct(s) {
      forall i, j | 0 <= i < j < |a| ensures a[i].id != a[j].id {
        assert s[i].id != s[j].id;
      }
      forall i, j | 0 <= i < j < |b| ensures b[i].id != b[j].id {
        assert s[|a| + i].id != s[|a| + j].id;
      }
      forall c, d | c in a && d in b ensures c.id != d.id {
        var i :| 0 <= i < |a| && a[i] == c;
        var j :| 0 <= j < |b| && b[j] == d;
        assert s[i].id != s[|a| + j].id;
      }
    }
  }
}
