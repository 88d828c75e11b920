/** Deleting a registry key by key, with only the two locks kept. */
module CleanUp {
  import opened Coins
  import opened Migration

  predicate IsLock(suffix: string) {
    suffix == "maintenance_lock" || suffix == "init_lock"
  }

  function LocksOf(ks: Keyspace): Keyspace {
    map k | k in ks && IsLock(k) :: ks[k]
  }

  /** Every key comes up in the scan, perhaps more than once; a key deleted earlier may still be listed. */
  ghost predicate IsFullScan(ks: Keyspace, batches: seq<seq<string>>) {
    forall k :: k in ks ==> exists b :: b in batches && k in b
  }

  function SeenIn(batches: seq<seq<string>>): set<string> {
    set b, k | b in batches && k in b :: k
  }

  function DeletedOf(keys: seq<string>): set<string> {
    set k | k in keys && !IsLock(k)
  }

  class Namespace {
    var keys: Keyspace

    constructor (keys: Keyspace)
      ensures this.keys == keys
    {
      this.keys := keys;
    }

    /** The cursor loop of `clean_up_coin_registry.lua`: filters out the locks, and deletes the rest of each reply. */
    method CleanUpCoinRegistry(batches: seq<seq<string>>) returns (deleted: nat)
      requires IsFullScan(keys, batches)
      modifies this
      ensures keys == LocksOf(old(keys))
      ensures |old(keys)| - |keys| <= deleted
    {
      hide LocksOf, IsFullScan, SeenIn, DeletedOf, IsLock, Without;
      deleted := 0;
      ghost var start := keys;
      AtFirst(start, batches);
      for i := 0 to |batches|
        invariant keys == Without(start, batches, i)
        invariant |start| - |keys| <= deleted
      {
        var toDelete := Filter(batches[i]);
        Next(start, batches, i);
        Removed(keys, toDelete);
        keys := keys - (set k | k in toDelete);
        deleted := deleted + |toDelete|;
      }
      AtLast(start, batches);
    }

    /** The inner loop. */
    static method Filter(batch: seq<string>) returns (toDelete: seq<string>)
      ensures (set k | k in toDelete) == DeletedOf(batch)
    {
      toDelete := [];
      for j := 0 to |batch|
        invariant forall k :: k in toDelete <==> k in batch[..j] && !IsLock(k)
      {
        assert batch[..j + 1] == batch[..j] + [batch[j]];
        if batch[j] != "maintenance_lock" && batch[j] != "init_lock" {
          toDelete := toDelete + [batch[j]];
        }
      }
      assert batch[..|batch|] == batch;
    }
  }

  function Locks(): set<string> {
    {"maintenance_lock", "init_lock"}
  }

  /** What is left after the first `i` replies. */
  function Without(ks: Keyspace, batches: seq<seq<string>>, i: nat): Keyspace
    requires i <= |batches|
  {
    ks - (SeenIn(batches[..i]) - Locks())
  }

  lemma AtFirst(ks: Keyspace, batches: seq<seq<string>>)
    ensures Without(ks, batches, 0) == ks
  {
  }

  lemma Next(ks: Keyspace, batches: seq<seq<string>>, i: nat)
    requires i < |batches|
    ensures Without(ks, batches, i + 1) == Without(ks, batches, i) - DeletedOf(batches[i])
  {
    assert batches[..i + 1] == batches[..i] + [batches[i]];
    assert SeenIn(batches[..i + 1]) - Locks() == (SeenIn(batches[..i]) - Locks()) + DeletedOf(batches[i]);
  }

  lemma AtLast(ks: Keyspace, batches: seq<seq<string>>)
    requires IsFullScan(ks, batches)
    ensures Without(ks, batches, |batches|) == LocksOf(ks)
  {
    assert batches[..|batches|] == batches;
  }

  lemma Removed(ks: Keyspace, keys: seq<string>)
    ensures |ks| - |ks - (set k | k in keys)| <= |keys|
  {
    var gone := set k | k in keys;
    SetFromSeq(keys);
    assert ks.Keys == (ks - gone).Keys + ks.Keys * gone;
    SubsetSize(ks.Keys * gone, gone);
  }

  lemma {:induction false} SetFromSeq(keys: seq<string>)
    ensures |set k | k in keys| <= |keys|
  {
    if keys != [] {
      var n := |keys| - 1;
      SetFromSeq(keys[..n]);
      assert (set k | k in keys) == (set k | k in keys[..n]) + {keys[n]} by {
        assert keys == keys[..n] + [keys[n]];
      }
    }
  }

  lemma {:induction false} SubsetSize(a: set<string>, b: set<string>)
    requires a <= b
    ensures |a| <= |b|
    decreases |a|
  {
    if a != {} {
      var x :| x in a;
      SubsetSize(a - {x}, b - {x});
    }
  }

  /** What the registry code sees afterwards: nothing but the two locks. */
  lemma OnlyLocksLeft(ks: Keyspace)
    ensures RegistryAt(LocksOf(ks)) ==
      NOTHING.(initLock := RegistryAt(ks).initLock, maintenanceLock := RegistryAt(ks).maintenanceLock)
  {
    var left := LocksOf(ks);
    assert RegistryAt(left).reservations == map[] by {
      assert !IsReservation("maintenance_lock") && !IsReservation("init_lock");
    }
  }
}
