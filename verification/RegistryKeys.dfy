/** The keys under which a registry is kept, and that migrating and cleaning up key by key is what `Pool` says. */
module RegistryKeys {
  import opened Coins
  import opened Numerals
  import opened CoinCodec
  import opened Pool
  import opened RedisStorage
  import opened Migration
  import opened CleanUp

  /** A number under a key, or no key. */
  ghost predicate NumberKept(ks: Keyspace, key: string, n: Option<int>) {
    && (key in ks <==> n.Some?)
    && (n.Some? ==> 0 <= n.value && ks[key] == Text(Print(n.value, 10)))
  }

  ghost predicate ListKept(ks: Keyspace, coins: seq<GasCoin>) {
    && ("available_gas_coins" in ks <==> coins != [])
    && (coins != [] ==> ks["available_gas_coins"] == List(Texts(coins)))
  }

  /** One key for each reservation, and no other key of digits. */
  ghost predicate ReservationsKept(ks: Keyspace, reservations: map<ReservationId, seq<ObjectId>>) {
    && (forall id: nat :: Print(id, 10) in ks <==> id in reservations)
    && (forall id: nat :: id in reservations ==> ks[Print(id, 10)] == Text(JoinIds(reservations[id])))
    && (forall k :: k in ks && k != "" && (forall c :: c in k ==> '0' <= c <= '9') ==>
          exists id: nat :: k == Print(id, 10))
  }

  ghost predicate QueueKept(ks: Keyspace, expirations: map<ReservationId, nat>) {
    && ("expiration_queue" in ks <==> expirations != map[])
    && (expirations != map[] ==>
        && ks["expiration_queue"].Scores?
        && (forall id: nat :: Print(id, 10) in ks["expiration_queue"].scores <==> id in expirations)
        && (forall id: nat :: id in expirations ==> ks["expiration_queue"].scores[Print(id, 10)] == expirations[id]))
  }

  ghost predicate NumbersKept(ks: Keyspace, p: Registry) {
    && NumberKept(ks, "available_coin_count", p.coinCount)
    && NumberKept(ks, "available_coin_total_balance", p.totalBalance)
    && NumberKept(ks, "next_reservation_id", if p.lastReservation == 0 then None else Some(p.lastReservation))
    && NumberKept(ks, "init_lock", p.initLock)
    && NumberKept(ks, "maintenance_lock", p.maintenanceLock)
  }

  /** The namespace holds this registry as the scripts write it; foreign keys may be there, too. */
  ghost predicate Kept(ks: Keyspace, p: Registry) {
    && ListKept(ks, p.available)
    && NumbersKept(ks, p)
    && ReservationsKept(ks, p.reservations)
    && QueueKept(ks, p.expirations)
    && ("initialized" in ks <==> p.initialized)
    && NumberKept(ks, "schema_version", p.schemaVersion)
  }

  lemma PrintedOnce(m: nat, n: nat)
    requires Print(m, 10) == Print(n, 10)
    ensures m == n
  {
    ReadPrint(m, 10);
    ReadPrint(n, 10);
  }

  lemma AllPrintedOnce()
    ensures forall m: nat, n: nat {:trigger Print(m, 10), Print(n, 10)} :: Print(m, 10) == Print(n, 10) ==> m == n
  {
    hide Print;
    forall m: nat, n: nat | Print(m, 10) == Print(n, 10) ensures m == n {
      PrintedOnce(m, n);
    }
  }

  ghost function ReservationsAs(reservations: map<ReservationId, seq<ObjectId>>): Keyspace {
    AllPrintedOnce();
    map id | id in reservations :: Print(id, 10) := Text(JoinIds(reservations[id]))
  }

  ghost function QueueAs(expirations: map<ReservationId, nat>): Option<Value> {
    AllPrintedOnce();
    if expirations == map[] then None else Some(Scores(map id | id in expirations :: Print(id, 10) := expirations[id]))
  }

  function NumberAs(n: Option<int>): Option<Value>
    requires n.Some? ==> 0 <= n.value
  {
    if n.None? then None else Some(Text(Print(n.value, 10)))
  }

  ghost predicate SameUnder(a: Keyspace, b: Keyspace, k: string) {
    (k in a <==> k in b) && (k in a ==> b[k] == a[k])
  }

  const FIELDS: seq<string> := KNOWN + ["schema_version"]

  /** The statistics are not negative. */
  predicate Natural(p: Registry) {
    (p.coinCount.Some? ==> 0 <= p.coinCount.value) && (p.totalBalance.Some? ==> 0 <= p.totalBalance.value)
  }

  /** What is kept under a key that is not a reservation's. */
  ghost function FieldOf(p: Registry, key: string): Option<Value>
    requires Natural(p)
  {
    if key == "available_gas_coins" then if p.available == [] then None else Some(List(Texts(p.available)))
    else if key == "available_coin_total_balance" then NumberAs(p.totalBalance)
    else if key == "available_coin_count" then NumberAs(p.coinCount)
    else if key == "expiration_queue" then QueueAs(p.expirations)
    else if key == "next_reservation_id" then if p.lastReservation == 0 then None else NumberAs(Some(p.lastReservation))
    else if key == "initialized" then if p.initialized then Some(Text("1")) else None
    else if key == "init_lock" then NumberAs(p.initLock)
    else if key == "maintenance_lock" then NumberAs(p.maintenanceLock)
    else NumberAs(p.schemaVersion)
  }

  /** The keys a registry is kept under. */
  ghost function KeysOf(p: Registry): Keyspace
    requires Natural(p)
  {
    ReservationsAs(p.reservations) + map k | k in FIELDS && FieldOf(p, k).Some? :: FieldOf(p, k).value
  }

  lemma KeyOf(p: Registry, i: nat)
    requires Natural(p) && i < |FIELDS|
    ensures
      var k := FIELDS[i];
      && (k in KeysOf(p) <==> FieldOf(p, k).Some?) && (k in KeysOf(p) ==> KeysOf(p)[k] == FieldOf(p, k).value)
  {
    hide Print, JoinIds, FieldOf;
    FieldsAreNames(FIELDS[i]);
  }

  lemma FieldsAreNames(k: string)
    requires k in FIELDS
    ensures k != "" && !('0' <= k[0] <= '9') && forall id: nat {:trigger Print(id, 10)} :: Print(id, 10) != k
  {
    hide Print;
    var i :| 0 <= i < |FIELDS| && FIELDS[i] == k;
    assert forall j :: 0 <= j < |FIELDS| ==> FIELDS[j] != "" && !('0' <= FIELDS[j][0] <= '9');
    forall id: nat ensures Print(id, 10) != k {
      ReservationKeys(k, id);
      ReservationKeys(Print(id, 10), id);
      assert k[0] in k;
    }
  }

  lemma NumbersAreKept(p: Registry)
    requires Natural(p)
    ensures NumbersKept(KeysOf(p), p) && NumberKept(KeysOf(p), "schema_version", p.schemaVersion)
  {
    hide KeysOf, Print;
    KeyOf(p, 1);
    KeyOf(p, 2);
    KeyOf(p, 4);
    KeyOf(p, 6);
    KeyOf(p, 7);
    KeyOf(p, 8);
    assert "next_reservation_id"[0] == 'n' && "maintenance_lock"[0] == 'm';
  }

  lemma OthersAreKept(p: Registry)
    requires Natural(p)
    ensures ListKept(KeysOf(p), p.available) && QueueKept(KeysOf(p), p.expirations)
    ensures "initialized" in KeysOf(p) <==> p.initialized
  {
    hide KeysOf, Print, Texts;
    AllPrintedOnce();
    KeyOf(p, 0);
    KeyOf(p, 3);
    KeyOf(p, 5);
  }

  /** Every registry can be kept, so what follows is about all of them. */
  lemma KeysAreKept(p: Registry)
    requires Natural(p)
    ensures Kept(KeysOf(p), p)
  {
    hide KeysOf, NumbersKept, NumberKept, ListKept, QueueKept, ReservationsKept;
    NumbersAreKept(p);
    OthersAreKept(p);
    ReservationsAreKept(p);
  }

  /** Under every other key the reservations are all there is. */
  lemma OffFields(p: Registry, k: string)
    requires Natural(p) && k != "" && '0' <= k[0] <= '9'
    ensures SameUnder(KeysOf(p), ReservationsAs(p.reservations), k)
  {
    hide Print, JoinIds, FieldOf, ReservationsAs;
    if k in FIELDS {
      FieldsAreNames(k);
    }
  }

  lemma ReservationsAreKept(p: Registry)
    requires Natural(p)
    ensures ReservationsKept(KeysOf(p), p.reservations)
  {
    hide KeysOf, Print, JoinIds, FieldOf, SameUnder;
    ReservationsAlone(p.reservations);
    forall id: nat ensures SameUnder(ReservationsAs(p.reservations), KeysOf(p), Print(id, 10)) {
      ReservationKeys("", id);
      OffFields(p, Print(id, 10));
      Mirrored(KeysOf(p), ReservationsAs(p.reservations), Print(id, 10));
    }
    forall k | k in KeysOf(p) && k !in ReservationsAs(p.reservations)
      ensures k == "" || exists c :: c in k && !('0' <= c <= '9')
    {
      if k != "" && forall c :: c in k ==> '0' <= c <= '9' {
        assert k[0] in k;
        OffFields(p, k);
        SamePresence(KeysOf(p), ReservationsAs(p.reservations), k);
        assert false;
      }
    }
    SameReservations(ReservationsAs(p.reservations), KeysOf(p), p.reservations);
  }

  lemma Mirrored(a: Keyspace, b: Keyspace, k: string)
    requires SameUnder(a, b, k)
    ensures SameUnder(b, a, k)
  {
  }

  lemma ReservationsAlone(reservations: map<ReservationId, seq<ObjectId>>)
    ensures ReservationsKept(ReservationsAs(reservations), reservations)
  {
    hide Print, JoinIds;
    AllPrintedOnce();
  }

  // ---------------------------------------------------------------- migration

  lemma DigitKeys(k: string)
    requires k != "" && forall c :: c in k ==> '0' <= c <= '9'
    ensures Eligible(k) && k != "schema_version"
  {
    ReservationKeys(k, 0);
    assert k[0] in k && "schema_version"[0] == 's';
  }

  lemma PrintedKeys()
    ensures forall id: nat {:trigger Print(id, 10)} :: Eligible(Print(id, 10)) && Print(id, 10) != "schema_version"
  {
    forall id: nat ensures Eligible(Print(id, 10)) && Print(id, 10) != "schema_version" {
      ReservationKeys("", id);
      NotEligible();
    }
  }

  lemma SameNumber(a: Keyspace, b: Keyspace, key: string, n: Option<int>)
    requires NumberKept(a, key, n) && SameUnder(a, b, key)
    ensures NumberKept(b, key, n)
  {
  }

  lemma SameList(a: Keyspace, b: Keyspace, p: Registry)
    requires ListKept(a, p.available) && QueueKept(a, p.expirations)
    requires SameUnder(a, b, "available_gas_coins") && SameUnder(a, b, "expiration_queue")
    ensures ListKept(b, p.available) && QueueKept(b, p.expirations)
  {
    hide Texts, Print;
  }

  /** The keys of digits are enough for the reservations. */
  lemma SameReservations(a: Keyspace, b: Keyspace, reservations: map<ReservationId, seq<ObjectId>>)
    requires ReservationsKept(a, reservations)
    requires forall id: nat {:trigger Print(id, 10)} :: SameUnder(a, b, Print(id, 10))
    requires forall k :: k in b && k !in a ==> k == "" || exists c :: c in k && !('0' <= c <= '9')
    ensures ReservationsKept(b, reservations)
  {
    hide Print, JoinIds;
  }

  lemma NoNewDigits(a: Keyspace, b: Keyspace)
    requires forall k :: Eligible(k) ==> SameUnder(a, b, k)
    ensures forall k :: k in b && k !in a ==> k == "" || exists c :: c in k && !('0' <= c <= '9')
    ensures forall id: nat {:trigger Print(id, 10)} :: SameUnder(a, b, Print(id, 10))
  {
    hide Eligible, Print, SameUnder;
    PrintedKeys();
    forall k | k in b && k !in a ensures k == "" || exists c :: c in k && !('0' <= c <= '9') {
      if k != "" && forall c :: c in k ==> '0' <= c <= '9' {
        DigitKeys(k);
        SamePresence(a, b, k);
        assert false;
      }
    }
  }

  /** Two namespaces with the same eligible keys hold the same registry, but for the version. */
  lemma SameKept(a: Keyspace, b: Keyspace, p: Registry, version: Option<nat>)
    requires Kept(a, p) && NumberKept(b, "schema_version", version)
    requires forall k :: Eligible(k) ==> SameUnder(a, b, k)
    ensures Kept(b, p.(schemaVersion := version))
  {
    hide Eligible, Print, NumberKept, NumbersKept, ListKept, QueueKept, ReservationsKept, SameUnder;
    ListsAndMark(a, b, p);
    SameNumbers(a, b, p, version);
    NoNewDigits(a, b);
    SameReservations(a, b, p.reservations);
  }

  lemma ListsAndMark(a: Keyspace, b: Keyspace, p: Registry)
    requires ListKept(a, p.available) && QueueKept(a, p.expirations) && ("initialized" in a <==> p.initialized)
    requires forall k :: Eligible(k) ==> SameUnder(a, b, k)
    ensures ListKept(b, p.available) && QueueKept(b, p.expirations) && ("initialized" in b <==> p.initialized)
  {
    hide Eligible, ListKept, QueueKept, SameUnder;
    KnownNames();
    SameList(a, b, p);
    SamePresence(a, b, "initialized");
  }

  lemma SameNumbers(a: Keyspace, b: Keyspace, p: Registry, version: Option<nat>)
    requires NumbersKept(a, p) && forall k :: Eligible(k) ==> SameUnder(a, b, k)
    ensures NumbersKept(b, p.(schemaVersion := version))
  {
    hide Eligible, NumberKept, SameUnder;
    KnownNames();
    SameNumber(a, b, "available_coin_count", p.coinCount);
    SameNumber(a, b, "available_coin_total_balance", p.totalBalance);
    SameNumber(a, b, "next_reservation_id", if p.lastReservation == 0 then None else Some(p.lastReservation));
    SameNumber(a, b, "init_lock", p.initLock);
    SameNumber(a, b, "maintenance_lock", p.maintenanceLock);
  }

  lemma SamePresence(a: Keyspace, b: Keyspace, k: string)
    requires SameUnder(a, b, k)
    ensures k in a <==> k in b
  {
  }

  /** Into a namespace without registry keys, whatever registry the old one holds is carried over as it is. */
  lemma MigrationKeepsTheRegistry(from: Keyspace, to: Keyspace, p: Registry)
    requires Kept(from, p) && EligibleIn(to) == {}
    ensures Kept(Migrated(from, to).1, p.(schemaVersion := Some(1)))
  {
    hide Eligible, Kept, Print;
    NotEligible();
    NothingIsOverwritten(from, to);
    var moved := Migrated(from, to).1;
    forall k | Eligible(k) ensures SameUnder(from, moved, k) {
      assert k !in EligibleIn(to);
    }
    MarkedOne(from, to);
    SameKept(from, moved, p, Some(1));
  }

  /** Every registry there can be survives its migration. */
  lemma EveryRegistryMigrates(p: Registry, to: Keyspace)
    requires Natural(p) && EligibleIn(to) == {}
    ensures Kept(KeysOf(p), p) && Kept(Migrated(KeysOf(p), to).1, p.(schemaVersion := Some(1)))
  {
    hide Kept, Migrated, KeysOf;
    KeysAreKept(p);
    MigrationKeepsTheRegistry(KeysOf(p), to, p);
  }

  lemma MarkedOne(from: Keyspace, to: Keyspace)
    ensures NumberKept(Migrated(from, to).1, "schema_version", Some(1))
  {
    assert Print(1, 10) == "1";
  }

  // ---------------------------------------------------------------- clean-up

  /** Whatever registry a namespace holds, deleting all keys but the locks leaves the cleaned one. */
  lemma CleanUpIsKeyByKey(ks: Keyspace, p: Registry)
    requires Kept(ks, p)
    ensures Kept(LocksOf(ks), Pool.CleanUp(p))
  {
    hide NumberKept, ListKept, QueueKept, ReservationsKept;
    var left := LocksOf(ks);
    SameNumber(ks, left, "init_lock", p.initLock);
    SameNumber(ks, left, "maintenance_lock", p.maintenanceLock);
    NumberGone(left, "available_coin_count");
    NumberGone(left, "available_coin_total_balance");
    NumberGone(left, "next_reservation_id");
    NumberGone(left, "schema_version");
    RestGone(ks);
  }

  lemma NumberGone(ks: Keyspace, key: string)
    requires key !in ks
    ensures NumberKept(ks, key, None)
  {
  }

  lemma RestGone(ks: Keyspace)
    ensures ListKept(LocksOf(ks), []) && QueueKept(LocksOf(ks), map[]) && ReservationsKept(LocksOf(ks), map[])
  {
    hide Print, JoinIds, Texts;
    NoLockIsANumber();
  }

  lemma NoLockIsANumber()
    ensures forall id: nat {:trigger Print(id, 10)} :: !IsLock(Print(id, 10))
    ensures forall k :: k != "" && (forall c :: c in k ==> '0' <= c <= '9') ==> !IsLock(k)
  {
    assert "init_lock"[0] == 'i' && "maintenance_lock"[0] == 'm';
    forall k | k != "" && forall c :: c in k ==> '0' <= c <= '9' ensures !IsLock(k) {
      assert k[0] in k;
    }
    forall id: nat ensures !IsLock(Print(id, 10)) {
      assert Print(id, 10)[0] in Print(id, 10);
      assert 'i' !in DIGITS && 'm' !in DIGITS;
    }
  }
}
