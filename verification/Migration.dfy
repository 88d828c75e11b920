/** Moving a registry from the old key namespace to the new one. */
module Migration {
  import opened Coins
  import opened Numerals

  datatype Value = Text(text: string) | List(items: seq<string>) | Scores(scores: map<string, nat>)

  /** The keys of one namespace, by what follows the prefix. */
  type Keyspace = map<string, Value>

  const KNOWN: seq<string> := [
    "available_gas_coins", "available_coin_total_balance", "available_coin_count", "expiration_queue",
    "next_reservation_id", "initialized", "init_lock", "maintenance_lock"]

  const SCHEMA_VERSION: string := "schema_version"

  /** The SCAN pattern `[0-9]*`. */
  predicate MatchesPattern(suffix: string) {
    suffix != "" && '0' <= suffix[0] <= '9'
  }

  /** A reservation key: `tonumber` reads it. */
  predicate IsReservation(suffix: string) {
    MatchesPattern(suffix) && Read(suffix, 10).Some?
  }

  predicate Eligible(suffix: string) {
    suffix in KNOWN || IsReservation(suffix)
  }

  // ---------------------------------------------------------------- what the registry code reads in a namespace

  /** The fields of `RedisStorage`, as the scripts find them under these keys. */
  datatype RawRegistry = RawRegistry(
    availableGasCoins: seq<string>,
    coinCount: Option<nat>,
    totalBalance: Option<nat>,
    reservations: map<string, string>,
    expirationQueue: map<string, nat>,
    nextReservationId: Option<nat>,
    initialized: bool,
    schemaVersion: Option<nat>,
    initLock: Option<nat>,
    maintenanceLock: Option<nat>)

  function NumberAt(ks: Keyspace, suffix: string): Option<nat> {
    if suffix in ks && ks[suffix].Text? then Read(ks[suffix].text, 10) else None
  }

  function ListAt(ks: Keyspace, suffix: string): seq<string> {
    if suffix in ks && ks[suffix].List? then ks[suffix].items else []
  }

  function RegistryAt(ks: Keyspace): RawRegistry {
    RawRegistry(
      ListAt(ks, "available_gas_coins"),
      NumberAt(ks, "available_coin_count"),
      NumberAt(ks, "available_coin_total_balance"),
      map k | k in ks && IsReservation(k) && ks[k].Text? :: ks[k].text,
      if "expiration_queue" in ks && ks["expiration_queue"].Scores? then ks["expiration_queue"].scores else map[],
      NumberAt(ks, "next_reservation_id"),
      "initialized" in ks,
      NumberAt(ks, SCHEMA_VERSION),
      NumberAt(ks, "init_lock"),
      NumberAt(ks, "maintenance_lock"))
  }

  // ---------------------------------------------------------------- moving keys

  /** The keys among `ks` that a migration renames: present, and not taken at the destination. */
  function Movable(from: Keyspace, to: Keyspace, ks: set<string>): set<string> {
    set k | k in ks && k in from && k !in to
  }

  function MoveOut(from: Keyspace, to: Keyspace, ks: set<string>): Keyspace {
    from - Movable(from, to, ks)
  }

  function MoveIn(from: Keyspace, to: Keyspace, ks: set<string>): Keyspace {
    to + map k | k in Movable(from, to, ks) :: from[k]
  }

  function EligibleIn(ks: Keyspace): set<string> {
    set k | k in ks && Eligible(k)
  }

  function ReservationsIn(ks: Keyspace): set<string> {
    set k | k in ks && IsReservation(k)
  }

  /** One rename, or none, extends the set of keys dealt with. */
  lemma MoveOne(from: Keyspace, to: Keyspace, ks: set<string>, k: string)
    requires k in from
    ensures
      var (o, n) := (MoveOut(from, to, ks), MoveIn(from, to, ks));
      if k in n then
        && MoveOut(from, to, ks + {k}) == o && MoveIn(from, to, ks + {k}) == n
        && Movable(from, to, ks + {k}) == Movable(from, to, ks)
      else
        && k in o && MoveOut(from, to, ks + {k}) == o - {k} && MoveIn(from, to, ks + {k}) == n[k := o[k]]
        && Movable(from, to, ks + {k}) == Movable(from, to, ks) + {k} && k !in Movable(from, to, ks)
  {
    var (o, n) := (MoveOut(from, to, ks), MoveIn(from, to, ks));
    if k in n {
      assert Movable(from, to, ks + {k}) == Movable(from, to, ks);
    } else {
      assert Movable(from, to, ks + {k}) == Movable(from, to, ks) + {k};
    }
  }

  lemma MoveNone(from: Keyspace, to: Keyspace)
    ensures MoveOut(from, to, {}) == from && MoveIn(from, to, {}) == to && Movable(from, to, {}) == {}
  {
    assert Movable(from, to, {}) == {};
  }

  /** The whole script: eligible keys moved unless taken, and the destination marked. */
  function Migrated(from: Keyspace, to: Keyspace): (Keyspace, Keyspace) {
    (MoveOut(from, to, EligibleIn(from)), MoveIn(from, to, EligibleIn(from))[SCHEMA_VERSION := Text("1")])
  }

  datatype SchemaVersion = NotInitialized | OldFormat | Version(v: int)

  /** `get_schema_version.lua`, and the match on its code; `None` is a reply that is not a number. */
  function GetSchemaVersion(from: Keyspace, to: Keyspace): Option<SchemaVersion> {
    if SCHEMA_VERSION in to then
      match NumberAt(to, SCHEMA_VERSION)
      case None => None
      case Some(v) => if v == 0 then Some(OldFormat) else Some(Version(v))
    else if "initialized" in from then Some(OldFormat)
    else if 0 < |ListAt(from, "available_gas_coins")| then Some(OldFormat)
    else Some(NotInitialized)
  }

  /** The two namespaces after `maybe_migrate`. */
  function Started(from: Keyspace, to: Keyspace): (Keyspace, Keyspace) {
    if GetSchemaVersion(from, to) == Some(OldFormat) then Migrated(from, to) else (from, to)
  }

  /** How many reservation keys a scan came upon, counting repetitions. */
  function Hits(keys: seq<string>): nat {
    if keys == [] then 0 else Hits(keys[..|keys| - 1]) + if IsReservation(keys[|keys| - 1]) then 1 else 0
  }

  function HitsOf(batches: seq<seq<string>>): nat {
    if batches == [] then 0 else HitsOf(batches[..|batches| - 1]) + Hits(batches[|batches| - 1])
  }

  /** What SCAN promises: every matching key that is there comes up, perhaps more than once, and no other. */
  ghost predicate IsScan(from: Keyspace, batches: seq<seq<string>>) {
    && (forall b, k :: b in batches && k in b ==> k in from && MatchesPattern(k))
    && (forall k :: k in from && MatchesPattern(k) ==> exists b :: b in batches && k in b)
  }

  function ReservationsOf(keys: seq<string>): set<string> {
    set k | k in keys && IsReservation(k)
  }

  function ScannedIn(batches: seq<seq<string>>): set<string> {
    set b, k | b in batches && k in b && IsReservation(k) :: k
  }

  function PresentIn(ks: Keyspace, suffixes: seq<string>): set<string> {
    set k | k in suffixes && k in ks
  }

  class Namespaces {
    var source: Keyspace       // {wallet_address}:*
    var target: Keyspace       // {network}:{wallet_address}:registry:*

    constructor (from: Keyspace, to: Keyspace)
      ensures source == from && target == to
    {
      source, target := from, to;
    }

    /** RENAME if the destination is free. `done` are the keys dealt with so far. */
    method RenameIfFree(k: string, ghost from: Keyspace, ghost to: Keyspace, ghost done: set<string>)
      returns (renamed: bool)
      requires k in from && source == MoveOut(from, to, done) && target == MoveIn(from, to, done)
      modifies this
      ensures source == MoveOut(from, to, done + {k}) && target == MoveIn(from, to, done + {k})
      ensures |Movable(from, to, done + {k})| == |Movable(from, to, done)| + if renamed then 1 else 0
    {
      MoveOne(from, to, done, k);
      if k in target {
        return false;
      }
      target := target[k := source[k]];
      source := source - {k};
      renamed := true;
    }

    /** The loop over the known suffixes. */
    method MigrateKnown() returns (migrated: nat, skipped: nat)
      modifies this
      ensures
        var known := PresentIn(old(source), KNOWN);
        && source == MoveOut(old(source), old(target), known) && target == MoveIn(old(source), old(target), known)
        && migrated == |Movable(old(source), old(target), known)|
        && migrated + skipped == |known|
    {
      hide MoveOut, MoveIn, Movable, PresentIn;
      ghost var from, to := source, target;
      migrated, skipped := 0, 0;
      MoveNone(from, to);
      NonePresent(from);
      for i := 0 to |KNOWN|
        invariant source == MoveOut(from, to, PresentIn(from, KNOWN[..i]))
        invariant target == MoveIn(from, to, PresentIn(from, KNOWN[..i]))
        invariant migrated == |Movable(from, to, PresentIn(from, KNOWN[..i]))|
        invariant migrated + skipped == |PresentIn(from, KNOWN[..i])|
      {
        NextPresent(from, to, i);
        if KNOWN[i] in source {
          var renamed := RenameIfFree(KNOWN[i], from, to, PresentIn(from, KNOWN[..i]));
          if renamed {
            migrated := migrated + 1;
          } else {
            skipped := skipped + 1;
          }
        }
      }
      assert KNOWN[..|KNOWN|] == KNOWN;
    }

    /** One reply of the scan. */
    method MigrateBatch(keys: seq<string>, ghost from: Keyspace, ghost to: Keyspace, ghost done: set<string>)
      returns (migrated: nat, skipped: nat)
      requires source == MoveOut(from, to, done) && target == MoveIn(from, to, done)
      requires forall k :: k in keys ==> k in from
      modifies this
      ensures
        var all := done + ReservationsOf(keys);
        && source == MoveOut(from, to, all) && target == MoveIn(from, to, all)
        && migrated + |Movable(from, to, done)| == |Movable(from, to, all)|
        && migrated + skipped == Hits(keys)
    {
      hide MoveOut, MoveIn, Movable, IsReservation;
      migrated, skipped := 0, 0;
      assert done + ReservationsOf(keys[..0]) == done;
      for j := 0 to |keys|
        invariant source == MoveOut(from, to, done + ReservationsOf(keys[..j]))
        invariant target == MoveIn(from, to, done + ReservationsOf(keys[..j]))
        invariant migrated + |Movable(from, to, done)| == |Movable(from, to, done + ReservationsOf(keys[..j]))|
        invariant migrated + skipped == Hits(keys[..j])
      {
        NextReservation(keys, j, done);
        if IsReservation(keys[j]) {
          var renamed := RenameIfFree(keys[j], from, to, done + ReservationsOf(keys[..j]));
          if renamed {
            migrated := migrated + 1;
          } else {
            skipped := skipped + 1;
          }
        }
      }
      assert keys[..|keys|] == keys;
    }

    /** The scan loop over reservation keys. */
    method MigrateReservations(batches: seq<seq<string>>, ghost from: Keyspace, ghost to: Keyspace,
        ghost known: set<string>)
      returns (migrated: nat, skipped: nat)
      requires source == MoveOut(from, to, known) && target == MoveIn(from, to, known)
      requires IsScan(from, batches)
      modifies this
      ensures
        var all := known + ReservationsIn(from);
        && source == MoveOut(from, to, all) && target == MoveIn(from, to, all)
        && migrated + |Movable(from, to, known)| == |Movable(from, to, all)|
        && migrated + skipped == HitsOf(batches)
    {
      hide MoveOut, MoveIn, Movable, IsReservation, Hits;
      migrated, skipped := 0, 0;
      assert known + ScannedIn(batches[..0]) == known;
      for i := 0 to |batches|
        invariant source == MoveOut(from, to, known + ScannedIn(batches[..i]))
        invariant target == MoveIn(from, to, known + ScannedIn(batches[..i]))
        invariant migrated + |Movable(from, to, known)| == |Movable(from, to, known + ScannedIn(batches[..i]))|
        invariant migrated + skipped == HitsOf(batches[..i])
      {
        assert batches[i] in batches;
        NextBatch(batches, i, known);
        var m, s := MigrateBatch(batches[i], from, to, known + ScannedIn(batches[..i]));
        migrated, skipped := migrated + m, skipped + s;
      }
      assert batches[..|batches|] == batches;
      AllScanned(from, batches);
    }

    /** `migrate_keys.lua`; the errors it counts are always 0. */
    method MigrateKeys(batches: seq<seq<string>>) returns (migrated: nat, skipped: nat)
      requires IsScan(source, batches)
      modifies this
      ensures (source, target) == Migrated(old(source), old(target))
      ensures migrated == |Movable(old(source), old(target), EligibleIn(old(source)))|
      ensures migrated + skipped == |PresentIn(old(source), KNOWN)| + HitsOf(batches)
      ensures forall n: nat {:trigger Print(n, 10)} :: Print(n, 10) in old(source) && Print(n, 10) !in old(target) ==>
        Print(n, 10) !in source && Print(n, 10) in target && target[Print(n, 10)] == old(source)[Print(n, 10)]
    {
      hide MoveOut, MoveIn, Movable, IsReservation, HitsOf, IsScan;
      ghost var from, to := source, target;
      migrated, skipped := MigrateKnown();
      var m, s := MigrateReservations(batches, from, to, PresentIn(from, KNOWN));
      migrated, skipped := migrated + m, skipped + s;
      assert PresentIn(from, KNOWN) + ReservationsIn(from) == EligibleIn(from);
      target := target[SCHEMA_VERSION := Text("1")];
      forall n: nat | Print(n, 10) in from && Print(n, 10) !in to
        ensures Print(n, 10) !in source && Print(n, 10) in target && target[Print(n, 10)] == from[Print(n, 10)]
      {
        ReservationsMove(from, to, n);
      }
    }

    /** `maybe_migrate`. */
    method MaybeMigrate(batches: seq<seq<string>>) returns (result: Option<(nat, nat)>)
      requires IsScan(source, batches)
      modifies this
      ensures result.Some? <==> GetSchemaVersion(old(source), old(target)) == Some(OldFormat)
      ensures (source, target) == Started(old(source), old(target))
    {
      result := None;
      var version := GetSchemaVersion(source, target);
      if version == Some(OldFormat) {
        var migrated, skipped := MigrateKeys(batches);
        result := Some((migrated, skipped));
      }
    }
  }

  lemma NonePresent(from: Keyspace)
    ensures PresentIn(from, KNOWN[..0]) == {}
  {
  }

  lemma NextPresent(from: Keyspace, to: Keyspace, i: nat)
    requires i < |KNOWN|
    ensures
      var before := PresentIn(from, KNOWN[..i]);
      && PresentIn(from, KNOWN[..i + 1]) == before + (if KNOWN[i] in from then {KNOWN[i]} else {})
      && (KNOWN[i] in MoveOut(from, to, before) <==> KNOWN[i] in from) && KNOWN[i] !in before
  {
    assert forall j :: 0 <= j < i ==> KNOWN[j] != KNOWN[i];
  }

  lemma NextReservation(keys: seq<string>, j: nat, done: set<string>)
    requires j < |keys|
    ensures done + ReservationsOf(keys[..j + 1]) ==
      if IsReservation(keys[j]) then done + ReservationsOf(keys[..j]) + {keys[j]} else done + ReservationsOf(keys[..j])
    ensures Hits(keys[..j + 1]) == Hits(keys[..j]) + if IsReservation(keys[j]) then 1 else 0
  {
    hide IsReservation;
    assert keys[..j + 1] == keys[..j] + [keys[j]];
    assert keys[..j + 1][..j] == keys[..j];
  }

  lemma NextBatch(batches: seq<seq<string>>, i: nat, done: set<string>)
    requires i < |batches|
    ensures done + ScannedIn(batches[..i + 1]) == done + ScannedIn(batches[..i]) + ReservationsOf(batches[i])
    ensures HitsOf(batches[..i + 1]) == HitsOf(batches[..i]) + Hits(batches[i])
  {
    hide IsReservation, Hits;
    assert batches[..i + 1] == batches[..i] + [batches[i]];
    assert batches[..i + 1][..i] == batches[..i];
  }

  lemma AllScanned(from: Keyspace, batches: seq<seq<string>>)
    requires IsScan(from, batches)
    ensures ScannedIn(batches) == ReservationsIn(from)
  {
  }

  // ---------------------------------------------------------------- what a migration keeps

  /**
   * Into a namespace without registry keys, a migration carries the registry over as it is: list and its
   * order, statistics, reservations, queue, next id, flag and locks. Nothing of it stays behind.
   */
  lemma RegistryIsPreserved(from: Keyspace, to: Keyspace)
    requires EligibleIn(to) == {}
    ensures RegistryAt(Migrated(from, to).1) == RegistryAt(from).(schemaVersion := Some(1))
    ensures EligibleIn(Migrated(from, to).0) == {}
  {
    hide Eligible, Migrated, RegistryAt, Read;
    var (left, moved) := Migrated(from, to);
    NotEligible();
    NothingIsOverwritten(from, to);
    forall k | Eligible(k) ensures (k in moved <==> k in from) && (k in from ==> moved[k] == from[k]) {
      assert k !in EligibleIn(to);
    }
    SameRegistry(from, moved);
    MigratedVersion(from, to);
    assert EligibleIn(left) == {};
  }

  lemma MigratedVersion(from: Keyspace, to: Keyspace)
    ensures NumberAt(Migrated(from, to).1, SCHEMA_VERSION) == Some(1)
  {
    OneReads();
  }

  /** A reservation key is what the reserve script makes of an id, or any other text of decimal digits. */
  lemma ReservationKeys(k: string, n: nat)
    ensures IsReservation(k) <==> k != "" && forall c :: c in k ==> '0' <= c <= '9'
    ensures IsReservation(Print(n, 10))
  {
    hide Print;
    ReadsDigits(0, k);
    ReadsDigits(0, Print(n, 10));
    PrintsDigits(n);
    var p := Print(n, 10);
    assert p[0] in p;
    if k != "" {
      assert k[0] in k;
    }
  }

  lemma {:induction false} ReadsDigits(acc: nat, s: string)
    ensures ReadOn(acc, s, 10).Some? <==> forall c :: c in s ==> '0' <= c <= '9'
    decreases |s|
  {
    if s != "" {
      assert s == [s[0]] + s[1..];
      assert forall c :: c in s <==> c == s[0] || c in s[1..];
      var d := DigitValue(s[0]);
      if 0 <= d < 10 {
        ReadsDigits(acc * 10 + d, s[1..]);
        assert '0' <= s[0] <= '9';
      } else {
        assert s[0] in s && !('0' <= s[0] <= '9');
      }
    }
  }

  lemma {:induction false} PrintsDigits(n: nat)
    ensures forall c :: c in Print(n, 10) ==> '0' <= c <= '9'
    decreases n
  {
    DivMod(n, 10);
    if 10 <= n {
      PrintsDigits(n / 10);
    }
  }

  /**
   * The key of every reservation id is moved with its value, unless it is taken at the destination, and what is
   * under it is read as a reservation.
   */
  lemma ReservationsMove(from: Keyspace, to: Keyspace, n: nat)
    requires Print(n, 10) in from && Print(n, 10) !in to
    ensures
      var (left, moved) := Migrated(from, to);
      var k := Print(n, 10);
      && k !in left && k in moved && moved[k] == from[k]
      && (from[k].Text? ==>
          && k in RegistryAt(from).reservations && k in RegistryAt(moved).reservations
          && RegistryAt(from).reservations[k] == RegistryAt(moved).reservations[k] == from[k].text)
  {
    hide IsReservation, Print;
    ReservationKeys(Print(n, 10), n);
    NotEligible();
    ReservationsEligible();
    NothingIsOverwritten(from, to);
  }

  /** A marked target is never migrated into, and one marked with 0 always. */
  lemma MarkDecides(from: Keyspace, to: Keyspace, version: nat)
    requires "schema_version" in to && to["schema_version"] == Text(Print(version, 10))
    ensures Started(from, to) == if version == 0 then Migrated(from, to) else (from, to)
  {
    hide Print, Migrated;
    ReadPrint(version, 10);
  }

  /** The registry is what its eligible keys say. */
  lemma SameRegistry(a: Keyspace, b: Keyspace)
    requires forall k :: Eligible(k) ==> (k in a <==> k in b) && (k in a ==> b[k] == a[k])
    ensures RegistryAt(b) == RegistryAt(a).(schemaVersion := NumberAt(b, SCHEMA_VERSION))
  {
    hide Eligible, Read;
    KnownNames();
    ReservationsEligible();
    assert RegistryAt(b).reservations == RegistryAt(a).reservations;
  }

  lemma ReservationsEligible()
    ensures forall k :: IsReservation(k) ==> Eligible(k)
  {
  }

  lemma KnownNames()
    ensures
      && Eligible("available_gas_coins") && Eligible("available_coin_total_balance") && Eligible("available_coin_count")
      && Eligible("expiration_queue") && Eligible("next_reservation_id") && Eligible("initialized")
      && Eligible("init_lock") && Eligible("maintenance_lock")
  {
    var k := KNOWN;
    assert k[0] in k && k[1] in k && k[2] in k && k[3] in k && k[4] in k && k[5] in k && k[6] in k && k[7] in k;
  }

  lemma NotEligible()
    ensures !Eligible(SCHEMA_VERSION)
  {
    var k := KNOWN;
    assert forall i :: 0 <= i < |k| ==> |k[i]| != |SCHEMA_VERSION| || k[i][0] != SCHEMA_VERSION[0];
  }

  lemma OneReads()
    ensures Read("1", 10) == Some(1)
  {
    assert "1"[1..] == "";
    assert ReadOn(1, "", 10) == Some(1);
  }

  /** No key of the target changes but the version, and no value of either namespace is lost. */
  lemma NothingIsOverwritten(from: Keyspace, to: Keyspace)
    ensures
      var (left, moved) := Migrated(from, to);
      && (forall k :: k in to && k != SCHEMA_VERSION ==> k in moved && moved[k] == to[k])
      && (forall k :: k in moved && k !in to && k != SCHEMA_VERSION ==> k in from && moved[k] == from[k] && k !in left)
      && (forall k :: k in from ==> (k in left <==> !Eligible(k) || k in to))
      && (forall k :: k in left ==> k in from && left[k] == from[k])
      && (forall k :: k in from && k !in left ==> k in moved && moved[k] == from[k])
  {
    NotEligible();
  }

  /** Once migrated, the version check sends every later start away, and a second script run would move nothing. */
  lemma SecondRunDoesNothing(from: Keyspace, to: Keyspace)
    ensures
      var (left, moved) := Migrated(from, to);
      && GetSchemaVersion(left, moved) == Some(Version(1))
      && Migrated(left, moved) == (left, moved)
  {
    OneReads();
    NotEligible();
    var (left, moved) := Migrated(from, to);
    assert Movable(left, moved, EligibleIn(left)) == {};
    assert MoveOut(left, moved, EligibleIn(left)) == left && MoveIn(left, moved, EligibleIn(left)) == moved;
    assert moved[SCHEMA_VERSION := Text("1")] == moved;
  }

  /**
   * What the first start on an unmarked, empty namespace makes of an old registry: it is carried over if
   * and only if it was marked initialized or lists coins, or has nothing to carry. One that only has
   * reservations left stays behind.
   */
  lemma FirstStartCarriesOver(from: Keyspace, to: Keyspace)
    requires EligibleIn(to) == {} && SCHEMA_VERSION !in to
    ensures
      var before, now := RegistryAt(from).(schemaVersion := None),
        RegistryAt(Started(from, to).1).(schemaVersion := None);
      now == before <==> before.initialized || before.availableGasCoins != [] || before == NOTHING
  {
    hide Migrated, Eligible, Read;
    EmptyRegistry(to);
    if GetSchemaVersion(from, to) == Some(OldFormat) {
      RegistryIsPreserved(from, to);
    }
  }

  const LENT_OUT: Keyspace := map["7" := Text("0xa1"), "expiration_queue" := Scores(map["7" := 90]),
    "next_reservation_id" := Text("7")]

  /** A live reservation in a namespace that lists no coin and was never marked: a first start leaves it behind. */
  lemma ReservationStaysBehind()
    ensures RegistryAt(LENT_OUT).reservations == map["7" := "0xa1"] && !RegistryAt(LENT_OUT).initialized
    ensures Started(LENT_OUT, map[]) == (LENT_OUT, map[])
    ensures RegistryAt(Started(LENT_OUT, map[]).1).reservations == map[]
  {
    assert Read("7", 10) == Some(7);
    assert !IsReservation("expiration_queue") && !IsReservation("next_reservation_id");
    assert RegistryAt(map[]).reservations == map[];
  }

  const NOTHING: RawRegistry := RawRegistry([], None, None, map[], map[], None, false, None, None, None)

  lemma EmptyRegistry(ks: Keyspace)
    requires EligibleIn(ks) == {}
    ensures RegistryAt(ks).(schemaVersion := None) == NOTHING
  {
    hide Read, Eligible;
    forall k | Eligible(k) ensures k !in ks {
      assert k !in EligibleIn(ks);
    }
    KnownNames();
    ReservationsEligible();
    assert RegistryAt(ks).reservations == map[];
  }

  // ---------------------------------------------------------------- the counts

  predicate NoneTwice(keys: seq<string>) {
    forall i, j :: 0 <= i < j < |keys| ==> keys[i] != keys[j]
  }

  function Flat(batches: seq<seq<string>>): seq<string> {
    if batches == [] then [] else Flat(batches[..|batches| - 1]) + batches[|batches| - 1]
  }

  lemma {:induction false} HitsConcat(a: seq<string>, b: seq<string>)
    ensures Hits(a + b) == Hits(a) + Hits(b)
    decreases |b|
  {
    hide IsReservation;
    if b == [] {
      assert a + b == a;
    } else {
      assert (a + b)[..|a + b| - 1] == a + b[..|b| - 1];
      HitsConcat(a, b[..|b| - 1]);
    }
  }

  lemma {:induction false} HitsFlat(batches: seq<seq<string>>)
    ensures HitsOf(batches) == Hits(Flat(batches)) && ScannedIn(batches) == ReservationsOf(Flat(batches))
  {
    hide IsReservation;
    if batches != [] {
      var n := |batches| - 1;
      HitsFlat(batches[..n]);
      HitsConcat(Flat(batches[..n]), batches[n]);
      NextBatch(batches, n, {});
      assert batches[..n + 1] == batches;
      assert ReservationsOf(Flat(batches)) == ReservationsOf(Flat(batches[..n])) + ReservationsOf(batches[n]);
    }
  }

  lemma {:induction false} HitsCount(keys: seq<string>)
    ensures |ReservationsOf(keys)| <= Hits(keys)
    ensures NoneTwice(keys) ==> |ReservationsOf(keys)| == Hits(keys)
  {
    hide IsReservation;
    if keys != [] {
      var n := |keys| - 1;
      HitsCount(keys[..n]);
      assert keys == keys[..n] + [keys[n]];
      assert ReservationsOf(keys) == ReservationsOf(keys[..n]) + if IsReservation(keys[n]) then {keys[n]} else {};
    }
  }

  /** Migrated and skipped together account for every eligible key, with repetitions of the scan on top. */
  lemma CountsCover(from: Keyspace, batches: seq<seq<string>>)
    requires IsScan(from, batches)
    ensures |EligibleIn(from)| <= |PresentIn(from, KNOWN)| + HitsOf(batches)
    ensures NoneTwice(Flat(batches)) ==> |EligibleIn(from)| == |PresentIn(from, KNOWN)| + HitsOf(batches)
  {
    hide IsReservation, IsScan;
    AllScanned(from, batches);
    HitsFlat(batches);
    HitsCount(Flat(batches));
    KnownAreNotNumbers(from);
    assert EligibleIn(from) == PresentIn(from, KNOWN) + ReservationsIn(from);
  }

  lemma KnownAreNotNumbers(from: Keyspace)
    ensures PresentIn(from, KNOWN) !! ReservationsIn(from)
  {
    assert forall i :: 0 <= i < |KNOWN| ==> !MatchesPattern(KNOWN[i]);
  }
}
