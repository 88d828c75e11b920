/** The text form of coins and id lists in Redis, and the two parsers that read it back. */
module CoinCodec {
  import opened Coins
  import opened Numerals

  const COMMA: char := ','

  /** Rust's `str::split(',')`: always at least one part. */
  function SplitCommas(s: string): (parts: seq<string>)
    ensures parts != []
  {
    if s == "" then [""]
    else
      var rest := SplitCommas(s[1..]);
      if s[0] == COMMA then [""] + rest else [[s[0]] + rest[0]] + rest[1..]
  }

  /** Lua's `table.concat(parts, ',')`. */
  function JoinCommas(parts: seq<string>): string {
    if parts == [] then ""
    else if |parts| == 1 then parts[0]
    else parts[0] + [COMMA] + JoinCommas(parts[1..])
  }

  /** Lua's `string.find(s, ',', init)` for `1 <= init`: the 1-based index of the match. */
  function LuaFind(s: string, init: nat): (r: Option<nat>)
    requires 1 <= init
    ensures r.Some? ==> init <= r.value <= |s|
    decreases |s| + 1 - init
  {
    if |s| < init then None
    else if s[init - 1] == COMMA then Some(init)
    else LuaFind(s, init + 1)
  }

  /** Lua's `string.sub(s, i, j)` for positive `i`. */
  function LuaSub(s: string, i: nat, j: int): string
    requires 1 <= i
  {
    var end := if j <= |s| then j else |s|;
    if end < i then "" else s[i - 1..end]
  }

  function Zeros(n: nat): (z: string)
    ensures |z| == n && forall c :: c in z ==> c == '0'
  {
    seq(n, _ => '0')
  }

  const ID_DIGITS: nat := 64

  /** `ObjectID`'s `Display`: `0x` and the zero-padded hexadecimal digits. */
  function IdText(id: ObjectId): (s: string)
    ensures COMMA !in s
  {
    var digits := Print(id, 16);
    PrintHasNoComma(id, 16);
    "0x" + (if |digits| < ID_DIGITS then Zeros(ID_DIGITS - |digits|) else "") + digits
  }

  /** `ObjectID::from_str` on that form. */
  function IdOf(s: string): Option<ObjectId> {
    if |s| < 2 || s[..2] != "0x" then None else Read(s[2..], 16)
  }

  /** The format string of `add_new_coins`. */
  function Format(c: GasCoin): string {
    JoinCommas([Print(c.balance, 10), IdText(c.id), Print(c.version, 10), c.digest])
  }

  /** The closure of `reserve_gas_coins`; `None` is its panic. */
  function RustParse(s: string): Option<GasCoin> {
    var parts := SplitCommas(s);
    if |parts| < 4 || COMMA in parts[3] then None else
    match (ParseU64(parts[0]), IdOf(parts[1]), ParseU64(parts[2]))
    case (Some(balance), Some(id), Some(version)) => Some(GasCoin(balance, id, version, parts[3]))
    case _ => None
  }

  /** The Lua scripts read the balance up to the first comma. */
  function LuaBalance(s: string): Option<nat> {
    match LuaFind(s, 1)
    case Some(idx1) => Read(LuaSub(s, 1, idx1 - 1), 10)
    case None => None
  }

  /** ... and the object id up to the second. */
  function LuaObjectId(s: string): Option<string> {
    match LuaFind(s, 1)
    case Some(idx1) =>
      (match LuaFind(s, idx1 + 1)
       case Some(idx2) => Some(LuaSub(s, idx1 + 1, idx2 - 1))
       case None => None)
    case None => None
  }

  function IdTexts(ids: seq<ObjectId>): (texts: seq<string>)
    ensures |texts| == |ids| && forall i :: 0 <= i < |ids| ==> texts[i] == IdText(ids[i])
  {
    seq(|ids|, i requires 0 <= i < |ids| => IdText(ids[i]))
  }

  /** The value of a reservation key. */
  function JoinIds(ids: seq<ObjectId>): string {
    JoinCommas(IdTexts(ids))
  }

  function IdsOfTexts(texts: seq<string>): Option<seq<ObjectId>> {
    if texts == [] then Some([]) else
    match (IdOf(texts[0]), IdsOfTexts(texts[1..]))
    case (Some(id), Some(ids)) => Some([id] + ids)
    case _ => None
  }

  /** The closure of `expire_coins`; `None` is its panic. */
  function SplitIds(s: string): Option<seq<ObjectId>> {
    IdsOfTexts(SplitCommas(s))
  }

  predicate FitsU64(c: GasCoin) {
    c.balance < U64_LIMIT && c.version < U64_LIMIT
  }

  // ---------------------------------------------------------------- splitting what was joined

  lemma {:induction false} SplitOne(a: string)
    requires COMMA !in a
    ensures SplitCommas(a) == [a]
  {
    if a != "" {
      SplitOne(a[1..]);
      assert [a[0]] + a[1..] == a;
    }
  }

  lemma {:induction false} SplitFirst(a: string, rest: string)
    requires COMMA !in a
    ensures SplitCommas(a + [COMMA] + rest) == [a] + SplitCommas(rest)
  {
    var s := a + [COMMA] + rest;
    if a == "" {
      assert s[1..] == rest;
    } else {
      assert s[1..] == a[1..] + [COMMA] + rest;
      SplitFirst(a[1..], rest);
      assert [a[0]] + a[1..] == a;
    }
  }

  /** Splitting undoes joining for every list of comma-free parts except the empty list. */
  lemma {:induction false} SplitJoin(parts: seq<string>)
    requires forall p :: p in parts ==> COMMA !in p
    ensures SplitCommas(JoinCommas(parts)) == parts <==> parts != []
  {
    if |parts| == 1 {
      SplitOne(parts[0]);
    } else if parts != [] {
      SplitJoin(parts[1..]);
      SplitFirst(parts[0], JoinCommas(parts[1..]));
    }
  }

  lemma {:induction false} ReadOnZeros(n: nat, s: string)
    ensures ReadOn(0, Zeros(n) + s, 16) == ReadOn(0, s, 16)
  {
    if n == 0 {
      assert Zeros(n) + s == s;
    } else {
      var z := Zeros(n) + s;
      assert z[0] in Zeros(n) && z[0] == '0';
      assert z[1..] == Zeros(n - 1) + s;
      ReadOnZeros(n - 1, s);
    }
  }

  lemma IdRoundTrip(id: ObjectId)
    ensures IdOf(IdText(id)) == Some(id)
  {
    var digits := Print(id, 16);
    var padded := (if |digits| < ID_DIGITS then Zeros(ID_DIGITS - |digits|) else "") + digits;
    assert IdText(id) == "0x" + padded;
    assert IdText(id)[..2] == "0x" && IdText(id)[2..] == padded;
    ReadPrint(id, 16);
    if |digits| < ID_DIGITS {
      ReadOnZeros(ID_DIGITS - |digits|, digits);
    } else {
      assert "" + digits == digits;
    }
  }

  function Pow16(k: nat): nat {
    if k == 0 then 1 else 16 * Pow16(k - 1)
  }

  lemma {:induction false} PrintWidth(n: nat, k: nat)
    requires n < Pow16(k) && 1 <= k
    ensures |Print(n, 16)| <= k
    decreases k
  {
    DivMod(n, 16);
    if 16 <= n {
      PrintWidth(n / 16, k - 1);
    }
  }

  /** The text of an id of 32 bytes: 0x and 64 digits, whatever the id. */
  lemma IdTextIsFixed(id: ObjectId)
    requires id < Pow16(64)
    ensures |IdText(id)| == 66 && IdText(id)[..2] == "0x"
    ensures forall c :: c in IdText(id)[2..] ==> c in "0123456789abcdef"
  {
    hide Print, Pow16;
    PrintWidth(id, 64);
    var digits := Print(id, 16);
    var zeros := if |digits| < ID_DIGITS then Zeros(ID_DIGITS - |digits|) else "";
    assert IdText(id)[2..] == zeros + digits;
    assert DIGITS[0] == '0' && DIGITS[0] in DIGITS;
  }

  /** A coin's text: balance, id, version and digest, in this order. */
  lemma CoinIsWritten(c: GasCoin)
    ensures Format(c) == Print(c.balance, 10) + "," + IdText(c.id) + "," + Print(c.version, 10) + "," + c.digest
  {
    hide Print, IdText;
    var b, i, v, d := Print(c.balance, 10), IdText(c.id), Print(c.version, 10), c.digest;
    assert JoinCommas([d]) == d;
    assert [v, d][1..] == [d] && JoinCommas([v, d]) == v + [COMMA] + d;
    assert [i, v, d][1..] == [v, d] && JoinCommas([i, v, d]) == i + [COMMA] + (v + [COMMA] + d);
    assert [b, i, v, d][1..] == [i, v, d];
    assert JoinCommas([b, i, v, d]) == b + [COMMA] + (i + [COMMA] + (v + [COMMA] + d));
  }

  /** The Rust parser recovers exactly the coin that was formatted. */
  lemma RustRoundTrip(c: GasCoin)
    requires FitsU64(c)
    ensures RustParse(Format(c)) == Some(c)
  {
    var parts := [Print(c.balance, 10), IdText(c.id), Print(c.version, 10), c.digest];
    PrintHasNoComma(c.balance, 10);
    PrintHasNoComma(c.version, 10);
    SplitJoin(parts);
    ParsePrintU64(c.balance);
    ParsePrintU64(c.version);
    IdRoundTrip(c.id);
  }

  lemma {:induction false} LuaFindFirst(s: string, init: nat, k: nat)
    requires 1 <= init <= k <= |s| && s[k - 1] == COMMA
    requires COMMA !in s[init - 1..k - 1]
    ensures LuaFind(s, init) == Some(k)
    decreases k - init
  {
    if init < k {
      assert s[init - 1] in s[init - 1..k - 1];
      assert s[init..k - 1] == s[init - 1..k - 1][1..];
      LuaFindFirst(s, init + 1, k);
    }
  }

  /** Reading one comma-terminated field that starts at index `init`. */
  lemma FieldAt(s: string, init: nat, field: string, tail: string)
    requires 1 <= init <= |s| + 1 && COMMA !in field && s[init - 1..] == field + [COMMA] + tail
    ensures LuaFind(s, init) == Some(init + |field|)
    ensures LuaSub(s, init, init + |field| - 1) == field
    ensures init + |field| <= |s| && s[init + |field|..] == tail
  {
    var rest, k := s[init - 1..], |field|;
    assert rest[..k] == field && rest[k] == COMMA && rest[k + 1..] == tail;
    assert s[init - 1..init - 1 + k] == rest[..k];
    LuaFindFirst(s, init, init + k);
  }

  /** The Lua scripts, with indices instead of a split, read the same balance and the same id text. */
  lemma LuaReadsTheSame(c: GasCoin)
    ensures LuaBalance(Format(c)) == Some(c.balance)
    ensures LuaObjectId(Format(c)) == Some(IdText(c.id))
  {
    var b, id, v := Print(c.balance, 10), IdText(c.id), Print(c.version, 10);
    var parts := [b, id, v, c.digest];
    var tail := JoinCommas(parts[2..]);
    var s := Format(c);
    assert parts[1..] == [id, v, c.digest] && parts[1..][1..] == parts[2..];
    assert JoinCommas(parts[1..]) == id + [COMMA] + tail;
    assert s == b + [COMMA] + JoinCommas(parts[1..]);
    PrintHasNoComma(c.balance, 10);
    FieldAt(s, 1, b, JoinCommas(parts[1..]));
    FieldAt(s, |b| + 2, id, tail);
    ReadPrint(c.balance, 10);
  }

  lemma {:induction false} IdsOfIdTexts(ids: seq<ObjectId>)
    ensures IdsOfTexts(IdTexts(ids)) == Some(ids)
  {
    if ids != [] {
      hide IdOf, IdText;
      IdRoundTrip(ids[0]);
      IdsOfIdTexts(ids[1..]);
      assert IdTexts(ids)[1..] == IdTexts(ids[1..]);
      assert [ids[0]] + ids[1..] == ids;
    }
  }

  /** What expiry reads is what reserving wrote, unless the reservation was empty: then it panics. */
  lemma IdListRoundTrip(ids: seq<ObjectId>)
    ensures SplitIds(JoinIds(ids)) == (if ids == [] then None else Some(ids))
  {
    var texts := IdTexts(ids);
    if ids == [] {
      assert texts == [];
      assert IdOf("") == None;
    } else {
      forall p | p in texts ensures COMMA !in p {
        var i :| 0 <= i < |texts| && texts[i] == p;
      }
      SplitJoin(texts);
      IdsOfIdTexts(ids);
    }
  }
}
