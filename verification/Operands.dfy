/** The operands of access rules: number comparisons and counting keys, as text and back. */
module Operands {
  import opened Coins
  import opened Numerals

  datatype Operator = GE | LE | EQ | NE | GT | LT

  datatype ValueNumber = ValueNumber(operator: Operator, number: nat)

  predicate Matches(v: ValueNumber, value: nat) {
    match v.operator
    case GT => value > v.number
    case LT => value < v.number
    case EQ => value == v.number
    case NE => value != v.number
    case GE => value >= v.number
    case LE => value <= v.number
  }

  function OperatorText(op: Operator): string {
    match op
    case GE => ">="
    case LE => "<="
    case EQ => "="
    case NE => "!="
    case GT => ">"
    case LT => "<"
  }

  function PrintValue(v: ValueNumber): string {
    OperatorText(v.operator) + Print(v.number, 10)
  }

  predicate StartsWith(s: string, prefix: string) {
    |prefix| <= |s| && s[..|prefix|] == prefix
  }

  /** The operator loop of `deserialize`, for any list of operators. */
  function ParseWith(operators: seq<Operator>, s: string): Option<ValueNumber>
    decreases |operators|
  {
    if operators == [] then None
    else
      var prefix := OperatorText(operators[0]);
      if StartsWith(s, prefix) then
        match ParseU64(s[|prefix|..])
        case Some(n) => Some(ValueNumber(operators[0], n))
        case None => None
      else ParseWith(operators[1..], s)
  }

  const OPERATORS: seq<Operator> := [GE, LE, EQ, NE, GT, LT]

  function ParseValue(s: string): Option<ValueNumber> {
    ParseWith(OPERATORS, s)
  }

  // ---------------------------------------------------------------- numbers

  predicate Before(operators: seq<Operator>, a: Operator, b: Operator) {
    forall i, j :: 0 <= i < |operators| && 0 <= j < |operators| && operators[i] == a && operators[j] == b ==> i < j
  }

  lemma StartsWithText(s: string, op: Operator)
    requires 2 <= |s|
    ensures StartsWith(s, OperatorText(op)) <==>
      s[0] == OperatorText(op)[0] && (op == GE || op == LE || op == NE ==> s[1] == '=')
  {
    assert s[..1] == [s[0]] && s[..2] == [s[0], s[1]];
  }

  /** The operators whose text starts a printed value: its own, or a shorter one. */
  lemma PrefixOf(op: Operator, v: ValueNumber)
    ensures StartsWith(PrintValue(v), OperatorText(op)) <==>
      op == v.operator || (op == GT && v.operator == GE) || (op == LT && v.operator == LE)
  {
    hide Print, StartsWith;
    var digits := Print(v.number, 10);
    assert digits[0] in digits && '=' !in DIGITS;
    StartsWithText(PrintValue(v), op);
  }

  lemma ShorterFails(v: ValueNumber)
    requires v.operator == GE || v.operator == LE
    ensures ParseU64(PrintValue(v)[1..]) == None
  {
    var rest := PrintValue(v)[1..];
    assert rest[0] == '=';
    assert DigitValue('=') == -1;
  }

  lemma {:induction false} ParsePrinted(operators: seq<Operator>, v: ValueNumber)
    requires v.number < U64_LIMIT && v.operator in operators
    requires Before(operators, GE, GT) && Before(operators, LE, LT)
    ensures ParseWith(operators, PrintValue(v)) == Some(v)
    decreases |operators|
  {
    hide Matches, ParseU64, PrintValue, StartsWith;
    var op := operators[0];
    PrefixOf(op, v);
    if op == v.operator {
      OwnRest(v);
    } else {
      var i :| 0 <= i < |operators| && operators[i] == v.operator;
      assert operators[1..][i - 1] == v.operator;
      ParsePrinted(operators[1..], v);
    }
  }

  lemma OwnRest(v: ValueNumber)
    requires v.number < U64_LIMIT
    ensures |OperatorText(v.operator)| <= |PrintValue(v)|
    ensures ParseU64(PrintValue(v)[|OperatorText(v.operator)|..]) == Some(v.number)
  {
    assert PrintValue(v)[|OperatorText(v.operator)|..] == Print(v.number, 10);
    ParsePrintU64(v.number);
  }

  /** Each operator at most once. */
  predicate NoneTwice(operators: seq<Operator>) {
    forall i, j :: 0 <= i < j < |operators| ==> operators[i] != operators[j]
  }

  /** A shorter operator that comes first takes the text away from the longer one. */
  lemma {:induction false} ShadowedFails(operators: seq<Operator>, v: ValueNumber, short: Operator)
    requires (v.operator == GE && short == GT) || (v.operator == LE && short == LT)
    requires NoneTwice(operators) && !Before(operators, v.operator, short)
    ensures ParseWith(operators, PrintValue(v)) == None
    decreases |operators|
  {
    hide ParseU64, PrintValue, StartsWith;
    PrefixOf(operators[0], v);
    var i, j :|
      && 0 <= i < |operators| && 0 <= j < |operators|
      && operators[i] == v.operator && operators[j] == short && j <= i;
    if j == 0 {
      ShorterFails(v);
    } else {
      assert operators[1..][i - 1] == v.operator && operators[1..][j - 1] == short;
      ShadowedFails(operators[1..], v, short);
    }
  }

  /** A list of all six operators, each once. */
  ghost predicate Complete(operators: seq<Operator>) {
    && (forall op: Operator :: op in operators)
    && NoneTwice(operators)
  }

  ghost predicate RoundTrips(operators: seq<Operator>) {
    forall v: ValueNumber :: v.number < U64_LIMIT ==> ParseWith(operators, PrintValue(v)) == Some(v)
  }

  /** Longer operators first is not just sufficient but exactly what the round trip needs. */
  lemma OrderIsExact(operators: seq<Operator>)
    requires Complete(operators)
    ensures RoundTrips(operators) <==> Before(operators, GE, GT) && Before(operators, LE, LT)
  {
    hide ParseWith, PrintValue;
    if Before(operators, GE, GT) && Before(operators, LE, LT) {
      forall v: ValueNumber | v.number < U64_LIMIT ensures ParseWith(operators, PrintValue(v)) == Some(v) {
        ParsePrinted(operators, v);
      }
    } else {
      var (long, short) := if !Before(operators, GE, GT) then (GE, GT) else (LE, LT);
      var v := ValueNumber(long, 0);
      ShadowedFails(operators, v, short);
      assert ParseWith(operators, PrintValue(v)) != Some(v);
    }
  }

  lemma ListOfSix()
    ensures Complete(OPERATORS) && Before(OPERATORS, GE, GT) && Before(OPERATORS, LE, LT)
  {
    var l := OPERATORS;
    assert l[0] == GE && l[1] == LE && l[2] == EQ && l[3] == NE && l[4] == GT && l[5] == LT;
    forall op: Operator ensures op in l {
      match op
      case GE => assert l[0] in l;
      case LE => assert l[1] in l;
      case EQ => assert l[2] in l;
      case NE => assert l[3] in l;
      case GT => assert l[4] in l;
      case LT => assert l[5] in l;
    }
  }

  /** For every operator and every `u64`. */
  lemma ValueRoundTrip(v: ValueNumber)
    requires v.number < U64_LIMIT
    ensures ParseValue(PrintValue(v)) == Some(v)
  {
    hide PrintValue, ParseWith;
    ListOfSix();
    ParsePrinted(OPERATORS, v);
  }

  /** Each text means the comparison it shows, on all values. A bare number is no operand. */
  lemma OperatorsAreRead(n: nat, x: nat)
    requires n < U64_LIMIT
    ensures
      var number := Print(n, 10);
      var (ge, le, eq) := (ParseValue(">=" + number), ParseValue("<=" + number), ParseValue("=" + number));
      var (ne, gt, lt) := (ParseValue("!=" + number), ParseValue(">" + number), ParseValue("<" + number));
      && ge.Some? && (Matches(ge.value, x) <==> x >= n)
      && le.Some? && (Matches(le.value, x) <==> x <= n)
      && eq.Some? && (Matches(eq.value, x) <==> x == n)
      && ne.Some? && (Matches(ne.value, x) <==> x != n)
      && gt.Some? && (Matches(gt.value, x) <==> x > n)
      && lt.Some? && (Matches(lt.value, x) <==> x < n)
    ensures ParseValue(Print(n, 10)) == None
  {
    hide ParseWith, Print;
    ValueRoundTrip(ValueNumber(GE, n));
    ValueRoundTrip(ValueNumber(LE, n));
    ValueRoundTrip(ValueNumber(EQ, n));
    ValueRoundTrip(ValueNumber(NE, n));
    ValueRoundTrip(ValueNumber(GT, n));
    ValueRoundTrip(ValueNumber(LT, n));
    BareNumber(OPERATORS, n);
  }

  lemma {:induction false} BareNumber(operators: seq<Operator>, n: nat)
    ensures ParseWith(operators, Print(n, 10)) == None
    decreases |operators|
  {
    hide Print, StartsWith, OperatorText;
    if operators != [] {
      NoOperator(operators[0], n);
      BareNumber(operators[1..], n);
    }
  }

  lemma NoOperator(op: Operator, n: nat)
    ensures !StartsWith(Print(n, 10), OperatorText(op))
  {
    hide Print;
    var digits, text := Print(n, 10), OperatorText(op);
    assert digits[0] in digits && text[0] !in DIGITS;
    assert |text| <= |digits| ==> digits[..|text|][0] == digits[0];
  }

  // ---------------------------------------------------------------- counting keys

  const HTTP_HEADER_PREFIX: string := "http-header::"
  const SENDER_ADDRESS: string := "sender-address"

  datatype CountBy = SenderAddress | HttpHeader(name: string)

  function PrintCountBy(c: CountBy): string {
    match c
    case SenderAddress => SENDER_ADDRESS
    case HttpHeader(name) => HTTP_HEADER_PREFIX + name
  }

  /** The first match of a pattern. */
  function Find(s: string, pattern: string): (r: Option<nat>)
    ensures r.Some? ==> r.value + |pattern| <= |s|
  {
    if StartsWith(s, pattern) then Some(0)
    else if s == "" then None
    else
      match Find(s[1..], pattern)
      case Some(i) => Some(i + 1)
      case None => None
  }

  /** Rust's `str::split` with a string pattern. */
  function SplitOn(s: string, pattern: string): (parts: seq<string>)
    requires pattern != ""
    ensures parts != []
    decreases |s|
  {
    match Find(s, pattern)
    case Some(i) => [s[..i]] + SplitOn(s[i + |pattern|..], pattern)
    case None => [s]
  }

  function ParseCountBy(s: string): Option<CountBy> {
    if s == SENDER_ADDRESS then Some(SenderAddress)
    else if StartsWith(s, HTTP_HEADER_PREFIX) then
      var parts := SplitOn(s, HTTP_HEADER_PREFIX);
      if |parts| != 2 then None else Some(HttpHeader(parts[1]))
    else None
  }

  predicate Occurs(pattern: string, s: string) {
    exists i :: 0 <= i <= |s| && StartsWith(s[i..], pattern)
  }

  lemma {:induction false} FindIsOccurs(s: string, pattern: string)
    ensures Find(s, pattern).Some? <==> Occurs(pattern, s)
  {
    if StartsWith(s, pattern) {
      assert s[0..] == s;
    } else if s != "" {
      FindIsOccurs(s[1..], pattern);
      if Occurs(pattern, s) {
        var i :| 0 <= i <= |s| && StartsWith(s[i..], pattern);
        assert i != 0 by { assert s[0..] == s; }
        assert s[1..][i - 1..] == s[i..];
      }
      if Occurs(pattern, s[1..]) {
        var i :| 0 <= i <= |s[1..]| && StartsWith(s[1..][i..], pattern);
        assert s[1..][i..] == s[i + 1..];
      }
    }
  }

  /** The texts of the two kinds of keys; a header name with the prefix inside is refused. */
  lemma CountByIsRead(name: string)
    ensures ParseCountBy("sender-address") == Some(SenderAddress)
    ensures ParseCountBy("http-header::" + name) ==
      if Occurs("http-header::", name) then None else Some(HttpHeader(name))
  {
    hide ParseCountBy, Occurs;
    CountByIsExact("sender-address", SenderAddress);
    CountByIsExact("http-header::" + name, HttpHeader(name));
    var s := "http-header::" + name;
    if ParseCountBy(s).Some? {
      CountByIsExact(s, ParseCountBy(s).value);
      assert s[0] != SENDER_ADDRESS[0];
      assert s[|HTTP_HEADER_PREFIX|..] == name;
    }
  }

  /** Reading is the exact inverse of printing, on the header names that survive: those without the prefix inside. */
  lemma CountByIsExact(s: string, c: CountBy)
    ensures ParseCountBy(s) == Some(c) <==>
      s == PrintCountBy(c) && (c.SenderAddress? || !Occurs(HTTP_HEADER_PREFIX, c.name))
  {
    hide Occurs;
    var n := |HTTP_HEADER_PREFIX|;
    if StartsWith(s, HTTP_HEADER_PREFIX) {
      assert s[0] == HTTP_HEADER_PREFIX[0];
      assert Find(s, HTTP_HEADER_PREFIX) == Some(0);
      var name := s[n..];
      assert s == HTTP_HEADER_PREFIX + name;
      assert SplitOn(s, HTTP_HEADER_PREFIX) == [s[..0]] + SplitOn(name, HTTP_HEADER_PREFIX);
      FindIsOccurs(name, HTTP_HEADER_PREFIX);
      if c.HttpHeader? && s == PrintCountBy(c) {
        assert c.name == s[n..];
      }
    } else if c.HttpHeader? {
      assert PrintCountBy(c)[..n] == HTTP_HEADER_PREFIX;
    }
  }
}
