/** Positional numerals: what `Display` prints and `FromStr` reads back for unsigned integers. */
module Numerals {
  import opened Coins

  const DIGITS: string := "0123456789abcdef"

  const U64_LIMIT: nat := 0x1_0000_0000_0000_0000

  function DigitValue(c: char): (d: int)
    ensures -1 <= d < 16
    ensures 0 <= d ==> DIGITS[d] == c
  {
    if '0' <= c <= '9' then c as int - '0' as int
    else if 'a' <= c <= 'f' then c as int - 'a' as int + 10
    else -1
  }

  lemma DigitRoundTrip(d: nat)
    requires d < 16
    ensures DigitValue(DIGITS[d]) == d
  {
  }

  lemma DivMod(n: nat, base: nat)
    requires 2 <= base
    ensures n == (n / base) * base + n % base && 0 <= n % base < base
    ensures base <= n ==> n / base < n
  {
    var q := n / base;
    assert n == base * q + n % base;
    if base <= n && q >= 1 {
      assert q * 2 <= q * base;
    }
  }

  function Print(n: nat, base: nat): (s: string)
    requires 2 <= base <= 16
    ensures s != "" && forall c :: c in s ==> c in DIGITS
    decreases n
  {
    DivMod(n, base);
    if n < base then [DIGITS[n]] else Print(n / base, base) + [DIGITS[n % base]]
  }

  /** Reads digits from the left, as both `parse` and `tonumber` do. */
  function ReadOn(acc: nat, s: string, base: nat): Option<nat>
    requires 2 <= base <= 16
    decreases |s|
  {
    if s == "" then Some(acc)
    else
      var d := DigitValue(s[0]);
      if d < 0 || base <= d then None else ReadOn(acc * base + d, s[1..], base)
  }

  function Read(s: string, base: nat): Option<nat>
    requires 2 <= base <= 16
  {
    if s == "" then None else ReadOn(0, s, base)
  }

  /** `str::parse::<u64>`: one optional plus sign, at least one digit, no overflow. */
  function ParseU64(s: string): Option<nat> {
    var digits := if s != "" && s[0] == '+' then s[1..] else s;
    match Read(digits, 10)
    case Some(n) => if n < U64_LIMIT then Some(n) else None
    case None => None
  }

  lemma {:induction false} ReadOnLast(acc: nat, s: string, c: char, base: nat)
    requires 2 <= base <= 16
    ensures ReadOn(acc, s + [c], base) ==
      match ReadOn(acc, s, base)
      case None => None
      case Some(v) => ReadOn(v, [c], base)
    decreases |s|
  {
    if s == "" {
      assert s + [c] == [c];
    } else {
      assert (s + [c])[1..] == s[1..] + [c];
      var d := DigitValue(s[0]);
      if 0 <= d < base {
        ReadOnLast(acc * base + d, s[1..], c, base);
      }
    }
  }

  lemma {:induction false} ReadPrint(n: nat, base: nat)
    requires 2 <= base <= 16
    ensures ReadOn(0, Print(n, base), base) == Some(n)
    decreases n
  {
    DivMod(n, base);
    DigitRoundTrip(n % base);
    if n < base {
      assert Print(n, base)[1..] == "";
    } else {
      ReadPrint(n / base, base);
      ReadOnLast(0, Print(n / base, base), DIGITS[n % base], base);
      assert [DIGITS[n % base]][1..] == "";
    }
  }

  lemma ParsePrintU64(n: nat)
    requires n < U64_LIMIT
    ensures ParseU64(Print(n, 10)) == Some(n)
  {
    ReadPrint(n, 10);
    assert '+' !in DIGITS;
    assert Print(n, 10)[0] in Print(n, 10);
  }

  /** A plus sign and leading zeros are read over; nothing, a lone sign and what does not fit are errors. */
  lemma ParseU64IsRead(n: nat)
    ensures ParseU64("+" + Print(n, 10)) == ParseU64("0" + Print(n, 10)) == ParseU64(Print(n, 10))
    ensures ParseU64(Print(n, 10)) == if n < 0x1_0000_0000_0000_0000 then Some(n) else None
    ensures ParseU64("") == ParseU64("+") == ParseU64("-" + Print(n, 10)) == ParseU64("++" + Print(n, 10)) == None
  {
    hide Print;
    ReadPrint(n, 10);
    SignsAreRead(Print(n, 10));
    var p := Print(n, 10);
    assert p[0] in p && '+' !in DIGITS;
    assert ("0" + p)[1..] == p;
  }

  lemma SignsAreRead(p: string)
    requires p != "" && p[0] != '+'
    ensures ParseU64("+" + p) == ParseU64(p)
    ensures ParseU64("") == ParseU64("+") == ParseU64("-" + p) == ParseU64("++" + p) == None
  {
    assert ("+" + p)[1..] == p && ("++" + p)[1..] == "+" + p;
    assert "+"[1..] == "";
    assert DigitValue('+') == DigitValue('-') == -1;
  }

  lemma PrintHasNoComma(n: nat, base: nat)
    requires 2 <= base <= 16
    ensures ',' !in Print(n, base)
  {
    assert ',' !in DIGITS;
  }
}
