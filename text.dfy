/**
 * The string operations the server takes from Rust's standard library:
 * `starts_with`, `contains`, `join`, the decimal `Display` of an integer
 * and `str::parse` for the integer types of the configuration.
 */
module Text {
  import opened Basics

  /** `str::starts_with` */
  predicate StartsWith(s: string, prefix: string) {
    |prefix| <= |s| && s[..|prefix|] == prefix
  }

  /** `pattern` occurs in `s` starting at position `i`. */
  predicate OccursAt(s: string, pattern: string, i: int) {
    0 <= i && i + |pattern| <= |s| && s[i..i + |pattern|] == pattern
  }

  /** `str::contains`: some suffix of `s` starts with `pattern`. */
  predicate Contains(s: string, pattern: string)
    decreases |s|
  {
    StartsWith(s, pattern) || (|s| > 0 && Contains(s[1..], pattern))
  }

  /** The suffix-scanning `Contains` agrees with "there is a position where `pattern` occurs". */
  lemma {:induction false} ContainsIffOccurs(s: string, pattern: string)
    ensures Contains(s, pattern) <==> exists i :: OccursAt(s, pattern, i)
    decreases |s|
  {
    if StartsWith(s, pattern) {
      assert OccursAt(s, pattern, 0);
    } else if |s| > 0 {
      ContainsIffOccurs(s[1..], pattern);
      if Contains(s[1..], pattern) {
        var j :| OccursAt(s[1..], pattern, j);
        assert s[1..][j..j + |pattern|] == s[j + 1..j + 1 + |pattern|];
        assert OccursAt(s, pattern, j + 1);
      }
      if |pattern| <= |s| {
        assert s[0..|pattern|] == s[..|pattern|];
      }
      forall i | OccursAt(s, pattern, i) && i > 0 ensures Contains(s[1..], pattern) {
        assert s[1..][i - 1..i - 1 + |pattern|] == s[i..i + |pattern|];
        assert OccursAt(s[1..], pattern, i - 1);
      }
    }
  }

  /** A string never contains a longer pattern. */
  lemma {:induction false} ContainsNeedsRoom(s: string, pattern: string)
    requires |s| < |pattern|
    ensures !Contains(s, pattern)
    decreases |s|
  {
    if |s| > 0 {
      ContainsNeedsRoom(s[1..], pattern);
    }
  }

  /** `[String]::join(sep)` */
  function Join(parts: seq<string>, sep: string): string
    decreases |parts|
  {
    if |parts| == 0 then ""
    else if |parts| == 1 then parts[0]
    else parts[0] + sep + Join(parts[1..], sep)
  }

  // ---------------------------------------------------------------------------
  // Decimal digits

  predicate IsDigit(c: char) {
    '0' <= c <= '9'
  }

  predicate AllDigits(s: string) {
    forall i :: 0 <= i < |s| ==> IsDigit(s[i])
  }

  /** The number a string of decimal digits denotes (most significant digit first). */
  function DigitsValue(s: string): nat
    requires AllDigits(s)
    decreases |s|
  {
    if |s| == 0 then 0
    else 10 * DigitsValue(s[..|s| - 1]) + (s[|s| - 1] as int - '0' as int)
  }

  function DigitChar(d: nat): (c: char)
    requires d < 10
    ensures IsDigit(c) && c as int - '0' as int == d
  {
    ('0' as int + d) as char
  }

  /** The `Display` of a non-negative integer: decimal, no leading zeros. */
  function Decimal(n: nat): (r: string)
    ensures |r| > 0 && AllDigits(r)
    ensures r[0] == '0' ==> n == 0
    decreases n
  {
    if n < 10 then [DigitChar(n)] else Decimal(n / 10) + [DigitChar(n % 10)]
  }

  /** Reading back what `Decimal` printed gives the number. */
  lemma {:induction false} DecimalValue(n: nat)
    ensures DigitsValue(Decimal(n)) == n
    decreases n
  {
    if n >= 10 {
      DecimalValue(n / 10);
      var r := Decimal(n);
      assert r[..|r| - 1] == Decimal(n / 10);
    }
  }

  // ---------------------------------------------------------------------------
  // `str::parse` for the integer types

  /** The text after one optional leading '+'. */
  function UnsignedDigits(s: string): string {
    if |s| > 0 && s[0] == '+' then s[1..] else s
  }

  /** The text after one optional leading '+' or '-'. */
  function SignedDigits(s: string): string {
    if |s| > 0 && (s[0] == '+' || s[0] == '-') then s[1..] else s
  }

  /**
   * `str::parse` for an unsigned integer type whose largest value is `max`:
   * one optional leading '+', then at least one ASCII digit and nothing else;
   * a value above `max` is an overflow error.
   */
  function ParseUnsigned(s: string, max: nat): (r: Option<nat>)
    ensures r.Some? <==>
      var d := UnsignedDigits(s);
      |d| > 0 && AllDigits(d) && DigitsValue(d) <= max
    ensures r.Some? ==> r.value == DigitsValue(UnsignedDigits(s)) && r.value <= max
  {
    if |s| == 0 then None
    else
      var digits := if s[0] == '+' then s[1..] else s;
      if |digits| == 0 || !AllDigits(digits) then None
      else if DigitsValue(digits) <= max then Some(DigitsValue(digits))
      else None
  }

  /**
   * `str::parse` for a signed integer type with range [min, max]: one optional
   * leading '+' or '-', then at least one ASCII digit and nothing else.
   */
  function ParseSigned(s: string, min: int, max: int): (r: Option<int>)
    ensures r.Some? <==>
      var d := SignedDigits(s);
      && |d| > 0 && AllDigits(d)
      && min <= (if s[0] == '-' then -(DigitsValue(d) as int) else DigitsValue(d)) <= max
    ensures r.Some? ==>
      && |s| > 0
      && r.value == (if s[0] == '-' then -(DigitsValue(SignedDigits(s)) as int) else DigitsValue(SignedDigits(s)))
      && min <= r.value <= max
  {
    if |s| == 0 then None
    else
      var negative := s[0] == '-';
      var digits := if s[0] == '+' || s[0] == '-' then s[1..] else s;
      if |digits| == 0 || !AllDigits(digits) then None
      else
        var magnitude: int := DigitsValue(digits);
        var v := if negative then -magnitude else magnitude;
        if min <= v <= max then Some(v) else None
  }

  /** Parsing the printed form of a value in range gives the value back. */
  lemma ParseUnsignedDecimal(n: nat, max: nat)
    requires n <= max
    ensures ParseUnsigned(Decimal(n), max) == Some(n)
  {
    DecimalValue(n);
  }

  /** Parsing the printed form of a value in range gives the value back. */
  lemma ParseSignedDecimal(n: nat, min: int, max: int)
    requires min <= n <= max
    ensures ParseSigned(Decimal(n), min, max) == Some(n)
  {
    DecimalValue(n);
  }

  /** A value above the type's range is an error, never a wrapped-around value. */
  lemma ParseUnsignedOverflow(n: nat, max: nat)
    requires n > max
    ensures ParseUnsigned(Decimal(n), max) == None
  {
    DecimalValue(n);
  }

  /** A '-' before the printed magnitude of a value in range gives the negative value. */
  lemma ParseSignedNegative(n: nat, min: int, max: int)
    requires min <= -(n as int) <= max
    ensures ParseSigned("-" + Decimal(n), min, max) == Some(-(n as int))
  {
    DecimalValue(n);
    assert ("-" + Decimal(n))[1..] == Decimal(n);
  }
}
