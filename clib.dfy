/**
 * The C library routines the style reader relies on, written out:
 * `isspace` in the "C" locale, `strtol` in base 10, `atoi`, and the
 * conversion of a `long` to an `int` on return from a function.
 *
 * The platform is taken to be LP64 (a 64-bit `long`, a 32-bit `int`),
 * and the narrowing conversion wraps modulo 2^32 as GCC defines it.
 * A C string is the sequence of characters before its terminating NUL.
 */
module CLib {

  const LONG_MIN: int := -0x8000_0000_0000_0000
  const LONG_MAX: int := 0x7FFF_FFFF_FFFF_FFFF
  const INT_MIN: int := -0x8000_0000
  const INT_MAX: int := 0x7FFF_FFFF

  /** `isspace` in the "C" locale: space, \t, \n, \v, \f and \r. */
  predicate IsSpace(c: char) {
    c == ' ' || c == '\t' || c == '\n' || c == '\r' || c as int == 0x0B || c as int == 0x0C
  }

  predicate IsDigit(c: char) {
    '0' <= c <= '9'
  }

  predicate InLongRange(n: int) {
    LONG_MIN <= n <= LONG_MAX
  }

  predicate InIntRange(n: int) {
    INT_MIN <= n <= INT_MAX
  }

  /** The first index at or after `i` that does not hold a space. */
  function SkipSpaces(s: string, i: nat): (j: nat)
    requires i <= |s|
    ensures i <= j <= |s|
    ensures forall k :: i <= k < j ==> IsSpace(s[k])
    ensures j < |s| ==> !IsSpace(s[j])
    decreases |s| - i
  {
    if i < |s| && IsSpace(s[i]) then SkipSpaces(s, i + 1) else i
  }

  /** The end of the run of decimal digits that starts at `i`. */
  function DigitsEnd(s: string, i: nat): (j: nat)
    requires i <= |s|
    ensures i <= j <= |s|
    ensures forall k :: i <= k < j ==> IsDigit(s[k])
    ensures j < |s| ==> !IsDigit(s[j])
    decreases |s| - i
  {
    if i < |s| && IsDigit(s[i]) then DigitsEnd(s, i + 1) else i
  }

  function DigitValue(c: char): nat
    requires IsDigit(c)
  {
    c as int - '0' as int
  }

  /** The value of a string of decimal digits, most significant first. */
  function DecimalValue(d: string): nat
    requires forall k :: 0 <= k < |d| ==> IsDigit(d[k])
  {
    if d == [] then 0 else 10 * DecimalValue(d[..|d| - 1]) + DigitValue(d[|d| - 1])
  }

  /**
   * What a call `strtol(s + start, &endptr, 10)` leaves behind: the `long`
   * it returns, the index `endptr` points to, and whether it set `errno`
   * to ERANGE.
   */
  datatype Conversion = Conversion(number: int, end: nat, rangeError: bool)

  function Clamp(v: int): (r: int)
    ensures InLongRange(r)
    ensures InLongRange(v) ==> r == v
    ensures v > LONG_MAX ==> r == LONG_MAX
    ensures v < LONG_MIN ==> r == LONG_MIN
  {
    if v > LONG_MAX then LONG_MAX else if v < LONG_MIN then LONG_MIN else v
  }

  /**
   * `strtol` in base 10 (section 7.22.1.4 of ISO C): skip spaces, read an
   * optional sign and the longest run of digits.  Without digits nothing
   * is converted, the result is 0 and `endptr` is the start.  A value
   * outside the range of `long` is clamped and ERANGE is set.
   */
  function Strtol(s: string, start: nat): (r: Conversion)
    requires start <= |s|
    ensures start <= r.end <= |s|
    ensures InLongRange(r.number)
    ensures r.end == start ==> r.number == 0 && !r.rangeError
    ensures r.rangeError ==> r.number == LONG_MIN || r.number == LONG_MAX
  {
    var j := SkipSpaces(s, start);
    var k := if j < |s| && (s[j] == '+' || s[j] == '-') then j + 1 else j;
    var e := DigitsEnd(s, k);
    if e == k then Conversion(0, start, false)
    else
      var magnitude: int := DecimalValue(s[k..e]);
      var v := if k == j + 1 && s[j] == '-' then -magnitude else magnitude;
      Conversion(Clamp(v), e, !InLongRange(v))
  }

  /**
   * `s` starts with a decimal numeral: spaces on [0, a), an optional sign
   * on [a, k), digits on [k, e), and no digit at `e`.
   */
  predicate NumeralPrefix(s: string, a: nat, k: nat, e: nat) {
    && a <= k < e <= |s|
    && (forall i :: 0 <= i < a ==> IsSpace(s[i]))
    && (k == a || (k == a + 1 && (s[a] == '+' || s[a] == '-')))
    && (forall i :: k <= i < e ==> IsDigit(s[i]))
    && (e == |s| || !IsDigit(s[e]))
  }

  /** The whole of `s` is a decimal numeral with spaces around it. */
  predicate Numeral(s: string, a: nat, k: nat, e: nat) {
    && NumeralPrefix(s, a, k, e)
    && (forall i :: e <= i < |s| ==> IsSpace(s[i]))
  }

  /** The signed value that the numeral found by `NumeralPrefix` denotes. */
  function NumeralValue(s: string, a: nat, k: nat, e: nat): int
    requires NumeralPrefix(s, a, k, e)
  {
    var magnitude: int := DecimalValue(s[k..e]);
    if k == a + 1 && s[a] == '-' then -magnitude else magnitude
  }

  /** `strtol` reads exactly the numeral at the head of a string. */
  lemma StrtolReadsNumeral(s: string, a: nat, k: nat, e: nat)
    requires NumeralPrefix(s, a, k, e)
    ensures Strtol(s, 0).end == e
    ensures Strtol(s, 0).number == Clamp(NumeralValue(s, a, k, e))
    ensures Strtol(s, 0).rangeError <==> !InLongRange(NumeralValue(s, a, k, e))
  {
    assert !IsSpace(s[a]);
    assert SkipSpaces(s, 0) == a;
    var k' := if a < |s| && (s[a] == '+' || s[a] == '-') then a + 1 else a;
    assert k' == k;
    assert DigitsEnd(s, k) == e;
  }

  /** Where a string does not start with a numeral, `strtol` converts nothing. */
  lemma StrtolWithoutNumeral(s: string)
    requires forall a: nat, k: nat, e: nat :: !NumeralPrefix(s, a, k, e)
    ensures Strtol(s, 0) == Conversion(0, 0, false)
  {
    var j := SkipSpaces(s, 0);
    var k := if j < |s| && (s[j] == '+' || s[j] == '-') then j + 1 else j;
    var e := DigitsEnd(s, k);
    if e != k {
      assert NumeralPrefix(s, j, k, e);
      assert false;
    }
  }

  /** Every conversion that consumes characters has read a numeral. */
  lemma StrtolFindsNumeral(s: string) returns (a: nat, k: nat)
    requires Strtol(s, 0).end > 0
    ensures NumeralPrefix(s, a, k, Strtol(s, 0).end)
    ensures !Strtol(s, 0).rangeError ==> Strtol(s, 0).number == NumeralValue(s, a, k, Strtol(s, 0).end)
  {
    a := SkipSpaces(s, 0);
    k := if a < |s| && (s[a] == '+' || s[a] == '-') then a + 1 else a;
    var e := DigitsEnd(s, k);
    assert e != k;
  }

  /**
   * The conversion of a `long` to a 32-bit `int`: the value congruent to
   * `n` modulo 2^32 in the range of `int`.
   */
  function Int32(n: int): (r: int)
    ensures InIntRange(r)
    ensures (n - r) % 0x1_0000_0000 == 0
    ensures InIntRange(n) ==> r == n
  {
    var m := n % 0x1_0000_0000;
    if m > INT_MAX then m - 0x1_0000_0000 else m
  }

  /** `atoi` as the GNU C library defines it: `(int) strtol(s, NULL, 10)`. */
  function Atoi(s: string): (r: int)
    ensures InIntRange(r)
  {
    Int32(Strtol(s, 0).number)
  }

  /** `atoi` gives the value of the numeral a string starts with, when it fits an `int`. */
  lemma AtoiReadsNumeral(s: string, a: nat, k: nat, e: nat)
    requires NumeralPrefix(s, a, k, e) && InIntRange(NumeralValue(s, a, k, e))
    ensures Atoi(s) == NumeralValue(s, a, k, e)
  {
    StrtolReadsNumeral(s, a, k, e);
  }

  /** `atoi` gives 0 for a string that does not start with a numeral. */
  lemma AtoiWithoutNumeral(s: string)
    requires forall a: nat, k: nat, e: nat :: !NumeralPrefix(s, a, k, e)
    ensures Atoi(s) == 0
  {
    StrtolWithoutNumeral(s);
  }
}
