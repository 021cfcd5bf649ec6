/**
 * The integer arithmetic of the ESP32 C++ toolchain: `int` and `long` are 32 bits,
 * `unsigned int`/`uint32_t`, `uint8_t` and `uint64_t` wrap modulo a power of two,
 * a float-to-int cast truncates toward zero, and Arduino's `String::toInt()` is
 * newlib's `atol`. Also the decimal rendering `String(n)` of an unsigned number.
 */
module Machine {

  const TWO_8: int := 0x100
  const TWO_16: int := 0x1_0000
  const TWO_32: int := 0x1_0000_0000
  const TWO_64: int := 0x1_0000_0000_0000_0000
  const INT32_MIN: int := -0x8000_0000
  const INT32_MAX: int := 0x7FFF_FFFF

  type uint8 = x: int | 0 <= x < 0x100
  type uint16 = x: int | 0 <= x < 0x1_0000
  type uint32 = x: int | 0 <= x < 0x1_0000_0000
  type uint64 = x: int | 0 <= x < 0x1_0000_0000_0000_0000
  type int32 = x: int | -0x8000_0000 <= x < 0x8000_0000

  /** C's conversion of an integer to `uint8_t`: the residue modulo 2^8. */
  function ToUint8(x: int): (r: uint8)
    ensures (x - r) % TWO_8 == 0
    ensures 0 <= x < TWO_8 ==> r == x
  {
    x % TWO_8
  }

  /** C's conversion of an integer to an unsigned 32-bit type: the residue modulo 2^32. */
  function ToUint32(x: int): (r: uint32)
    ensures (x - r) % TWO_32 == 0
    ensures 0 <= x < TWO_32 ==> r == x
    ensures INT32_MIN <= x < 0 ==> r == x + TWO_32
  {
    x % TWO_32
  }

  /** Unsigned 64-bit subtraction as the C compiler performs it: it wraps below zero. */
  function Sub64(a: uint64, b: uint64): (r: uint64)
    ensures b <= a ==> r == a - b
    ensures a < b ==> r == a - b + TWO_64
  {
    (a - b) % TWO_64
  }

  /** Conversion of an unsigned 32-bit value to `int` (two's complement on the ESP32). */
  function ToInt32(x: uint32): (r: int32)
    ensures x <= INT32_MAX ==> r == x
    ensures INT32_MAX < x ==> r == x - TWO_32
    ensures ToUint32(r) == x
  {
    if x <= INT32_MAX then x else x - TWO_32
  }

  /** Truncation of a real toward zero, as a C float-to-integer cast rounds. */
  function Trunc(x: real): (r: int)
    ensures 0.0 <= x ==> 0 <= r && r as real <= x < r as real + 1.0
    ensures x < 0.0 ==> r <= 0 && r as real - 1.0 < x <= r as real
  {
    if x >= 0.0 then x.Floor else -((-x).Floor)
  }

  /** Clamp an integer into the range of `int`. */
  function ClampInt32(x: int): (r: int32)
    ensures INT32_MIN <= x <= INT32_MAX ==> r == x
    ensures x > INT32_MAX ==> r == INT32_MAX
    ensures x < INT32_MIN ==> r == INT32_MIN
  {
    if x > INT32_MAX then INT32_MAX else if x < INT32_MIN then INT32_MIN else x
  }

  /**
   * A float-to-`int` cast. In range it truncates toward zero; out of range C leaves it
   * undefined, and this model saturates at the bounds of `int`.
   */
  function FloatToInt32(x: real): (r: int32)
    ensures INT32_MIN <= Trunc(x) <= INT32_MAX ==> r == Trunc(x)
    ensures 0.0 <= x ==> 0 <= r
  {
    ClampInt32(Trunc(x))
  }

  // ---------------------------------------------------------------------------
  // Decimal digits

  predicate IsDigit(c: char) {
    '0' <= c <= '9'
  }

  function DigitChar(d: nat): (c: char)
    requires d < 10
    ensures IsDigit(c)
  {
    (('0' as int) + d) as char
  }

  function DigitValue(c: char): (d: nat)
    requires IsDigit(c)
    ensures d < 10 && DigitChar(d) == c
  {
    (c as int) - ('0' as int)
  }

  /** `String(n)` for an unsigned `n`: its decimal digits, without leading zeros. */
  function DecimalString(n: nat): (s: string)
    ensures |s| >= 1
    ensures forall k :: 0 <= k < |s| ==> IsDigit(s[k])
    ensures |s| > 1 ==> s[0] != '0'
  {
    if n < 10 then [DigitChar(n)] else DecimalString(n / 10) + [DigitChar(n % 10)]
  }

  /** The number a string of decimal digits denotes, most significant digit first. */
  function DigitsValue(s: string): nat
    requires forall k :: 0 <= k < |s| ==> IsDigit(s[k])
  {
    if s == [] then 0 else DigitsValue(s[..|s| - 1]) * 10 + DigitValue(s[|s| - 1])
  }

  /** Number of leading decimal digits of `s`. */
  function DigitRun(s: string): (n: nat)
    ensures n <= |s|
    ensures forall k :: 0 <= k < n ==> IsDigit(s[k])
    ensures n < |s| ==> !IsDigit(s[n])
  {
    if s != [] && IsDigit(s[0]) then 1 + DigitRun(s[1..]) else 0
  }

  /** The characters C's `isspace` accepts in the "C" locale. */
  predicate IsSpace(c: char) {
    c == ' ' || c == '\t' || c == '\n' || c == '\r' || c == '\U{B}' || c == '\U{C}'
  }

  function SkipSpaces(s: string): (t: string)
    ensures |t| <= |s| && t == s[|s| - |t|..]
    ensures t != [] ==> !IsSpace(t[0])
  {
    if s != [] && IsSpace(s[0]) then SkipSpaces(s[1..]) else s
  }

  predicate NoDigits(s: string) {
    forall k :: 0 <= k < |s| ==> !IsDigit(s[k])
  }

  /** Magnitude of the digits that start `s` (0 when it does not start with a digit). */
  function LeadingValue(s: string): nat {
    DigitsValue(s[..DigitRun(s)])
  }

  /**
   * `String::toInt()`, that is newlib's `atol` (= `strtol(s, NULL, 10)`): skip white
   * space, take an optional sign and the longest run of digits after it; text without
   * digits gives 0; a value beyond the range of `long` saturates at its bounds.
   */
  function Atol(s: string): (r: int32)
    ensures NoDigits(s) ==> r == 0
  {
    var t := SkipSpaces(s);
    if t != [] && t[0] == '-' then ClampInt32(-(LeadingValue(t[1..]) as int))
    else if t != [] && t[0] == '+' then ClampInt32(LeadingValue(t[1..]))
    else ClampInt32(LeadingValue(t))
  }

  lemma {:induction false} DigitRunAllDigits(s: string)
    requires forall k :: 0 <= k < |s| ==> IsDigit(s[k])
    ensures DigitRun(s) == |s|
  {
    if s != [] {
      DigitRunAllDigits(s[1..]);
    }
  }

  /** Reading the decimal rendering back gives the number. */
  lemma {:induction false} DigitsValueOfDecimal(n: nat)
    ensures DigitsValue(DecimalString(n)) == n
  {
    var s := DecimalString(n);
    if n >= 10 {
      DigitsValueOfDecimal(n / 10);
      assert s[..|s| - 1] == DecimalString(n / 10);
    }
  }

  /** The digits of `String(n)` are all leading digits, and they denote `n`. */
  lemma LeadingValueOfDecimal(n: nat)
    ensures LeadingValue(DecimalString(n)) == n
  {
    var s := DecimalString(n);
    DigitRunAllDigits(s);
    assert s[..DigitRun(s)] == s;
    DigitsValueOfDecimal(n);
  }

  /** `toInt()` inverts `String(n)` for every `n` that fits in a `long`. */
  lemma AtolOfDecimal(n: nat)
    requires n <= INT32_MAX
    ensures Atol(DecimalString(n)) == n
  {
    var s := DecimalString(n);
    assert IsDigit(s[0]) && !IsSpace(s[0]);
    assert SkipSpaces(s) == s;
    LeadingValueOfDecimal(n);
  }

  /**
   * A minus sign before the digits negates the value: `toInt()` of "-" + `String(n)` is `-n`
   * for every `n` down to the smallest `long`. With `AtolOfDecimal` these are the values
   * `toInt()` gives for canonical signed decimal text.
   */
  lemma AtolOfNegativeDecimal(n: nat)
    requires n <= -INT32_MIN
    ensures Atol("-" + DecimalString(n)) == -(n as int)
  {
    var s := "-" + DecimalString(n);
    assert !IsSpace(s[0]);
    assert SkipSpaces(s) == s;
    assert s[1..] == DecimalString(n);
    LeadingValueOfDecimal(n);
  }

  /** Distinct numbers have distinct decimal renderings. */
  lemma DecimalStringInjective(m: nat, n: nat)
    requires m != n
    ensures DecimalString(m) != DecimalString(n)
  {
    DigitsValueOfDecimal(m);
    DigitsValueOfDecimal(n);
  }
}
