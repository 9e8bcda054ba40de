/** Java's fixed-width integer arithmetic and its decimal conversions, written out on
    unbounded integers: `int` and `long` wrap-around, division that truncates toward
    zero, `Integer.parseInt` / `Long.parseLong` and `Integer.toString`. */
module JavaNumbers {
  import opened Wrappers

  const TWO_32: int := 0x1_0000_0000
  const TWO_64: int := 0x1_0000_0000_0000_0000
  const INT_MIN: int := -0x8000_0000
  const INT_MAX: int := 0x7FFF_FFFF
  const LONG_MIN: int := -0x8000_0000_0000_0000
  const LONG_MAX: int := 0x7FFF_FFFF_FFFF_FFFF

  predicate IsInt(n: int) {
    INT_MIN <= n <= INT_MAX
  }

  predicate IsLong(n: int) {
    LONG_MIN <= n <= LONG_MAX
  }

  /** The narrowing cast `(int) n`: keeps the low 32 bits in two's complement. */
  function ToInt32(n: int): (r: int)
    ensures IsInt(r)
    ensures (n - r) % TWO_32 == 0
    ensures IsInt(n) ==> r == n
  {
    (n - INT_MIN) % TWO_32 + INT_MIN
  }

  /** A `long` result of `+`, `-` or `*`: keeps the low 64 bits in two's complement. */
  function ToInt64(n: int): (r: int)
    ensures IsLong(r)
    ensures (n - r) % TWO_64 == 0
    ensures IsLong(n) ==> r == n
  {
    (n - LONG_MIN) % TWO_64 + LONG_MIN
  }

  /** The cast of an integral `double` to an integer type: saturates at the bounds. */
  function Saturate(n: int, lo: int, hi: int): (r: int)
    requires lo <= hi
    ensures lo <= r <= hi
    ensures lo <= n <= hi ==> r == n
  {
    if n < lo then lo else if n > hi then hi else n
  }

  /** Java's integer division `a / b` for a positive divisor: it truncates toward zero,
      unlike Dafny's Euclidean `/`. */
  function JavaDiv(a: int, b: int): (q: int)
    requires b > 0
    ensures a >= 0 ==> 0 <= a - q * b < b
    ensures a < 0 ==> -b < a - q * b <= 0
  {
    if a >= 0 then a / b else -((-a) / b)
  }

  predicate IsDigit(c: char) {
    '0' <= c <= '9'
  }

  function DigitValue(c: char): (d: nat)
    requires IsDigit(c)
    ensures d < 10
  {
    c as int - '0' as int
  }

  function DigitChar(d: nat): (c: char)
    requires d < 10
    ensures IsDigit(c) && DigitValue(c) == d
  {
    ('0' as int + d) as char
  }

  predicate AllDigits(s: string) {
    forall i :: 0 <= i < |s| ==> IsDigit(s[i])
  }

  /** The value of a string of decimal digits, most significant first. */
  function DigitsValue(s: string): nat
    requires AllDigits(s)
  {
    if s == [] then 0 else DigitsValue(s[..|s| - 1]) * 10 + DigitValue(s[|s| - 1])
  }

  /** What `Integer.parseInt` and `Long.parseLong` accept before the range check:
      an optional leading '-' followed by at least one ASCII digit. */
  predicate IsDecimal(s: string) {
    if |s| > 0 && s[0] == '-' then |s| > 1 && AllDigits(s[1..]) else |s| > 0 && AllDigits(s)
  }

  function DecimalValue(s: string): int
    requires IsDecimal(s)
  {
    if s[0] == '-' then -(DigitsValue(s[1..]) as int) else DigitsValue(s)
  }

  /** `Integer.parseInt` (lo, hi = the int range) and `Long.parseLong` (the long range):
      the whole string must be a decimal numeral whose value is in range; anything
      else is a NumberFormatException, here `None`. */
  function ParseDecimal(s: string, lo: int, hi: int): (r: Option<int>)
    ensures r.Some? ==> lo <= r.value <= hi
    ensures r.Some? ==> |s| > 0 && forall i :: 0 <= i < |s| ==> IsDigit(s[i]) || (i == 0 && s[i] == '-')
    ensures r.Some? ==> exists i :: 0 <= i < |s| && IsDigit(s[i])
  {
    if IsDecimal(s) && lo <= DecimalValue(s) <= hi then Some(DecimalValue(s)) else None
  }

  function ParseInt(s: string): (r: Option<int>)
    ensures r.Some? ==> IsInt(r.value)
  {
    ParseDecimal(s, INT_MIN, INT_MAX)
  }

  function ParseLong(s: string): (r: Option<int>)
    ensures r.Some? ==> IsLong(r.value)
  {
    ParseDecimal(s, LONG_MIN, LONG_MAX)
  }

  /** The shortest digit string of a natural number. */
  function Digits(n: nat): (s: string)
    ensures |s| > 0 && AllDigits(s) && DigitsValue(s) == n
  {
    if n < 10 then [DigitChar(n)]
    else
      var init := Digits(n / 10);
      var s := init + [DigitChar(n % 10)];
      assert s[..|s| - 1] == init;
      s
  }

  /** `Integer.toString` / `Long.toString`, the rendering `JSONArray.getString` gives a number. */
  function Decimal(n: int): (s: string)
    ensures IsDecimal(s) && DecimalValue(s) == n
  {
    if n < 0 then
      var d := Digits(-n);
      assert ("-" + d)[1..] == d;
      "-" + d
    else Digits(n)
  }

  function Pow10(k: nat): (p: nat)
    ensures p >= 1
  {
    if k == 0 then 1 else 10 * Pow10(k - 1)
  }

  /** Parsing reads back every value that rendering writes: the round trip
      `parseInt(Integer.toString(n)) == n` for every `int`, and likewise for `long`. */
  lemma ParseDecimalOfDecimal(n: int, lo: int, hi: int)
    requires lo <= n <= hi
    ensures ParseDecimal(Decimal(n), lo, hi) == Some(n)
  {
  }

  /** A number of k digits renders to exactly k characters. */
  lemma {:induction false} DigitsLength(n: nat, k: nat)
    requires k >= 1 && Pow10(k - 1) <= n < Pow10(k)
    ensures |Digits(n)| == k
  {
    if k > 1 {
      DigitsLength(n / 10, k - 1);
    }
  }

  /** One step of the `31 * result + h` hash combination, in `int` arithmetic. */
  function HashStep(acc: int, h: int): (r: int)
    ensures IsInt(r)
  {
    ToInt32(31 * acc + h)
  }

  /** `Long.hashCode` (and `Date.hashCode` of the instant): `(int)(x ^ (x >>> 32))`,
      the low word of the `long` XOR its high word. */
  function LongHash(x: int): (h: int)
    ensures IsInt(h)
    ensures 0 <= x <= INT_MAX ==> h == x
  {
    var u: nat := ToInt64(x) % TWO_64;
    var lo := u % TWO_32;
    var hi := u / TWO_32;
    if hi == 0 then ToInt32(lo) else ToInt32(Xor(lo, hi))
  }

  /** Bitwise XOR of two naturals, bit by bit from the least significant. */
  function Xor(a: nat, b: nat): nat
    decreases a + b
  {
    if a == 0 && b == 0 then 0 else (a + b) % 2 + 2 * Xor(a / 2, b / 2)
  }

  /** The hash a field contributes when it may be null: 0 for null. `String.hashCode`
      is not modelled; it is passed in. */
  function OptHash(s: Option<string>, strHash: string -> int): (h: int)
    ensures IsInt(h)
    ensures s.None? ==> h == 0
  {
    match s
    case None => 0
    case Some(t) => ToInt32(strHash(t))
  }
}
