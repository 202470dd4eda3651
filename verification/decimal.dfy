/** Python's `str()` of an int and `int()` of a str, restricted to plain
    decimal literals: an optional sign followed by ASCII digits. Both
    directions obey CPython's default limit on the number of decimal digits
    a conversion may handle (`sys.get_int_max_str_digits()`, 4300 since
    CPython 3.11). */
module Decimal {
  import opened Results

  /** CPython's default limit on the digits of an int/str conversion; a
      longer conversion raises ValueError. */
  const MaxStrDigits: nat := 4300

  predicate IsDigit(c: char) {
    '0' <= c <= '9'
  }

  predicate AllDigits(s: string) {
    forall i :: 0 <= i < |s| ==> IsDigit(s[i])
  }

  function Abs(n: int): nat {
    if n < 0 then -n else n
  }

  /** The character of one decimal digit. */
  function DigitChar(d: nat): (c: char)
    requires d < 10
    ensures IsDigit(c)
    ensures c as int - '0' as int == d
  {
    ('0' as int + d) as char
  }

  /** The value of a string of decimal digits, most significant first. */
  function DigitsValue(s: string): nat
    requires AllDigits(s)
  {
    if s == [] then 0
    else DigitsValue(s[..|s| - 1]) * 10 + (s[|s| - 1] as int - '0' as int)
  }

  /** The decimal digits of n, most significant first, with no leading zero. */
  function NatToDigits(n: nat): (s: string)
    ensures 1 <= |s|
    ensures AllDigits(s)
    ensures s[0] == '0' ==> n == 0
    decreases n
  {
    if n < 10 then [DigitChar(n)]
    else NatToDigits(n / 10) + [DigitChar(n % 10)]
  }

  /** The number of decimal digits of n, sign not counted. */
  function DigitCount(n: int): nat {
    |NatToDigits(Abs(n))|
  }

  /** The text after an optional leading sign. */
  function Unsigned(s: string): string {
    if |s| > 0 && (s[0] == '-' || s[0] == '+') then s[1..] else s
  }

  /** The texts `int()` accepts in this model: an optional sign, then
      between one and MaxStrDigits ASCII digits. */
  predicate IsDecimalLiteral(s: string) {
    var digits := Unsigned(s);
    digits != [] && AllDigits(digits) && |digits| <= MaxStrDigits
  }

  /** The canonical text of an int: no '+', no leading zero, no "-0". */
  predicate IsCanonical(s: string) {
    var digits := if |s| > 0 && s[0] == '-' then s[1..] else s;
    && digits != []
    && AllDigits(digits)
    && (digits[0] != '0' || digits == "0")
    && s != "-0"
  }

  /** The decimal rendering of n that `str()` produces: a minus sign for
      negative numbers, then the digits without leading zeros. */
  function IntToDecimal(n: int): (s: string)
    ensures 1 <= |s|
    ensures s[0] == '-' <==> n < 0
    ensures n < 0 ==> |s| >= 2 && AllDigits(s[1..]) && s[1] != '0'
    ensures n > 0 ==> AllDigits(s) && s[0] != '0'
    ensures n == 0 ==> s == "0"
    ensures IsCanonical(s)
    ensures |Unsigned(s)| == DigitCount(n)
  {
    if n < 0 then "-" + NatToDigits(-n) else NatToDigits(n)
  }

  /** `str(n)`: the canonical rendering, or None for the ValueError CPython
      raises when n has more than MaxStrDigits digits. */
  function StrOfInt(n: int): (r: Option<string>)
    ensures r.Some? <==> DigitCount(n) <= MaxStrDigits
    ensures r.Some? ==> r.value == IntToDecimal(n)
  {
    if DigitCount(n) <= MaxStrDigits then Some(IntToDecimal(n)) else None
  }

  /** `int(s)` for a Python str holding an optionally signed decimal literal;
      None stands for the ValueError Python raises on any other text. */
  function ParseDecimal(s: string): (r: Option<int>)
    ensures r.Some? <==> IsDecimalLiteral(s)
    ensures r.Some? && r.value < 0 ==> s[0] == '-'
    ensures r.Some? && s[0] == '-' ==> r.value <= 0
    ensures AllDigits(s) && s != [] && |s| <= MaxStrDigits ==> r.Some? && r.value >= 0
  {
    if !IsDecimalLiteral(s) then None
    else
      var magnitude: int := DigitsValue(Unsigned(s));
      Some(if s[0] == '-' then -magnitude else magnitude)
  }

  /** Reading back the digits of n gives n. */
  lemma {:induction false} DigitsRoundTrip(n: nat)
    ensures DigitsValue(NatToDigits(n)) == n
    decreases n
  {
    if n >= 10 {
      DigitsRoundTrip(n / 10);
      var s := NatToDigits(n / 10) + [DigitChar(n % 10)];
      assert s[..|s| - 1] == NatToDigits(n / 10);
    }
  }

  /** A digit string that does not start with '0' has a positive value. */
  lemma {:induction false} LeadingNonZeroPositive(d: string)
    requires d != [] && AllDigits(d) && d[0] != '0'
    ensures DigitsValue(d) >= 1
    decreases |d|
  {
    if |d| > 1 {
      var prefix := d[..|d| - 1];
      assert prefix[0] == d[0];
      LeadingNonZeroPositive(prefix);
    }
  }

  /** A digit string without leading zeros is the rendering of its value:
      rendering and reading are inverse on canonical digit strings. */
  lemma {:induction false} CanonicalDigits(d: string)
    requires d != [] && AllDigits(d) && (d[0] != '0' || |d| == 1)
    ensures NatToDigits(DigitsValue(d)) == d
    decreases |d|
  {
    var last := d[|d| - 1];
    if |d| == 1 {
      assert DigitsValue(d) == last as int - '0' as int;
      assert DigitChar(DigitsValue(d)) as int == last as int;
    } else {
      var prefix := d[..|d| - 1];
      assert prefix[0] == d[0];
      LeadingNonZeroPositive(prefix);
      CanonicalDigits(prefix);
      var n := DigitsValue(d);
      assert n == DigitsValue(prefix) * 10 + (last as int - '0' as int);
      assert n / 10 == DigitsValue(prefix) && n % 10 == last as int - '0' as int;
      assert DigitChar(n % 10) as int == last as int;
      assert d == prefix + [last];
    }
  }

  /** `int(str(n)) == n` whenever `str(n)` succeeds; when n has too many
      digits both directions raise ValueError. */
  lemma DecimalRoundTrip(n: int)
    ensures DigitCount(n) <= MaxStrDigits ==> ParseDecimal(IntToDecimal(n)) == Some(n)
    ensures DigitCount(n) > MaxStrDigits ==> StrOfInt(n) == None && ParseDecimal(IntToDecimal(n)) == None
  {
    var s := IntToDecimal(n);
    if n < 0 {
      var digits := NatToDigits(-n);
      assert s[1..] == digits;
      DigitsRoundTrip(-n);
      assert DigitsValue(digits) == -n;
    } else {
      DigitsRoundTrip(n);
      assert s[0] != '-' && s[0] != '+';
    }
  }

  /** IntToDecimal(n) is the only canonical text that `int()` reads as n. */
  lemma CanonicalIsRendering(s: string, n: int)
    requires IsCanonical(s) && ParseDecimal(s) == Some(n)
    ensures s == IntToDecimal(n)
  {
    if s[0] == '-' {
      var digits := s[1..];
      CanonicalDigits(digits);
      assert digits != "0";
      LeadingNonZeroPositive(digits);
      assert s == "-" + digits;
    } else {
      CanonicalDigits(s);
    }
  }

  /** Two ints render to the same text only if they are equal. */
  lemma DecimalInjective(m: int, n: int)
    requires IntToDecimal(m) == IntToDecimal(n)
    ensures m == n
  {
    var s := IntToDecimal(m);
    DigitsRoundTrip(Abs(m));
    DigitsRoundTrip(Abs(n));
    if m < 0 {
      assert s[1..] == NatToDigits(-m) == NatToDigits(-n);
    }
  }

  /** A leading '+' changes nothing. */
  lemma PlusSignIgnored(d: string)
    requires d != [] && AllDigits(d)
    ensures ParseDecimal("+" + d) == ParseDecimal(d)
  {
    assert ("+" + d)[1..] == d;
  }

  /** A leading '-' negates the value, and is accepted exactly when the
      digits alone are. */
  lemma MinusSignNegates(d: string)
    requires d != [] && AllDigits(d)
    ensures ParseDecimal("-" + d).Some? <==> ParseDecimal(d).Some?
    ensures ParseDecimal(d).Some? ==> ParseDecimal("-" + d) == Some(-ParseDecimal(d).value)
  {
    assert ("-" + d)[1..] == d;
  }

  /** The value of digits does not change with a leading zero. */
  lemma {:induction false} LeadingZeroValue(d: string)
    requires AllDigits(d)
    ensures AllDigits("0" + d) && DigitsValue("0" + d) == DigitsValue(d)
    decreases |d|
  {
    var z := "0" + d;
    assert AllDigits(z) by {
      forall i | 0 <= i < |z| ensures IsDigit(z[i]) {
        if i > 0 { assert z[i] == d[i - 1]; }
      }
    }
    if d != [] {
      var prefix := d[..|d| - 1];
      assert z[..|z| - 1] == "0" + prefix;
      assert z[|z| - 1] == d[|d| - 1];
      LeadingZeroValue(prefix);
    }
  }

  /** Zero padding does not change the value, until the padded text exceeds
      MaxStrDigits digits and `int()` raises ValueError. */
  lemma LeadingZeroIgnored(d: string)
    requires d != [] && AllDigits(d)
    ensures |d| < MaxStrDigits ==> ParseDecimal("0" + d) == ParseDecimal(d)
    ensures |d| >= MaxStrDigits ==> ParseDecimal("0" + d) == None
  {
    LeadingZeroValue(d);
  }
}
