/**
 * The amount helpers the three invoice forms share: `toNumber`, which reads a
 * form field as a number, and `money2`, which prints an amount to two
 * decimals. Amounts are exact rationals; `Math.round(x)` is `floor(x + 1/2)`
 * and `toFixed(2)` prints the rounded number of cents.
 */
module Money {
  import opened Optional
  import opened Text

  /** The characters `replace(/[^\d.]/g, "")` keeps. */
  predicate IsNumeric(c: char) {
    IsDigit(c) || c == '.'
  }

  predicate AllNumeric(s: string) {
    forall i :: 0 <= i < |s| ==> IsNumeric(s[i])
  }

  /** `String(v).replace(/[^\d.]/g, "")`: the digits and dots of `v`, in order. */
  function KeepNumeric(v: string): (r: string)
    ensures AllNumeric(r) && |r| <= |v|
    ensures forall i :: 0 <= i < |r| ==> r[i] in v
    ensures AllNumeric(v) ==> r == v
    decreases |v|
  {
    if v == [] then []
    else
      var rest := KeepNumeric(v[1..]);
      if IsNumeric(v[0]) then [v[0]] + rest else rest
  }

  function CountDots(s: string): nat
    decreases |s|
  {
    if s == [] then 0 else (if s[0] == '.' then 1 else 0) + CountDots(s[1..])
  }

  /** Splits `s` at its first dot; with no dot the whole string comes first. */
  function SplitAtDot(s: string): (r: (string, string))
    ensures '.' !in r.0
    ensures '.' in s ==> s == r.0 + "." + r.1
    ensures '.' !in s ==> r == (s, "")
    decreases |s|
  {
    if s == [] then ("", "")
    else if s[0] == '.' then ("", s[1..])
    else
      var (a, b) := SplitAtDot(s[1..]);
      assert s == [s[0]] + s[1..];
      ([s[0]] + a, b)
  }

  function Pow10(n: nat): (r: nat)
    ensures r >= 1
  {
    if n == 0 then 1 else 10 * Pow10(n - 1)
  }

  /**
   * `Number(s)` on a string of digits and dots: `None` stands for `NaN`, which
   * a second dot and a lone dot give; the empty string reads as 0, and either
   * side of the dot may be empty.
   */
  function NumberOf(s: string): Option<real>
    requires AllNumeric(s)
  {
    var (a, b) := SplitAtDot(s);
    assert AllDigits(a) by {
      if '.' in s {
        assert forall i :: 0 <= i < |a| ==> a[i] == s[i];
      }
    }
    if !AllDigits(b) || s == "." then None
    else Some(DecimalValue(a, b))
  }

  /** The value of the decimal numeral `whole.frac`. */
  function DecimalValue(whole: string, frac: string): real
    requires AllDigits(whole) && AllDigits(frac)
  {
    DigitsValue(whole) as real + DigitsValue(frac) as real / Pow10(|frac|) as real
  }

  /** `toNumber`: the number the digits and dots of `v` spell, or 0 when they spell none. */
  function ToNumber(v: string): (r: real)
    ensures r >= 0.0
  {
    match NumberOf(KeepNumeric(v))
    case Some(x) => x
    case None => 0.0
  }

  /** `Math.round(n * 100)`: the nearest whole number of cents, halves rounded up. */
  function RoundCents(n: real): (c: int)
    ensures c as real <= n * 100.0 + 0.5 < c as real + 1.0
  {
    (n * 100.0 + 0.5).Floor
  }

  /** `toFixed(2)` of `c / 100`: the sign, whole units, a dot and exactly two digits of cents. */
  function FormatCents(c: int): string {
    (if c < 0 then "-" else "") + NatToString(Magnitude(c) / 100) + "." + CentsDigits(Magnitude(c))
  }

  function Magnitude(c: int): nat {
    if c < 0 then -c else c
  }

  /** The last two decimal digits of `m`. */
  function CentsDigits(m: nat): (r: string)
    ensures |r| == 2 && AllDigits(r)
  {
    [DigitChar(m % 100 / 10), DigitChar(m % 10)]
  }

  /** `money2` */
  function Money2(n: real): (r: string)
    ensures |r| >= 4 && r[|r| - 3] == '.' && IsDigit(r[|r| - 2]) && IsDigit(r[|r| - 1])
    ensures '.' !in r[..|r| - 3]
    ensures r[0] == '-' <==> RoundCents(n) < 0
  {
    var c := RoundCents(n);
    var sign := if c < 0 then "-" else "";
    var whole := NatToString(Magnitude(c) / 100);
    var r := FormatCents(c);
    assert r[..|r| - 3] == sign + whole;
    assert IsDigit(whole[0]);
    r
  }

  lemma {:induction false} KeepNumericConcat(a: string, b: string)
    ensures KeepNumeric(a + b) == KeepNumeric(a) + KeepNumeric(b)
    decreases |a|
  {
    if a == [] {
      assert a + b == b;
    } else {
      assert (a + b)[0] == a[0];
      assert (a + b)[1..] == a[1..] + b;
      KeepNumericConcat(a[1..], b);
    }
  }

  lemma {:induction false} CountDotsConcat(a: string, b: string)
    ensures CountDots(a + b) == CountDots(a) + CountDots(b)
    decreases |a|
  {
    if a == [] {
      assert a + b == b;
    } else {
      assert (a + b)[0] == a[0];
      assert (a + b)[1..] == a[1..] + b;
      CountDotsConcat(a[1..], b);
    }
  }

  lemma {:induction false} NoDotNoCount(s: string)
    ensures '.' !in s <==> CountDots(s) == 0
    decreases |s|
  {
    if s != [] {
      NoDotNoCount(s[1..]);
      assert s == [s[0]] + s[1..];
    }
  }

  /** `replace` keeps every dot, so stripping does not change the dot count. */
  lemma {:induction false} KeepNumericKeepsDots(v: string)
    ensures CountDots(KeepNumeric(v)) == CountDots(v)
    decreases |v|
  {
    if v != [] {
      KeepNumericKeepsDots(v[1..]);
      if IsNumeric(v[0]) {
        assert ([v[0]] + KeepNumeric(v[1..]))[1..] == KeepNumeric(v[1..]);
      }
    }
  }

  /** Stripping is idempotent, so `toNumber` only sees the digits and dots. */
  lemma ToNumberOnlySeesNumeric(v: string)
    ensures KeepNumeric(KeepNumeric(v)) == KeepNumeric(v)
    ensures ToNumber(KeepNumeric(v)) == ToNumber(v)
  {
  }

  /** `NaN` comes exactly from a second dot or a lone dot. */
  lemma NumberOfNaN(s: string)
    requires AllNumeric(s)
    ensures NumberOf(s).None? <==> CountDots(s) > 1 || s == "."
  {
    var (a, b) := SplitAtDot(s);
    if '.' in s {
      CountDotsConcat(a + ".", b);
      CountDotsConcat(a, ".");
      NoDotNoCount(a);
      NoDotNoCount(b);
      assert forall i :: 0 <= i < |b| ==> b[i] == s[|a| + 1 + i];
    } else {
      NoDotNoCount(s);
      assert AllDigits(s);
    }
  }

  /** More than one dot among the kept characters reads as 0. */
  lemma ToNumberOfManyDots(v: string)
    requires CountDots(v) > 1
    ensures ToNumber(v) == 0.0
  {
    KeepNumericKeepsDots(v);
    NumberOfNaN(KeepNumeric(v));
  }

  lemma {:induction false} AllDotsCount(k: string)
    requires forall i :: 0 <= i < |k| ==> k[i] == '.'
    ensures CountDots(k) == |k|
    decreases |k|
  {
    if k != [] {
      AllDotsCount(k[1..]);
    }
  }

  /** With no digit to keep, `toNumber` is 0: `""` reads as 0 and only dots are `NaN`. */
  lemma ToNumberOfNoDigits(v: string)
    requires forall i :: 0 <= i < |v| ==> !IsDigit(v[i])
    ensures ToNumber(v) == 0.0
  {
    var k := KeepNumeric(v);
    assert forall i :: 0 <= i < |k| ==> k[i] == '.';
    AllDotsCount(k);
    NumberOfNaN(k);
    if |k| == 1 {
      assert k == [k[0]];
    }
  }

  lemma DigitsHaveNoDot(s: string)
    requires AllDigits(s)
    ensures '.' !in s && AllNumeric(s)
  {
    assert forall i :: 0 <= i < |s| ==> s[i] != '.';
  }

  /** `SplitAtDot` finds the dot after a dot-free prefix. */
  lemma {:induction false} SplitAtDotOf(a: string, b: string)
    requires '.' !in a
    ensures SplitAtDot(a + "." + b) == (a, b)
    decreases |a|
  {
    if a == [] {
      assert a + "." + b == "." + b;
      assert ("." + b)[1..] == b;
    } else {
      assert a[0] in a;
      var s := a + "." + b;
      assert s[0] == a[0];
      assert s[1..] == a[1..] + "." + b;
      SplitAtDotOf(a[1..], b);
      assert [a[0]] + a[1..] == a;
    }
  }

  /** A numeral reads back as the number it was printed from. */
  lemma ToNumberOfNumeral(n: nat)
    ensures ToNumber(NatToString(n)) == n as real
  {
    DigitsHaveNoDot(NatToString(n));
    NatToStringValue(n);
  }

  lemma TwoDigitsValue(d1: nat, d2: nat)
    requires d1 < 10 && d2 < 10
    ensures AllDigits([DigitChar(d1), DigitChar(d2)])
    ensures DigitsValue([DigitChar(d1), DigitChar(d2)]) == 10 * d1 + d2
  {
    var t := [DigitChar(d1), DigitChar(d2)];
    assert t[..1] == [DigitChar(d1)];
    assert [DigitChar(d1)][..0] == [];
    assert DigitValue(DigitChar(d1)) == d1 && DigitValue(DigitChar(d2)) == d2;
    assert DigitsValue(t[..1]) == DigitsValue([]) * 10 + d1;
    assert DigitsValue(t) == DigitsValue(t[..1]) * 10 + d2;
  }

  /** Stripping a printed amount drops only its sign. */
  lemma KeepNumericOfPrinted(sign: string, whole: string, cents: string)
    requires sign == "" || sign == "-"
    requires AllDigits(whole) && AllDigits(cents)
    ensures KeepNumeric(sign + whole + "." + cents) == whole + "." + cents
  {
    var d := whole + "." + cents;
    assert sign + whole + "." + cents == sign + d;
    assert AllNumeric(d) by {
      assert forall i :: 0 <= i < |whole| ==> d[i] == whole[i];
      assert forall i :: |whole| < i < |d| ==> d[i] == cents[i - |whole| - 1];
    }
    KeepNumericConcat(sign, d);
  }

  /** `Number` of a decimal with a fractional part. */
  lemma NumberOfDecimal(whole: string, frac: string)
    requires AllDigits(whole) && AllDigits(frac) && frac != []
    ensures AllNumeric(whole + "." + frac)
    ensures NumberOf(whole + "." + frac) == Some(DecimalValue(whole, frac))
  {
    var d := whole + "." + frac;
    assert forall i :: 0 <= i < |whole| ==> d[i] == whole[i];
    assert forall i :: |whole| < i < |d| ==> d[i] == frac[i - |whole| - 1];
    DigitsHaveNoDot(whole);
    SplitAtDotOf(whole, frac);
    assert |d| > 1;
  }

  lemma CentsDigitsValue(m: nat)
    ensures DigitsValue(CentsDigits(m)) == m % 100
  {
    TwoDigitsValue(m % 100 / 10, m % 10);
  }

  lemma CentsValue(q: nat, r: nat)
    ensures q as real + r as real / 100.0 == (100 * q + r) as real / 100.0
  {
  }

  lemma DecimalOfCents(m: nat)
    ensures DecimalValue(NatToString(m / 100), CentsDigits(m)) == m as real / 100.0
  {
    NatToStringValue(m / 100);
    CentsDigitsValue(m);
    assert Pow10(2) == 100;
    CentsValue(m / 100, m % 100);
  }

  /** Reading back printed cents gives their magnitude over 100. */
  lemma ToNumberOfCents(c: int)
    ensures ToNumber(FormatCents(c)) == Magnitude(c) as real / 100.0
  {
    var m := Magnitude(c);
    var whole := NatToString(m / 100);
    var cents := CentsDigits(m);
    KeepNumericOfPrinted(if c < 0 then "-" else "", whole, cents);
    NumberOfDecimal(whole, cents);
    DecimalOfCents(m);
  }

  /**
   * `money2` prints exactly the rounded amount: reading it back with
   * `toNumber` gives the number of cents over 100 (without its sign, which
   * `toNumber` strips).
   */
  lemma Money2RoundTrip(n: real)
    ensures ToNumber(Money2(n)) == Magnitude(RoundCents(n)) as real / 100.0
  {
    ToNumberOfCents(RoundCents(n));
  }

  /** A non-negative amount is printed to within half a cent. */
  lemma Money2IsNearest(n: real)
    requires n >= 0.0
    ensures ToNumber(Money2(n)) == RoundCents(n) as real / 100.0
    ensures n - 0.005 < ToNumber(Money2(n)) <= n + 0.005
  {
    Money2RoundTrip(n);
  }
}
