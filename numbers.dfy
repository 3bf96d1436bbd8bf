/** Python's number builtins that the tracker relies on, over exact reals:
    `round(x, n)` and the fixed-point format specifier `{x:.nf}`.
    Both round half to even, as CPython does; a decimal parser is the
    inverse that pins down what a formatted string means. */
module Numbers {
  import opened Wrappers

  function Pow10(n: nat): (p: nat)
    ensures p >= 1
  {
    if n == 0 then 1 else 10 * Pow10(n - 1)
  }

  function Abs(x: real): (r: real)
    ensures r >= 0.0 && (r == x || r == -x)
  {
    if x < 0.0 then -x else x
  }

  /** The integer nearest to x; of two equally near, the even one. */
  function RoundHalfEven(x: real): (n: int)
    ensures -0.5 <= n as real - x <= 0.5
    ensures (n as real - x == 0.5 || n as real - x == -0.5) ==> n % 2 == 0
    ensures x >= 0.0 ==> n >= 0
  {
    var f := x.Floor;
    var d := x - f as real;
    if d < 0.5 then f
    else if d > 0.5 then f + 1
    else if f % 2 == 0 then f else f + 1
  }

  /** The two conditions of RoundHalfEven's contract determine its result. */
  lemma RoundHalfEvenUnique(x: real, m: int)
    requires -0.5 <= m as real - x <= 0.5
    requires (m as real - x == 0.5 || m as real - x == -0.5) ==> m % 2 == 0
    ensures m == RoundHalfEven(x)
  {
  }

  lemma RoundHalfEvenOfInt(k: int)
    ensures RoundHalfEven(k as real) == k
  {
    RoundHalfEvenUnique(k as real, k);
  }

  /** Rounding half to even is symmetric about zero. */
  lemma RoundHalfEvenNegate(x: real)
    ensures RoundHalfEven(-x) == -RoundHalfEven(x)
  {
    var n := RoundHalfEven(x);
    assert (-n) % 2 == 0 <==> n % 2 == 0;
    RoundHalfEvenUnique(-x, -n);
  }

  /** x * 10^digits, written as repeated multiplication by ten. */
  function Scale(x: real, digits: nat): (y: real)
    decreases digits
    ensures x >= 0.0 ==> y >= 0.0
  {
    if digits == 0 then x else 10.0 * Scale(x, digits - 1)
  }

  /** y / 10^digits, written as repeated division by ten. */
  function Unscale(y: real, digits: nat): (x: real)
    decreases digits
    ensures y >= 0.0 ==> x >= 0.0
  {
    if digits == 0 then y else Unscale(y / 10.0, digits - 1)
  }

  /** Scaling by 10^(d+1) is scaling by 10^d after one factor of ten. */
  lemma {:induction false} ScaleShift(x: real, digits: nat)
    decreases digits
    ensures Scale(10.0 * x, digits) == 10.0 * Scale(x, digits)
  {
    if digits > 0 {
      ScaleShift(x, digits - 1);
    }
  }

  lemma {:induction false} ScaleUnscale(y: real, digits: nat)
    decreases digits
    ensures Scale(Unscale(y, digits), digits) == y
  {
    if digits > 0 {
      ScaleUnscale(y / 10.0, digits - 1);
      ScaleShift(Unscale(y / 10.0, digits - 1), digits - 1);
    }
  }

  lemma {:induction false} UnscaleScale(x: real, digits: nat)
    decreases digits
    ensures Unscale(Scale(x, digits), digits) == x
  {
    if digits > 0 {
      ScaleShift(x, digits - 1);
      UnscaleScale(x, digits - 1);
    }
  }

  lemma {:induction false} ScaleNegate(x: real, digits: nat)
    decreases digits
    ensures Scale(-x, digits) == -Scale(x, digits)
  {
    if digits > 0 {
      ScaleNegate(x, digits - 1);
    }
  }

  lemma {:induction false} ScaleOfInt(k: int, digits: nat)
    ensures Scale(k as real, digits) == (k * Pow10(digits)) as real
  {
    if digits > 0 {
      ScaleOfInt(k, digits - 1);
      assert k * Pow10(digits) == 10 * (k * Pow10(digits - 1));
    }
  }

  /** x counted in steps of 10^-digits, rounded half to even. */
  function Steps(x: real, digits: nat): (n: int)
    ensures x >= 0.0 ==> n >= 0
  {
    RoundHalfEven(Scale(x, digits))
  }

  /** Python's `round(x, digits)`: a whole number of 10^-digits steps, namely
      x's step count rounded half to even. */
  function Round(x: real, digits: nat): (r: real)
    ensures Scale(r, digits) == Steps(x, digits) as real
    ensures x >= 0.0 ==> r >= 0.0
  {
    ScaleUnscale(Steps(x, digits) as real, digits);
    Unscale(Steps(x, digits) as real, digits)
  }

  lemma RoundOfInt(k: int, digits: nat)
    ensures Round(k as real, digits) == k as real
  {
    ScaleOfInt(k, digits);
    RoundHalfEvenOfInt(k * Pow10(digits));
    UnscaleScale(k as real, digits);
  }

  /** Rounding to hundredths keeps a value inside any interval with
      whole-number ends. */
  lemma RoundHundredthsWithin(x: real, lo: int, hi: int)
    requires lo as real <= x <= hi as real
    ensures lo as real <= Round(x, 2) <= hi as real
  {
    var m := Steps(x, 2);
    assert Scale(x, 1) == 10.0 * x;
    assert Scale(x, 2) == 100.0 * x;
    assert lo * 100 <= m <= hi * 100;
    assert Unscale(m as real / 10.0, 1) == m as real / 100.0;
    assert Round(x, 2) == m as real / 100.0;
  }

  /** round(x, 2) is a whole number of hundredths no farther than half a
      hundredth from x. */
  lemma RoundHundredthsClose(x: real)
    ensures -0.005 <= Round(x, 2) - x <= 0.005
    ensures 100.0 * Round(x, 2) == Steps(x, 2) as real
  {
    var r := Round(x, 2);
    assert Scale(x, 1) == 10.0 * x;
    assert Scale(r, 1) == 10.0 * r;
  }

  // ---- digit strings ----

  predicate IsDigit(c: char) {
    '0' <= c <= '9'
  }

  predicate AllDigits(s: string) {
    forall i :: 0 <= i < |s| ==> IsDigit(s[i])
  }

  /** The number a string of decimal digits denotes. */
  function DigitsValue(s: string): int
  {
    if s == [] then 0 else DigitsValue(s[..|s| - 1]) * 10 + (s[|s| - 1] as int - '0' as int)
  }

  /** Decimal notation of n, without leading zeros. */
  function NatToString(n: nat): (s: string)
    ensures s != [] && AllDigits(s)
    ensures |s| > 1 ==> s[0] != '0'
  {
    if n < 10 then ["0123456789"[n]] else NatToString(n / 10) + ["0123456789"[n % 10]]
  }

  lemma {:induction false} NatToStringRoundTrip(n: nat)
    ensures DigitsValue(NatToString(n)) == n
  {
    var s := NatToString(n);
    if n >= 10 {
      NatToStringRoundTrip(n / 10);
      assert s[..|s| - 1] == NatToString(n / 10);
    }
  }

  function Zeros(k: nat): (z: string)
    ensures |z| == k && AllDigits(z)
  {
    if k == 0 then "" else Zeros(k - 1) + "0"
  }

  /** `s` left-padded with zeros to `width` characters. */
  function ZeroPad(s: string, width: nat): (r: string)
    ensures |r| >= width && |r| >= |s|
    ensures |s| <= width ==> |r| == width
  {
    if |s| < width then Zeros(width - |s|) + s else s
  }

  lemma {:induction false} DigitsValueConcat(a: string, b: string)
    ensures DigitsValue(a + b) == DigitsValue(a) * Pow10(|b|) + DigitsValue(b)
  {
    if b == [] {
      assert a + b == a;
    } else {
      var b' := b[..|b| - 1];
      var d := b[|b| - 1] as int - '0' as int;
      var ab := a + b;
      assert ab[..|ab| - 1] == a + b';
      assert ab[|ab| - 1] == b[|b| - 1];
      DigitsValueConcat(a, b');
      var va, vb', p := DigitsValue(a), DigitsValue(b'), Pow10(|b'|);
      assert Pow10(|b|) == 10 * p;
      calc {
        DigitsValue(ab);
        DigitsValue(a + b') * 10 + d;
        (va * p + vb') * 10 + d;
        { MulDistrib(va, p, vb'); }
        va * (10 * p) + (vb' * 10 + d);
      }
    }
  }

  lemma MulDistrib(va: int, p: int, vb: int)
    ensures (va * p + vb) * 10 == va * (10 * p) + vb * 10
  {
  }

  lemma {:induction false} ZerosValue(k: nat)
    ensures DigitsValue(Zeros(k)) == 0
  {
    if k > 0 {
      ZerosValue(k - 1);
      assert Zeros(k)[..k - 1] == Zeros(k - 1);
    }
  }

  // ---- the `{x:.nf}` format ----

  /** `{x:.nf}` with n = digits: an optional minus sign, then |x| rounded
      to `digits` places. */
  function FormatFixed(x: real, digits: nat): (s: string)
    ensures s != [] && (s[0] == '-' <==> x < 0.0)
    ensures x >= 0.0 ==> IsDigit(s[0])
  {
    FixedDigitsLeadingDigit(Steps(Abs(x), digits), digits);
    (if x < 0.0 then "-" else "") + FixedDigits(Steps(Abs(x), digits), digits)
  }

  /** A count of 10^-digits steps in decimal notation: the integer part and,
      when digits > 0, a point followed by exactly `digits` digits. */
  function FixedDigits(n: nat, digits: nat): string
  {
    InsertPoint(ZeroPad(NatToString(n), digits + 1), digits)
  }

  /** s with a point before its last `digits` characters (none when digits = 0). */
  function InsertPoint(s: string, digits: nat): string
    requires digits <= |s|
  {
    if digits == 0 then s else s[..|s| - digits] + ("." + s[|s| - digits..])
  }

  /** Position of the first '.', or |s| when there is none. */
  function DotIndex(s: string): (i: nat)
    ensures i <= |s|
    ensures i < |s| ==> s[i] == '.'
    ensures forall j :: 0 <= j < i ==> s[j] != '.'
  {
    if s == [] then 0 else if s[0] == '.' then 0 else 1 + DotIndex(s[1..])
  }

  /** A numeral as read back: its sign, its digits with the point taken out,
      and how many of those digits follow the point. */
  datatype Numeral = Numeral(negative: bool, digits: string, places: nat)

  /** The numeral's value in units of 10^-places. */
  function NumeralSteps(m: Numeral): int
  {
    if m.negative then -DigitsValue(m.digits) else DigitsValue(m.digits)
  }

  function NumeralValue(m: Numeral): real
  {
    Unscale(NumeralSteps(m) as real, m.places)
  }

  /** Reads `[-]digits[.digits]` back as a numeral. */
  function ParseDecimal(s: string): Option<Numeral>
  {
    if |s| > 0 && s[0] == '-' then
      match ParseUnsigned(s[1..])
      case None => None
      case Some(m) => Some(m.(negative := true))
    else ParseUnsigned(s)
  }

  function ParseUnsigned(s: string): Option<Numeral>
  {
    var i := DotIndex(s);
    var whole := s[..i];
    if whole == [] || !AllDigits(whole) then None
    else if i == |s| then Some(Numeral(false, whole, 0))
    else
      var frac := s[i + 1..];
      if frac == [] || !AllDigits(frac) then None
      else Some(Numeral(false, whole + frac, |frac|))
  }

  lemma {:induction false} DotIndexOfDigits(ip: string, rest: string)
    requires AllDigits(ip)
    requires rest == [] || rest[0] == '.'
    ensures DotIndex(ip + rest) == |ip|
  {
    if ip == [] {
      assert ip + rest == rest;
    } else {
      assert (ip + rest)[1..] == ip[1..] + rest;
      DotIndexOfDigits(ip[1..], rest);
    }
  }

  lemma ParseWhole(s: string)
    requires s != [] && AllDigits(s)
    ensures ParseUnsigned(s) == Some(Numeral(false, s, 0))
  {
    DotIndexOfDigits(s, "");
    assert s + "" == s;
    assert s[..|s|] == s;
  }

  lemma ParseWholeDotFraction(whole: string, frac: string)
    requires whole != [] && frac != [] && AllDigits(whole) && AllDigits(frac)
    ensures ParseUnsigned(whole + ("." + frac)) == Some(Numeral(false, whole + frac, |frac|))
  {
    var t := whole + ("." + frac);
    DotIndexOfDigits(whole, "." + frac);
    assert t[..|whole|] == whole;
    assert t[|whole| + 1..] == frac;
  }

  lemma {:induction false} ZeroPadValue(s: string, width: nat)
    ensures DigitsValue(ZeroPad(s, width)) == DigitsValue(s)
  {
    if |s| < width {
      var z := Zeros(width - |s|);
      DigitsValueConcat(z, s);
      ZerosValue(width - |s|);
      assert DigitsValue(z) * Pow10(|s|) == 0;
      assert ZeroPad(s, width) == z + s;
    }
  }

  /** FixedDigits(n, digits) reads back as an unsigned numeral for n steps of
      10^-digits. */
  lemma FixedDigitsRoundTrip(n: nat, digits: nat)
    ensures ParseUnsigned(FixedDigits(n, digits)).Some?
    ensures var m := ParseUnsigned(FixedDigits(n, digits)).value;
      !m.negative && m.places == digits && DigitsValue(m.digits) == n
  {
    var s := PaddedDigits(n, digits);
    InsertPointRoundTrip(s, digits);
  }

  /** The zero-padded numeral inside FixedDigits. */
  lemma PaddedDigits(n: nat, digits: nat) returns (s: string)
    ensures s == ZeroPad(NatToString(n), digits + 1)
    ensures AllDigits(s) && DigitsValue(s) == n && |s| > digits
  {
    s := ZeroPad(NatToString(n), digits + 1);
    ZeroPadValue(NatToString(n), digits + 1);
    NatToStringRoundTrip(n);
    ZeroPadDigits(NatToString(n), digits + 1);
  }

  lemma ZeroPadDigits(s: string, width: nat)
    requires AllDigits(s)
    ensures AllDigits(ZeroPad(s, width))
  {
    if |s| < width {
      var z := Zeros(width - |s|);
      assert forall i :: 0 <= i < |z + s| ==> (z + s)[i] == if i < |z| then z[i] else s[i - |z|];
    }
  }

  lemma InsertPointRoundTrip(s: string, digits: nat)
    requires AllDigits(s) && digits < |s|
    ensures ParseUnsigned(InsertPoint(s, digits)) == Some(Numeral(false, s, digits))
  {
    if digits == 0 {
      ParseWhole(s);
    } else {
      var k := |s| - digits;
      DigitSlices(s, k);
      ParseWholeDotFraction(s[..k], s[k..]);
      assert s[..k] + s[k..] == s;
    }
  }

  lemma DigitSlices(s: string, k: nat)
    requires AllDigits(s) && k <= |s|
    ensures AllDigits(s[..k]) && AllDigits(s[k..])
  {
  }

  /** The formatted string reads back as a numeral with the sign of x and
      exactly `digits` places that denotes round(x, digits): the two Python
      builtins agree. */
  lemma FormatFixedRoundTrip(x: real, digits: nat)
    ensures ParseDecimal(FormatFixed(x, digits)).Some?
    ensures var m := ParseDecimal(FormatFixed(x, digits)).value;
      m.negative == (x < 0.0) && m.places == digits &&
      NumeralSteps(m) == Steps(x, digits) && NumeralValue(m) == Round(x, digits)
  {
    var n: nat := Steps(Abs(x), digits);
    var u := FixedDigits(n, digits);
    FixedDigitsRoundTrip(n, digits);
    FixedDigitsLeadingDigit(n, digits);
    var m := ParseUnsigned(u).value;
    if x < 0.0 {
      StepsOfNegative(x, digits);
      assert FormatFixed(x, digits) == "-" + u;
      ParseMinus(u, m);
    } else {
      assert FormatFixed(x, digits) == u;
      ParsePlain(u, m);
    }
  }

  /** `f"{2.0:.2f}"` is "2.00". */
  lemma FormatTwoPlacesExample()
    ensures FormatFixed(2.0, 2) == "2.00"
  {
    ScaleOfInt(2, 2);
    RoundHalfEvenOfInt(200);
    assert NatToString(200) == "200";
    assert FixedDigits(200, 2) == "2" + ("." + "00");
  }

  /** `f"{40.0:.1f}"` is "40.0". */
  lemma FormatOnePlaceExample()
    ensures FormatFixed(40.0, 1) == "40.0"
  {
    ScaleOfInt(40, 1);
    RoundHalfEvenOfInt(400);
    assert NatToString(400) == "400";
    assert FixedDigits(400, 1) == "40" + ("." + "0");
  }

  lemma StepsOfNegative(x: real, digits: nat)
    requires x < 0.0
    ensures Steps(Abs(x), digits) == -Steps(x, digits)
  {
    ScaleNegate(x, digits);
    RoundHalfEvenNegate(Scale(x, digits));
  }

  lemma FixedDigitsLeadingDigit(n: nat, digits: nat)
    ensures FixedDigits(n, digits) != [] && IsDigit(FixedDigits(n, digits)[0])
  {
    var s := ZeroPad(NatToString(n), digits + 1);
    ZeroPadDigits(NatToString(n), digits + 1);
    assert IsDigit(s[0]);
  }

  lemma ParsePlain(u: string, m: Numeral)
    requires u != [] && IsDigit(u[0]) && ParseUnsigned(u) == Some(m)
    ensures ParseDecimal(u) == Some(m)
  {
  }

  lemma ParseMinus(u: string, m: Numeral)
    requires ParseUnsigned(u) == Some(m)
    ensures ParseDecimal("-" + u) == Some(m.(negative := true))
  {
    assert ("-" + u)[1..] == u;
  }
}
