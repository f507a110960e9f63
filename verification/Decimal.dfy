/**
 * Deciding whether the text of a numeric field may be sent as a number: only decimal literals whose exact magnitude is
 * within the safe integers of JavaScript, decided by counting places and comparing digit strings.
 */
module Decimal {
  import opened Common

  // ---- Numerals and powers of ten ----

  predicate Digits(s: string) { forall i :: 0 <= i < |s| ==> Digit(s[i]) }

  function Numeral(s: string): nat
    requires Digits(s)
  {
    if s == "" then 0 else 10 * Numeral(s[..|s| - 1]) + (s[|s| - 1] as int - '0' as int)
  }

  function Tens(n: nat): (r: nat)
    ensures r >= 1
  {
    if n == 0 then 1 else 10 * Tens(n - 1)
  }

  /** Ten to any whole power. */
  function Scale(k: int): (r: real)
    ensures r > 0.0
    decreases if k < 0 then -k else k
  {
    if k == 0 then 1.0 else if k > 0 then 10.0 * Scale(k - 1) else Scale(k + 1) / 10.0
  }

  lemma {:induction false} ScaleIsTens(n: nat)
    ensures Scale(n) == Tens(n) as real
  {
    if n > 0 { ScaleIsTens(n - 1); }
  }

  lemma ScaleSteps(k: int)
    ensures Scale(k + 1) == 10.0 * Scale(k)
  {
  }

  lemma ScaleStarts()
    ensures Scale(0) == 1.0
  {
  }

  lemma TenTimes(a: real, b: real)
    ensures 10.0 * (a * b) == a * (10.0 * b)
  {
  }

  lemma {:induction false} ScaleAdds(j: int, k: int)
    ensures Scale(j + k) == Scale(j) * Scale(k)
    decreases if k < 0 then -k else k
  {
    hide Scale;
    if k == 0 {
      ScaleStarts();
    } else if k > 0 {
      ScaleAdds(j, k - 1);
      ScaleSteps(j + k - 1);
      ScaleSteps(k - 1);
      TenTimes(Scale(j), Scale(k - 1));
    } else {
      ScaleAdds(j, k + 1);
      ScaleSteps(j + k);
      ScaleSteps(k);
      TenTimes(Scale(j), Scale(k));
    }
  }

  lemma MulTen(x: int, y: int)
    ensures 10 * (x * y) == x * (10 * y)
  {}

  lemma {:induction false} NumeralJoins(a: string, b: string)
    requires Digits(a) && Digits(b)
    ensures Digits(a + b) && Numeral(a + b) == Numeral(a) * Tens(|b|) + Numeral(b)
  {
    if b == "" {
      assert a + b == a;
    } else {
      var init := b[..|b| - 1];
      assert (a + b)[..|a + b| - 1] == a + init;
      NumeralJoins(a, init);
      MulTen(Numeral(a), Tens(|init|));
    }
  }

  lemma {:induction false} NumeralFits(s: string)
    requires Digits(s)
    ensures Numeral(s) < Tens(|s|)
  {
    if s != "" { NumeralFits(s[..|s| - 1]); }
  }

  lemma {:induction false} NumeralIsLarge(s: string)
    requires Digits(s) && s != "" && s[0] != '0'
    ensures Numeral(s) >= Tens(|s| - 1)
  {
    if |s| > 1 { NumeralIsLarge(s[..|s| - 1]); }
  }

  predicate AllZeros(s: string) { forall i :: 0 <= i < |s| ==> s[i] == '0' }

  lemma {:induction false} ZeroNumeral(s: string)
    requires Digits(s)
    ensures Numeral(s) == 0 <==> AllZeros(s)
  {
    if s != "" {
      var init := s[..|s| - 1];
      ZeroNumeral(init);
      assert forall i :: 0 <= i < |init| ==> init[i] == s[i];
    }
  }

  // ---- Literals ----

  datatype Exponent = Exponent(mark: char, sign: string, digits: string)

  /** The parts of a decimal literal. */
  datatype Literal = Literal(sign: string, whole: string, point: bool, fraction: string, exponent: Option<Exponent>)

  predicate Sign(s: string) { s == "" || s == "+" || s == "-" }

  predicate GoodExponent(e: Option<Exponent>) {
    e.Some? ==> (e.value.mark == 'e' || e.value.mark == 'E') && Sign(e.value.sign)
                && Digits(e.value.digits) && e.value.digits != ""
  }

  predicate WellFormed(l: Literal) {
    && Sign(l.sign) && Digits(l.whole) && Digits(l.fraction)
    && (l.whole != "" || (l.point && l.fraction != ""))
    && (!l.point ==> l.fraction == "")
    && GoodExponent(l.exponent)
  }

  function ExponentText(e: Option<Exponent>): string {
    if e.Some? then [e.value.mark] + (e.value.sign + e.value.digits) else ""
  }

  function PointText(point: bool): string { if point then "." else "" }

  function Unsigned(l: Literal): string {
    l.whole + (PointText(l.point) + (l.fraction + ExponentText(l.exponent)))
  }

  function Written(l: Literal): string { l.sign + Unsigned(l) }

  function LeadingDigits(s: string): (n: nat)
    ensures n <= |s| && Digits(s[..n]) && (n < |s| ==> !Digit(s[n]))
  {
    if s == "" || !Digit(s[0]) then 0
    else
      var n := LeadingDigits(s[1..]);
      assert s[..n + 1] == [s[0]] + s[1..][..n];
      n + 1
  }

  function LeadingSign(s: string): nat { if s != "" && (s[0] == '+' || s[0] == '-') then 1 else 0 }

  /** The optional exponent at the end; none when there is nothing, and no match when there is something else. */
  function MatchExponent(s: string): Option<Option<Exponent>> {
    if s == "" then Some(None)
    else if s[0] != 'e' && s[0] != 'E' then None
    else
      var n := LeadingSign(s[1..]);
      var digits := s[1 + n..];
      if digits != "" && LeadingDigits(digits) == |digits| then Some(Some(Exponent(s[0], s[1..1 + n], digits))) else None
  }

  /** A literal without its sign. */
  function MatchUnsigned(s: string): Option<Literal> {
    var n := LeadingDigits(s);
    var point := n < |s| && s[n] == '.';
    var rest := s[if point then n + 1 else n..];
    var f := if point then LeadingDigits(rest) else 0;
    var e := MatchExponent(rest[f..]);
    if e.None? || (n == 0 && f == 0) then None else Some(Literal("", s[..n], point, rest[..f], e.value))
  }

  /** The whole text as a decimal literal. */
  function Match(s: string): Option<Literal> {
    var n := LeadingSign(s);
    var l := MatchUnsigned(s[n..]);
    if l.None? then None else Some(l.value.(sign := s[..n]))
  }

  lemma {:induction false} DigitsStop(d: string, x: string)
    requires Digits(d) && (x == "" || !Digit(x[0]))
    ensures LeadingDigits(d + x) == |d| && (d + x)[..|d|] == d && (d + x)[|d|..] == x
  {
    if d == "" {
      assert d + x == x;
    } else {
      assert (d + x)[1..] == d[1..] + x;
      DigitsStop(d[1..], x);
    }
  }

  lemma SignStops(sign: string, x: string)
    requires Sign(sign) && (x == "" || (x[0] != '+' && x[0] != '-'))
    ensures LeadingSign(sign + x) == |sign| && (sign + x)[..|sign|] == sign && (sign + x)[|sign|..] == x
  {
    if sign == "" { assert sign + x == x; }
  }

  lemma {:induction false} ExponentIsMatched(e: Option<Exponent>)
    requires GoodExponent(e)
    ensures MatchExponent(ExponentText(e)) == Some(e)
  {
    if e.Some? {
      hide LeadingDigits, LeadingSign;
      var s, d := ExponentText(e), e.value.digits;
      assert s[1..] == e.value.sign + d;
      SignStops(e.value.sign, d);
      assert s[1 + |e.value.sign|..] == d;
      assert s[1..1 + |e.value.sign|] == e.value.sign;
      assert d + "" == d;
      DigitsStop(d, "");
    }
  }

  lemma ExponentOpens(e: Option<Exponent>)
    requires GoodExponent(e)
    ensures var t := ExponentText(e);
            t == "" || (!Digit(t[0]) && t[0] != '.' && t[0] != '+' && t[0] != '-')
  {
  }

  lemma {:induction false} UnsignedIsMatched(l: Literal)
    requires WellFormed(l)
    ensures MatchUnsigned(Unsigned(l)) == Some(l.(sign := ""))
  {
    hide LeadingDigits, MatchExponent, ExponentText;
    var tail := ExponentText(l.exponent);
    var fraction := l.fraction + tail;
    var point := PointText(l.point) + fraction;
    ExponentOpens(l.exponent);
    ExponentIsMatched(l.exponent);
    if l.point {
      DigitsStop(l.whole, point);
      assert (l.whole + point)[|l.whole| + 1..] == fraction;
      DigitsStop(l.fraction, tail);
    } else {
      assert point == tail;
      DigitsStop(l.whole, point);
    }
  }

  /** Reading back what a literal is written as gives the literal. */
  lemma {:induction false} WrittenIsMatched(l: Literal)
    requires WellFormed(l)
    ensures Match(Written(l)) == Some(l)
  {
    hide MatchUnsigned, LeadingSign;
    UnsignedOpens(l);
    UnsignedIsMatched(l);
    SignStops(l.sign, Unsigned(l));
  }

  lemma UnsignedOpens(l: Literal)
    requires WellFormed(l)
    ensures Unsigned(l) != "" && Unsigned(l)[0] != '+' && Unsigned(l)[0] != '-'
  {
  }

  lemma {:induction false} ExponentIsWritten(s: string)
    requires MatchExponent(s).Some?
    ensures ExponentText(MatchExponent(s).value) == s && GoodExponent(MatchExponent(s).value)
  {
    if s != "" {
      var n := LeadingSign(s[1..]);
      var digits := s[1 + n..];
      assert s == [s[0]] + (s[1..1 + n] + digits);
      assert digits[..|digits|] == digits;
    }
  }

  lemma {:induction false} UnsignedIsWritten(s: string)
    requires MatchUnsigned(s).Some?
    ensures var l := MatchUnsigned(s).value;
            WellFormed(l) && Unsigned(l) == s
  {
    hide LeadingDigits, MatchExponent, ExponentText, Digits;
    var l := MatchUnsigned(s).value;
    var n := LeadingDigits(s);
    var rest := s[if l.point then n + 1 else n..];
    var f := if l.point then LeadingDigits(rest) else 0;
    ExponentIsWritten(rest[f..]);
    EmptyDigits();
    assert rest == rest[..f] + rest[f..];
    assert s == s[..n] + (PointText(l.point) + rest);
  }

  lemma EmptyDigits()
    ensures Digits("")
  {
  }

  /** What is matched is a well-formed literal, written exactly like the text. */
  lemma {:induction false} MatchedIsWritten(s: string)
    requires Match(s).Some?
    ensures WellFormed(Match(s).value) && Written(Match(s).value) == s
  {
    hide MatchUnsigned, Digits;
    var n := LeadingSign(s);
    UnsignedIsWritten(s[n..]);
    assert s == s[..n] + s[n..];
  }

  // ---- The value of a literal ----

  function ExponentOf(l: Literal): int
    requires WellFormed(l)
  {
    if l.exponent.None? then 0
    else if l.exponent.value.sign == "-" then 0 - Numeral(l.exponent.value.digits) as int
    else Numeral(l.exponent.value.digits)
  }

  lemma AllDigits(l: Literal)
    requires WellFormed(l)
    ensures Digits(l.whole + l.fraction)
  {
  }

  /** The exact magnitude: all the digits as one whole number, scaled. */
  function Magnitude(l: Literal): real
    requires WellFormed(l)
  {
    AllDigits(l);
    Numeral(l.whole + l.fraction) as real * Scale(ExponentOf(l) - |l.fraction|)
  }

  function Twos(n: nat): (r: real)
    ensures r >= 1.0
  {
    if n == 0 then 1.0 else 2.0 * Twos(n - 1)
  }

  const MAX_SAFE := 9007199254740991

  /** Rounded to the nearest double, the magnitude is infinite. */
  predicate Overflows(magnitude: real) { magnitude >= Twos(970) * 18014398509481983.0 }

  /** Rounded to the nearest double, the magnitude is zero; a tie goes to the even zero. */
  predicate RoundsToZero(magnitude: real) { magnitude <= 1.0 / Twos(1075) }

  // ---- numericText ----

  datatype Outcome = AsNumber | AsText

  function StripZeros(s: string): string { if s != "" && s[0] == '0' then StripZeros(s[1..]) else s }

  function Zeros(n: nat): (z: string)
    ensures |z| == n && AllZeros(z)
  {
    seq(n, i => '0')
  }

  /** slice(0, 16).padEnd(16, '0') */
  function Padded(digits: string): (r: string)
    ensures |r| == 16
  {
    if |digits| < 16 then digits + Zeros(16 - |digits|) else digits[..16]
  }

  /** The order of JavaScript strings, by code unit. */
  predicate TextBefore(a: string, b: string) {
    b != "" && (a == "" || a[0] < b[0] || (a[0] == b[0] && TextBefore(a[1..], b[1..])))
  }

  const MAX_TEXT := "9007199254740991"

  /** The comparison of sixteen-place numbers with the largest safe integer, digit string against digit string. */
  function CompareDigits(digits: string): Outcome {
    var integer := Padded(digits);
    if TextBefore(integer, MAX_TEXT) then AsNumber
    else if integer == MAX_TEXT && (|digits| <= 16 || AllZeros(digits[16..])) then AsNumber
    else AsText
  }

  /** Whether the text goes out as the number it stands for, or stays text. */
  function NumericText(s: string): Outcome {
    if Match(s).None? then AsText
    else
      MatchedIsWritten(s);
      var l := Match(s).value;
      if Overflows(Magnitude(l)) then AsText
      else
        var digits := StripZeros(l.whole + l.fraction);
        if digits == "" then AsNumber
        else if RoundsToZero(Magnitude(l)) then AsText
        else
          var places := |digits| + ExponentOf(l) - |l.fraction|;
          if places < 16 then AsNumber else if places > 16 then AsText else CompareDigits(digits)
  }

  // ---- Digit strings compare as numbers ----

  lemma {:induction false} TextOrderIsNumeric(a: string, b: string)
    requires Digits(a) && Digits(b) && |a| == |b|
    ensures TextBefore(a, b) <==> Numeral(a) < Numeral(b)
    ensures a == b <==> Numeral(a) == Numeral(b)
  {
    if a != "" {
      var u, v := a[1..], b[1..];
      TextOrderIsNumeric(u, v);
      assert a == a[..1] + u && b == b[..1] + v;
      NumeralJoins(a[..1], u);
      NumeralJoins(b[..1], v);
      NumeralFits(u);
      NumeralFits(v);
      FirstDigit(a);
      FirstDigit(b);
      LeadingDigitDecides(Numeral(a[..1]), Numeral(b[..1]), Tens(|u|), Numeral(u), Numeral(v));
    }
  }

  lemma FirstDigit(a: string)
    requires a != "" && Digits(a)
    ensures Numeral(a[..1]) == a[0] as int - '0' as int
  {
    assert a[..1][..0] == "";
  }

  lemma LeadingDigitDecides(c: int, d: int, t: int, u: int, v: int)
    requires 0 <= u < t && 0 <= v < t
    ensures c < d ==> c * t + u < d * t + v
    ensures d < c ==> d * t + v < c * t + u
  {
    if c < d { Ahead(c, d, t); }
    if d < c { Ahead(d, c, t); }
  }

  lemma NotNegative(k: int, t: int)
    requires k >= 0 && t >= 0
    ensures k * t >= 0
  {
  }

  lemma Ahead(c: int, d: int, t: int)
    requires c < d && t > 0
    ensures c * t + t <= d * t
  {
    NotNegative(d - c - 1, t);
    assert d * t == c * t + t + (d - c - 1) * t;
  }

  lemma {:induction false} StrippedIsTheSame(s: string)
    requires Digits(s)
    ensures var r := StripZeros(s);
            Digits(r) && Numeral(r) == Numeral(s) && (r != "" ==> r[0] != '0') && (r == "" <==> Numeral(s) == 0)
  {
    if s != "" {
      if s[0] == '0' {
        StrippedIsTheSame(s[1..]);
        assert s == s[..1] + s[1..];
        NumeralJoins(s[..1], s[1..]);
        FirstDigit(s);
      } else {
        NumeralIsLarge(s);
      }
    }
  }

  // ---- The places decide ----

  /** A number with `n` significant digits scaled by `k` lies between two powers of ten. */
  lemma {:induction false} PlacesBound(digits: string, k: int)
    requires Digits(digits) && digits != "" && digits[0] != '0'
    ensures Scale(|digits| + k - 1) <= Numeral(digits) as real * Scale(k)
    ensures Numeral(digits) as real * Scale(k) < Scale(|digits| + k)
  {
    hide Scale, Numeral, Tens;
    var n := |digits|;
    NumeralFits(digits);
    NumeralIsLarge(digits);
    ScaleIsTens(n);
    ScaleIsTens(n - 1);
    ScaleAdds(n - 1, k);
    ScaleAdds(n, k);
    Scaled(Scale(n - 1), Numeral(digits) as real, Scale(n), Scale(k), Scale(n - 1 + k), Scale(n + k));
  }

  lemma Scaled(low: real, d: real, high: real, k: real, lowScaled: real, highScaled: real)
    requires low <= d < high && k > 0.0 && lowScaled == low * k && highScaled == high * k
    ensures lowScaled <= d * k < highScaled
  {
    Times(low, d, k);
    assert (high - d) * k > 0.0;
    assert high * k == d * k + (high - d) * k;
  }

  lemma Times(a: real, b: real, k: real)
    requires a <= b && k >= 0.0
    ensures a * k <= b * k
  {
    assert (b - a) * k >= 0.0;
    assert b * k == a * k + (b - a) * k;
  }

  lemma {:induction false} ScaleGrows(j: int, k: int)
    requires j <= k
    ensures Scale(j) <= Scale(k)
    decreases k - j
  {
    if j < k {
      ScaleGrows(j, k - 1);
      ScaleSteps(k - 1);
    }
  }

  lemma SafeIsSixteenPlaces()
    ensures Scale(15) == 1_000_000_000_000_000.0 && Scale(16) == 10_000_000_000_000_000.0
    ensures Scale(15) <= MAX_SAFE as real < Scale(16)
  {
    ScaleIsTens(15);
    ScaleIsTens(16);
    assert Tens(4) == 10000;
    assert Tens(8) == 100000000;
    assert Tens(12) == 1000000000000;
    assert Tens(15) == 1000000000000000;
  }

  lemma {:induction false} FourDigits(s: string)
    requires Digits(s) && |s| == 4
    ensures Numeral(s) == (((s[0] as int - 48) * 10 + (s[1] as int - 48)) * 10 + (s[2] as int - 48)) * 10 + (s[3] as int - 48)
  {
    assert s[..3][..2] == s[..2] && s[..2][..1] == s[..1] && s[..1][..0] == "";
    assert Numeral(s[..1]) == s[0] as int - 48;
    assert Numeral(s[..2]) == 10 * Numeral(s[..1]) + (s[1] as int - 48);
    assert Numeral(s[..3]) == 10 * Numeral(s[..2]) + (s[2] as int - 48);
  }

  lemma MaxTextIsMaxSafe()
    ensures Digits(MAX_TEXT) && |MAX_TEXT| == 16 && Numeral(MAX_TEXT) == MAX_SAFE
  {
    var a, b, c, d := "9007", "1992", "5474", "0991";
    FourDigits(a);
    FourDigits(b);
    FourDigits(c);
    FourDigits(d);
    assert Tens(4) == 10000;
    NumeralJoins(a, b);
    NumeralJoins(a + b, c);
    NumeralJoins(a + b + c, d);
    assert MAX_TEXT == a + b + c + d;
  }

  /** The sixteen digits kept for the comparison, and what they leave out. */
  lemma {:induction false} PaddedIsTheFront(digits: string)
    requires Digits(digits)
    ensures Digits(Padded(digits))
    ensures |digits| <= 16 ==> Numeral(Padded(digits)) == Numeral(digits) * Tens(16 - |digits|)
    ensures |digits| > 16 ==>
              Digits(digits[16..])
              && Numeral(digits) == Numeral(Padded(digits)) * Tens(|digits| - 16) + Numeral(digits[16..])
              && Numeral(digits[16..]) < Tens(|digits| - 16)
  {
    if |digits| <= 16 {
      var zeros := Zeros(16 - |digits|);
      ZeroNumeral(zeros);
      NumeralJoins(digits, zeros);
      assert digits + "" == digits;
      assert Padded(digits) == digits + zeros;
    } else {
      assert digits == digits[..16] + digits[16..];
      NumeralJoins(digits[..16], digits[16..]);
      NumeralFits(digits[16..]);
    }
  }

  lemma Quotient(i: int, m: int, q: int, r: int)
    requires 0 <= r < q
    ensures i * q + r <= m * q <==> i < m || (i == m && r == 0)
  {
    if i < m { Ahead(i, m, q); }
    if m < i { Ahead(m, i, q); }
  }

  /** For sixteen places the comparison of digit strings decides exactly. */
  lemma {:induction false} SixteenPlacesAreExact(digits: string)
    requires Digits(digits) && digits != ""
    ensures CompareDigits(digits) == AsNumber
       <==> Numeral(digits) as real * Scale(16 - |digits|) <= MAX_SAFE as real
  {
    hide Numeral, Scale, Tens, Padded, TextBefore;
    var integer, n := Padded(digits), |digits|;
    PaddedIsTheFront(digits);
    MaxTextIsMaxSafe();
    TextOrderIsNumeric(integer, MAX_TEXT);
    if n <= 16 {
      ScaleIsTens(16 - n);
    } else {
      var rest := digits[16..];
      ZeroNumeral(rest);
      Quotient(Numeral(integer), MAX_SAFE, Tens(n - 16), Numeral(rest));
      ScaledBack(Numeral(digits), n - 16, MAX_SAFE);
    }
  }

  lemma {:induction false} ScaledBack(d: int, k: nat, m: int)
    ensures d as real * Scale(0 - k) <= m as real <==> d <= m * Tens(k)
  {
    hide Scale, Tens;
    ScaleIsTens(k);
    ScaleAdds(0 - k, k);
    ScaleStarts();
    var u, q := Scale(0 - k), Tens(k);
    assert u * (q as real) == 1.0;
    DivideBoth(d as real, u, q as real, m as real);
    assert (m * q) as real == m as real * q as real;
  }

  lemma DivideBoth(d: real, u: real, q: real, m: real)
    requires u * q == 1.0 && u > 0.0 && q > 0.0
    ensures d * u <= m <==> d <= m * q
  {
    if d * u <= m {
      Times(d * u, m, q);
      assert d * u * q == d * (u * q);
    }
    if d <= m * q {
      Times(d, m * q, u);
      assert m * q * u == m * (u * q);
    }
  }

  lemma HugeIsNotSafe(v: real)
    requires v <= MAX_SAFE as real
    ensures !Overflows(v)
  {
    Times(1.0, Twos(970), 18014398509481983.0);
  }

  lemma {:induction false} DigitsDecide(digits: string, k: int)
    requires Digits(digits) && digits != "" && digits[0] != '0'
    ensures var places := |digits| + k;
            (places < 16 || (places == 16 && CompareDigits(digits) == AsNumber))
            <==> Numeral(digits) as real * Scale(k) <= MAX_SAFE as real
  {
    hide Numeral, Scale, CompareDigits;
    var places := |digits| + k;
    PlacesBound(digits, k);
    SafeIsSixteenPlaces();
    if places < 16 {
      ScaleGrows(places, 15);
    } else if places > 16 {
      ScaleGrows(16, places - 1);
    } else {
      SixteenPlacesAreExact(digits);
      assert k == 16 - |digits|;
    }
  }

  /**
   * The text becomes a number exactly when it is a decimal literal of exact magnitude at most 9007199254740991 that
   * does not vanish when it is rounded.
   */
  lemma {:induction false} NumericTextIsExact(s: string)
    ensures NumericText(s) == AsNumber
       <==> Match(s).Some? && WellFormed(Match(s).value)
            && var v := Magnitude(Match(s).value);
               v <= MAX_SAFE as real && (v == 0.0 || !RoundsToZero(v))
  {
    hide Numeral, Scale, CompareDigits, Match, StripZeros, Overflows, RoundsToZero;
    if Match(s).Some? {
      MatchedIsWritten(s);
      var l := Match(s).value;
      var v := Magnitude(l);
      if v <= MAX_SAFE as real { HugeIsNotSafe(v); }
      AllDigits(l);
      var all := l.whole + l.fraction;
      var digits := StripZeros(all);
      StrippedIsTheSame(all);
      var k := ExponentOf(l) - |l.fraction|;
      if digits != "" {
        DigitsDecide(digits, k);
        Positive(Numeral(all) as real, Scale(k));
      }
    }
  }

  lemma Positive(a: real, b: real)
    requires a > 0.0 && b > 0.0
    ensures a * b > 0.0
  {
  }

  /** The same for any literal written out, whatever its parts. */
  lemma {:induction false} LiteralsAreDecidedByMagnitude(l: Literal)
    requires WellFormed(l)
    ensures NumericText(Written(l)) == AsNumber
       <==> Magnitude(l) <= MAX_SAFE as real && (Magnitude(l) == 0.0 || !RoundsToZero(Magnitude(l)))
  {
    hide NumericText, Match, Magnitude, RoundsToZero;
    WrittenIsMatched(l);
    NumericTextIsExact(Written(l));
  }
}
