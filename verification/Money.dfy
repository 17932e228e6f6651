/**
 An amount of USD as text, and back: micros to the shortest decimal and decimal to micros,
 with however many significant digits decimal arithmetic carries: 28 by default.
 */
module Money {
  import opened Prelude

  const MICROS := 1_000_000

  datatype AmountError = NotAnAmount | TooLong

  function Pow10(n: nat): (p: nat)
    ensures p > 0
  {
    if n == 0 then 1 else 10 * Pow10(n - 1)
  }

  lemma {:induction false} Pow10Add(a: nat, b: nat)
    ensures Pow10(a + b) == Pow10(a) * Pow10(b)
  {
    if a > 0 {
      Pow10Add(a - 1, b);
      assert Pow10(a + b) == 10 * (Pow10(a - 1) * Pow10(b));
    }
  }

  // ---------- the precision decimals carry ----------

  /** How many digits there are beyond the precision. */
  function Excess(x: nat, precision: nat): nat {
    if x < Pow10(precision) then 0 else TenthIsLess(x, precision); 1 + Excess(x / 10, precision)
  }

  lemma TenthIsLess(x: nat, precision: nat)
    requires x >= Pow10(precision)
    ensures x / 10 < x
  {
  }

  /** To the nearest multiple of the unit, halves to the even one. */
  function HalfEven(x: nat, unit: nat): nat
    requires unit > 0
  {
    var q, r := x / unit, x % unit;
    if 2 * r > unit || (2 * r == unit && q % 2 == 1) then q * unit + unit else q * unit
  }

  /** To the precision, as decimal arithmetic rounds. */
  function Carried(x: nat, precision: nat): nat {
    HalfEven(x, Pow10(Excess(x, precision)))
  }

  lemma {:induction false} ExcessFits(x: nat, digits: nat, precision: nat)
    requires x < Pow10(precision + digits)
    ensures Excess(x, precision) <= digits
    decreases digits
  {
    if x >= Pow10(precision) && digits > 0 {
      assert Pow10(precision + digits) == 10 * Pow10(precision + digits - 1);
      ExcessFits(x / 10, digits - 1, precision);
    }
  }

  lemma {:induction false} ExcessIsLong(x: nat, digits: nat, precision: nat)
    requires x >= Pow10(precision + digits)
    ensures Excess(x, precision) > digits
    decreases digits
  {
    PowersGrow(precision, digits);
    if digits > 0 {
      assert Pow10(precision + digits) == 10 * Pow10(precision + digits - 1);
      ExcessIsLong(x / 10, digits - 1, precision);
    }
  }

  lemma {:induction false} PowersGrow(a: nat, b: nat)
    ensures Pow10(a) <= Pow10(a + b)
  {
    if b > 0 {
      PowersGrow(a, b - 1);
    }
  }

  /** What is carried keeps all the digits there are room for. */
  lemma {:induction false} LeadingDigits(x: nat, precision: nat)
    requires x >= Pow10(precision) && precision > 0
    ensures x / Pow10(Excess(x, precision)) >= Pow10(precision - 1)
    decreases x
  {
    assert Pow10(precision) == 10 * Pow10(precision - 1);
    TenthThenRest(x, Pow10(Excess(x / 10, precision)));
    if x / 10 >= Pow10(precision) {
      LeadingDigits(x / 10, precision);
    } else {
      assert Excess(x / 10, precision) == 0;
    }
  }

  lemma TenthThenRest(x: nat, p: nat)
    requires p > 0
    ensures x / (10 * p) == x / 10 / p
  {
    var q := x / 10 / p;
    DivisionBounds(x / 10, p);
    DivisionBounds(x, 10);
    assert 10 * (p * q) <= x < 10 * (p * q) + 10 * p;
    assert (10 * p) * q == 10 * (p * q);
    DivisionIsLargest(x, 10 * p, q);
    DivisionIsLargest(x, 10 * p, q + 1);
    assert (q + 1) * (10 * p) == 10 * (p * q) + 10 * p;
  }

  lemma RegroupProduct(a: nat, b: nat, c: nat)
    ensures a * (b * c) == (a * b) * c
  {
  }

  lemma Larger(a: nat, b: nat, p: nat)
    requires a < b && p > 0
    ensures a * p < b * p
  {
  }

  lemma NotSmaller(a: nat, b: nat, p: nat)
    requires a <= b
    ensures a * p <= b * p
  {
  }

  /** A number of `digits` trailing zeros that fits otherwise is carried exactly. */
  lemma CarriedExactly(x: nat, v: nat, digits: nat, precision: nat)
    requires x == v * Pow10(digits) && v < Pow10(precision)
    ensures Carried(x, precision) == x
  {
    Pow10Add(precision, digits);
    Larger(v, Pow10(precision), Pow10(digits));
    ExcessFits(x, digits, precision);
    CarriedMultiple(x, v, digits, Excess(x, precision), precision);
  }

  lemma CarriedMultiple(x: nat, v: nat, digits: nat, e: nat, precision: nat)
    requires Excess(x, precision) == e <= digits && x == v * Pow10(digits)
    ensures Carried(x, precision) == x
  {
    Pow10Add(digits - e, e);
    RegroupProduct(v, Pow10(digits - e), Pow10(e));
    MultiplesStay(v * Pow10(digits - e), Pow10(e));
  }

  lemma MultiplesStay(k: nat, p: nat)
    requires p > 0
    ensures HalfEven(k * p, p) == k * p
  {
    DivisionIsLargest(k * p, p, k);
    DivisionIsLargest(k * p, p, k + 1);
    assert (k + 1) * p == k * p + p;
    assert k * p / p == k;
    assert k * p % p == 0;
  }

  /** What does not fit is not carried below what would. */
  lemma CarriedStaysLong(x: nat, digits: nat, precision: nat)
    requires x >= Pow10(precision + digits) && precision > 0
    ensures Carried(x, precision) >= Pow10(precision + digits)
  {
    PowersGrow(precision, digits);
    ExcessIsLong(x, digits, precision);
    LeadingDigits(x, precision);
    var e := Excess(x, precision);
    NotSmaller(Pow10(precision - 1), x / Pow10(e), Pow10(e));
    Pow10Add(precision - 1, e);
    PowersGrow(precision + digits, precision - 1 + e - (precision + digits));
  }

  // ---------- from text ----------

  predicate IsDigit(c: char) { '0' <= c <= '9' }

  function Digit(n: nat): char
    requires n < 10
  {
    '0' + n as char
  }

  /** The digits read so far as one coefficient, and how many of them follow the point. */
  datatype Numeral = Numeral(coefficient: nat, scale: Option<nat>, digits: nat)

  function Read(s: string): Option<Numeral> {
    if s == "" then Some(Numeral(0, None, 0))
    else
      var c := s[|s| - 1];
      match Read(s[..|s| - 1])
      case None => None
      case Some(n) =>
        if IsDigit(c) then
          Some(Numeral(
            10 * n.coefficient + (c - '0') as nat,
            if n.scale.Some? then Some(n.scale.value + 1) else None, n.digits + 1))
        else if c == '.' && n.scale.None? then Some(n.(scale := Some(0)))
        else None
  }

  /** To the nearest, halves away from zero: `x` is a magnitude. */
  function HalfUp(x: nat, unit: nat): nat
    requires unit > 0
  {
    (2 * x + unit) / (2 * unit)
  }

  function Magnitude(s: string, precision: nat): Result<int, AmountError> {
    match Read(s)
    case None => Err(NotAnAmount)
    case Some(n) =>
      if n.digits == 0 then Err(NotAnAmount)
      else
        var micros := HalfUp(Carried(n.coefficient * MICROS, precision),
                             Pow10(if n.scale.Some? then n.scale.value else 0));
        if micros >= Pow10(precision) then Err(TooLong) else Ok(micros)
  }

  function Parse(s: string, precision: nat): Result<int, AmountError> {
    if s != "" && s[0] == '-' then
      (match Magnitude(s[1..], precision) case Ok(m) => Ok(-m) case Err(e) => Err(e))
    else
      match Magnitude(if s != "" && s[0] == '+' then s[1..] else s, precision)
      case Ok(m) => Ok(m)
      case Err(e) => Err(e)
  }

  // ---------- to text ----------

  function Digits(n: nat): string {
    if n < 10 then [Digit(n)] else Digits(n / 10) + [Digit(n % 10)]
  }

  function Padded(n: nat, width: nat): string {
    if width == 0 then "" else Padded(n / 10, width - 1) + [Digit(n % 10)]
  }

  function StripRight(s: string, c: char): string {
    if s != "" && s[|s| - 1] == c then StripRight(s[..|s| - 1], c) else s
  }

  /** Six places, then without trailing zeros and without a point left at the end. */
  function Shortest(micros: nat): string {
    var text := StripRight(StripRight(Digits(micros / MICROS) + "." + Padded(micros % MICROS, 6), '0'), '.');
    if text == "" then "0" else text
  }

  function Show(micros: int, precision: nat): string {
    if micros < 0 then "-" + Shortest(Carried(-micros, precision)) else Shortest(Carried(micros, precision))
  }

  // ---------- the round trip ----------

  lemma ReadDigit(s: string, d: nat)
    requires d < 10 && Read(s).Some?
    ensures
      var n := Read(s).value;
      Read(s + [Digit(d)]) == Some(Numeral(
        10 * n.coefficient + d, if n.scale.Some? then Some(n.scale.value + 1) else None, n.digits + 1))
  {
    assert (s + [Digit(d)])[..|s|] == s;
  }

  lemma {:induction false} ReadDigits(n: nat)
    ensures Read(Digits(n)).Some? && Read(Digits(n)).value.digits > 0
    ensures Read(Digits(n)).value.coefficient == n && Read(Digits(n)).value.scale == None
    ensures Digits(n) != "" && IsDigit(Digits(n)[0])
  {
    if n < 10 {
      assert "" + [Digit(n)] == [Digit(n)];
      ReadDigit("", n);
    } else {
      ReadDigits(n / 10);
      ReadDigit(Digits(n / 10), n % 10);
    }
  }

  lemma {:induction false} ReadPadded(s: string, whole: nat, n: nat, width: nat)
    requires Read(s).Some? && Read(s).value.digits > 0
    requires Read(s).value.coefficient == whole && Read(s).value.scale == Some(0) && n < Pow10(width)
    ensures
      var r := Read(s + Padded(n, width));
      r.Some? && r.value.digits > 0 && r.value.coefficient == whole * Pow10(width) + n && r.value.scale == Some(width)
  {
    if width == 0 {
      assert s + Padded(n, 0) == s;
    } else {
      ReadPadded(s, whole, n / 10, width - 1);
      ReadDigit(s + Padded(n / 10, width - 1), n % 10);
      assert s + Padded(n, width) == s + Padded(n / 10, width - 1) + [Digit(n % 10)];
      TenTimes(whole, width);
    }
  }

  lemma TenTimes(whole: nat, width: nat)
    requires width > 0
    ensures whole * Pow10(width) == 10 * (whole * Pow10(width - 1))
  {
    assert Pow10(width) == 10 * Pow10(width - 1);
  }

  /** `s` reads as exactly this many micros. */
  ghost predicate Means(s: string, micros: nat) {
    match Read(s)
    case None => false
    case Some(n) =>
      var scale := if n.scale.Some? then n.scale.value else 0;
      n.digits > 0 && scale <= 6 && n.coefficient * Pow10(6 - scale) == micros
  }

  lemma {:induction false} StrippedZerosMeanTheSame(s: string, micros: nat)
    requires Means(s, micros) && Read(s).value.scale.Some?
    requires Read(s).value.digits > Read(s).value.scale.value
    ensures Means(StripRight(s, '0'), micros)
    ensures Read(StripRight(s, '0')).value.scale.Some? && StripRight(s, '0') <= s
    decreases |s|
  {
    if s[|s| - 1] == '0' {
      var before := s[..|s| - 1];
      var n, k := Read(before).value, Read(s).value.scale.value;
      assert Pow10(6 - k + 1) == 10 * Pow10(6 - k);
      assert n.coefficient * Pow10(6 - k + 1) == 10 * n.coefficient * Pow10(6 - k);
      StrippedZerosMeanTheSame(before, micros);
    }
  }

  lemma StrippedPointMeansTheSame(s: string, micros: nat)
    requires Means(s, micros) && Read(s).value.scale.Some?
    ensures Means(StripRight(s, '.'), micros) && StripRight(s, '.') <= s
  {
    if s[|s| - 1] == '.' {
      var before := s[..|s| - 1];
      assert Read(before).value.scale == None;
      NoPointAtTheEnd(before);
    }
  }

  lemma NoPointAtTheEnd(s: string)
    requires Read(s).Some? && Read(s).value.scale.None?
    ensures StripRight(s, '.') == s
  {
  }

  lemma {:induction false} ShortestMeansIt(micros: nat)
    ensures Means(Shortest(micros), micros)
    ensures Shortest(micros) != "" && IsDigit(Shortest(micros)[0])
  {
    var whole, part := micros / MICROS, micros % MICROS;
    var point := Digits(whole) + ".";
    ReadDigits(whole);
    assert point[..|point| - 1] == Digits(whole);
    MicrosAreSixPlaces();
    ReadPadded(point, whole, part, 6);
    var text := point + Padded(part, 6);
    DigitsOutnumberPlaces(point, part, 6);
    StrippedZerosMeanTheSame(text, micros);
    StrippedPointMeansTheSame(StripRight(text, '0'), micros);
    var short := StripRight(StripRight(text, '0'), '.');
    assert short <= text && short != "";
    assert short[0] == text[0] == Digits(whole)[0];
  }

  lemma {:induction false} DigitsOutnumberPlaces(s: string, n: nat, width: nat)
    requires Read(s).Some? && Read(s).value.digits > 0 && Read(s).value.scale == Some(0)
    ensures
      var r := Read(s + Padded(n, width));
      r.Some? && r.value.scale == Some(width) && r.value.digits > width
  {
    if width == 0 {
      assert s + Padded(n, 0) == s;
    } else {
      DigitsOutnumberPlaces(s, n / 10, width - 1);
      ReadDigit(s + Padded(n / 10, width - 1), n % 10);
      assert s + Padded(n, width) == s + Padded(n / 10, width - 1) + [Digit(n % 10)];
    }
  }

  lemma MicrosAreSixPlaces()
    ensures Pow10(6) == MICROS
  {
    assert Pow10(3) == 1000;
  }

  /** Reading the shortest text of an amount gives it back when it fits the precision, and fails when it does not. */
  lemma MagnitudeOfShortest(micros: nat, precision: nat)
    requires precision > 0
    ensures Magnitude(Shortest(micros), precision) == if micros < Pow10(precision) then Ok(micros) else Err(TooLong)
  {
    ShortestMeansIt(micros);
    var n := Read(Shortest(micros)).value;
    var k := if n.scale.Some? then n.scale.value else 0;
    SameInMicros(n.coefficient, k, micros);
    ReadBack(n.coefficient * MICROS, micros, k, precision);
  }

  lemma SameInMicros(coefficient: nat, k: nat, micros: nat)
    requires k <= 6 && coefficient * Pow10(6 - k) == micros
    ensures coefficient * MICROS == micros * Pow10(k)
  {
    MicrosAreSixPlaces();
    Pow10Add(6 - k, k);
    RegroupProduct(coefficient, Pow10(6 - k), Pow10(k));
  }

  lemma ReadBack(x: nat, micros: nat, k: nat, precision: nat)
    requires precision > 0 && x == micros * Pow10(k)
    ensures
      var read := HalfUp(Carried(x, precision), Pow10(k));
      if micros < Pow10(precision) then read == micros else read >= Pow10(precision)
  {
    if micros < Pow10(precision) {
      CarriedExactly(x, micros, k, precision);
      HalfUpExact(micros, Pow10(k));
    } else {
      Pow10Add(precision, k);
      NotSmaller(Pow10(precision), micros, Pow10(k));
      CarriedStaysLong(x, k, precision);
      HalfUpLarge(Carried(x, precision), Pow10(k), Pow10(precision));
    }
  }

  lemma HalfUpExact(v: nat, unit: nat)
    requires unit > 0
    ensures HalfUp(v * unit, unit) == v
  {
    assert 2 * (v * unit) == v * (2 * unit);
    DivisionIsLargest(2 * (v * unit) + unit, 2 * unit, v);
    DivisionIsLargest(2 * (v * unit) + unit, 2 * unit, v + 1);
    assert (v + 1) * (2 * unit) == v * (2 * unit) + 2 * unit;
  }

  lemma HalfUpLarge(x: nat, unit: nat, least: nat)
    requires unit > 0 && x >= least * unit
    ensures HalfUp(x, unit) >= least
  {
    assert least * (2 * unit) == 2 * (least * unit);
    DivisionIsLargest(2 * x + unit, 2 * unit, least);
  }

  lemma MagnitudeOfShown(micros: nat, precision: nat)
    requires precision > 0
    ensures Magnitude(Shortest(Carried(micros, precision)), precision) ==
            if micros < Pow10(precision) then Ok(micros) else Err(TooLong)
  {
    MagnitudeOfShortest(Carried(micros, precision), precision);
    CarriedOrTooLong(micros, precision);
  }

  lemma CarriedOrTooLong(micros: nat, precision: nat)
    requires precision > 0
    ensures micros < Pow10(precision) ==> Carried(micros, precision) == micros
    ensures micros >= Pow10(precision) ==> Carried(micros, precision) >= Pow10(precision)
  {
    if micros >= Pow10(precision) {
      CarriedStaysLong(micros, 0, precision);
    } else {
      MultiplesStay(micros, 1);
    }
  }

  /** An amount survives being written and read exactly when its micros have no more digits than are carried. */
  lemma ParseOfShow(micros: int, precision: nat)
    requires precision > 0
    ensures Parse(Show(micros, precision), precision) == Ok(micros) <==>
            Pow10(precision) > (if micros < 0 then -micros else micros)
  {
    var m: nat := if micros < 0 then -micros else micros;
    var shown := Shortest(Carried(m, precision));
    ShortestMeansIt(Carried(m, precision));
    MagnitudeOfShown(m, precision);
    if micros < 0 {
      assert Show(micros, precision)[1..] == shown;
    } else {
      assert Show(micros, precision) == shown;
    }
  }

  /** A text whose digits fit is read to the nearest micro, halves away from zero. */
  lemma ParseIsNearest(s: string, precision: nat)
    requires Magnitude(s, precision).Ok? && Read(s).value.coefficient * MICROS < Pow10(precision)
    ensures
      var n, m := Read(s).value, Magnitude(s, precision).value;
      var unit := Pow10(if n.scale.Some? then n.scale.value else 0);
      2 * (n.coefficient * MICROS) - unit < m * (2 * unit) <= 2 * (n.coefficient * MICROS) + unit
  {
    var n := Read(s).value;
    var x := n.coefficient * MICROS;
    CarriedExactly(x, x, 0, precision);
    HalfUpIsNearest(x, Pow10(if n.scale.Some? then n.scale.value else 0));
  }

  function Signed(negative: bool, x: int): int { if negative then -x else x }

  predicate IsNegative(s: string) { s != "" && s[0] == '-' }

  function Unsigned(s: string): string { if s != "" && (s[0] == '-' || s[0] == '+') then s[1..] else s }

  lemma ParseIsSigned(s: string, precision: nat)
    requires Parse(s, precision).Ok?
    ensures Magnitude(Unsigned(s), precision).Ok?
    ensures Parse(s, precision).value == Signed(IsNegative(s), Magnitude(Unsigned(s), precision).value)
  {
  }

  /** With its sign, which is read first, a text is read to the nearest micro, halves away from zero either side. */
  lemma SignedParseIsNearest(s: string, precision: nat)
    requires Parse(s, precision).Ok? && Read(Unsigned(s)).value.coefficient * MICROS < Pow10(precision)
    ensures
      var n := Read(Unsigned(s)).value;
      var unit := Pow10(if n.scale.Some? then n.scale.value else 0);
      var exact := Signed(IsNegative(s), n.coefficient * MICROS);
      2 * exact - unit <= Parse(s, precision).value * (2 * unit) <= 2 * exact + unit
  {
    var n := Read(Unsigned(s)).value;
    ParseIsSigned(s, precision);
    ParseIsNearest(Unsigned(s), precision);
    NearestOnEitherSide(IsNegative(s), Magnitude(Unsigned(s), precision).value, n.coefficient * MICROS,
                        Pow10(if n.scale.Some? then n.scale.value else 0));
  }

  lemma NearestOnEitherSide(negative: bool, m: int, x: int, unit: nat)
    requires 2 * x - unit < m * (2 * unit) <= 2 * x + unit
    ensures 2 * Signed(negative, x) - unit <= Signed(negative, m) * (2 * unit) <= 2 * Signed(negative, x) + unit
  {
    assert (-m) * (2 * unit) == -(m * (2 * unit));
  }

  lemma HalfUpIsNearest(x: nat, unit: nat)
    requires unit > 0
    ensures 2 * x - unit < HalfUp(x, unit) * (2 * unit) <= 2 * x + unit
  {
    DivisionBounds(2 * x + unit, 2 * unit);
    assert HalfUp(x, unit) * (2 * unit) == (2 * unit) * HalfUp(x, unit);
  }

  // ---------- which texts are amounts, and what they come to ----------

  const DIGITS: string := "0123456789"

  predicate OnePointAtMost(s: string) {
    forall i, j :: 0 <= i < j < |s| ==> !(s[i] == '.' && s[j] == '.')
  }

  function DigitsIn(s: string): nat {
    if s == "" then 0 else (if s[0] in DIGITS then 1 else 0) + DigitsIn(s[1..])
  }

  /** The digits of a text as one number, from the left: each stands for itself times ten to those after it. */
  function ValueOf(s: string): nat {
    if s == "" then 0
    else if s[0] in DIGITS then (s[0] as int - 48) * Pow10(DigitsIn(s[1..])) + ValueOf(s[1..])
    else ValueOf(s[1..])
  }

  lemma {:induction false} DigitsInAppend(s: string, c: char)
    ensures DigitsIn(s + [c]) == DigitsIn(s) + (if c in DIGITS then 1 else 0)
  {
    if s == "" {
      assert s + [c] == [c] && [c][1..] == "";
    } else {
      assert (s + [c])[1..] == s[1..] + [c];
      DigitsInAppend(s[1..], c);
    }
  }

  lemma OneMorePlace(d: nat, places: nat)
    ensures d * Pow10(places + 1) == 10 * (d * Pow10(places))
  {
    assert Pow10(places + 1) == 10 * Pow10(places);
  }

  lemma ValueOfDigit(c: char)
    ensures ValueOf([c]) == if c in DIGITS then c as int - 48 else 0
    ensures DigitsIn([c]) == if c in DIGITS then 1 else 0
  {
    assert [c][1..] == "" && Pow10(0) == 1;
  }

  lemma {:induction false} ValueOfAppend(s: string, c: char)
    ensures ValueOf(s + [c]) == if c in DIGITS then 10 * ValueOf(s) + (c as int - 48) else ValueOf(s)
  {
    if s == "" {
      assert s + [c] == [c];
      ValueOfDigit(c);
    } else {
      assert (s + [c])[1..] == s[1..] + [c] && (s + [c])[0] == s[0];
      ValueOfAppend(s[1..], c);
      DigitsInAppend(s[1..], c);
      if s[0] in DIGITS {
        OneMorePlace(s[0] as int - 48, DigitsIn(s[1..]));
      }
    }
  }

  lemma {:induction false} DecimalsAlone(s: string)
    ensures Read(s).Some? <==> OnePointAtMost(s) && forall i :: 0 <= i < |s| ==> s[i] in DIGITS || s[i] == '.'
    ensures Read(s).Some? ==> (Read(s).value.scale == None <==> '.' !in s)
  {
    if s != "" {
      DecimalsAlone(s[..|s| - 1]);
      assert s == s[..|s| - 1] + [s[|s| - 1]];
      DigitsAreListed(s[|s| - 1]);
    }
  }

  lemma {:induction false} DigitsAreCounted(s: string)
    requires Read(s).Some?
    ensures Read(s).value.coefficient == ValueOf(s) && Read(s).value.digits == DigitsIn(s)
  {
    if s != "" {
      var before, c := s[..|s| - 1], s[|s| - 1];
      assert s == before + [c];
      DigitsAreCounted(before);
      DigitsInAppend(before, c);
      ValueOfAppend(before, c);
      DigitsAreListed(c);
    }
  }

  lemma {:induction false} PlacesAreCounted(s: string)
    requires Read(s).Some?
    ensures forall i :: 0 <= i < |s| && s[i] == '.' ==> Read(s).value.scale == Some(|s| - 1 - i)
  {
    if s != "" {
      PlacesAreCounted(s[..|s| - 1]);
      assert forall i :: 0 <= i < |s| - 1 ==> s[..|s| - 1][i] == s[i];
    }
  }

  /** What is read of a text is read exactly of those made of digits and at most one point. */
  lemma DecimalsAreRead(s: string)
    ensures Read(s).Some? <==> OnePointAtMost(s) && forall i :: 0 <= i < |s| ==> s[i] in DIGITS || s[i] == '.'
    ensures Read(s).Some? ==>
              var n := Read(s).value;
              && n.coefficient == ValueOf(s) && n.digits == DigitsIn(s)
              && (n.scale == None <==> '.' !in s)
              && (forall i :: 0 <= i < |s| && s[i] == '.' ==> n.scale == Some(|s| - 1 - i))
  {
    DecimalsAlone(s);
    if Read(s).Some? {
      DigitsAreCounted(s);
      PlacesAreCounted(s);
    }
  }

  lemma DigitsAreListed(c: char)
    ensures IsDigit(c) <==> c in DIGITS
    ensures IsDigit(c) ==> (c - '0') as nat == c as int - 48
  {
    if IsDigit(c) {
      assert DIGITS[c as int - 48] == c;
    }
  }

  /** Nothing shorter is written: an amount has no point at its end, and no zero after one. */
  lemma ShownWithoutTrailingZeros(micros: int, precision: nat)
    requires precision > 0
    ensures
      var text := Show(micros, precision);
      && text != "" && text[|text| - 1] != '.'
      && ('.' in text ==> text[|text| - 1] != '0')
      && (text[0] == '-' <==> micros < 0)
  {
    var m: nat := if micros < 0 then -micros else micros;
    var x := Carried(m, precision);
    ShortestMeansIt(x);
    ShortestEndsWell(x);
  }

  lemma {:induction false} StripRightStops(s: string, c: char)
    ensures StripRight(s, c) <= s
    ensures StripRight(s, c) != "" ==> StripRight(s, c)[|StripRight(s, c)| - 1] != c
    ensures forall i :: |StripRight(s, c)| <= i < |s| ==> s[i] == c
  {
    if s != "" && s[|s| - 1] == c {
      StripRightStops(s[..|s| - 1], c);
    }
  }

  lemma NoZeroAfterThePoint(all: string, zeros: string, text: string)
    requires OnePointAtMost(all) && text <= zeros <= all && text != ""
    requires zeros[|zeros| - 1] != '0' && forall i :: |text| <= i < |zeros| ==> zeros[i] == '.'
    ensures '.' in text ==> text[|text| - 1] != '0'
  {
    if |text| < |zeros| {
      assert zeros[|zeros| - 1] == '.' && all[|zeros| - 1] == '.';
      assert forall i :: 0 <= i < |text| ==> text[i] == all[i] && all[i] != '.';
    }
  }

  lemma ShortestEndsWell(x: nat)
    ensures
      var text := Shortest(x);
      text != "" && text[|text| - 1] != '.' && ('.' in text ==> text[|text| - 1] != '0')
  {
    var all := Digits(x / MICROS) + "." + Padded(x % MICROS, 6);
    var zeros := StripRight(all, '0');
    var text := StripRight(zeros, '.');
    StripRightStops(all, '0');
    StripRightStops(zeros, '.');
    ReadDigits(x / MICROS);
    assert all[0] == Digits(x / MICROS)[0];
    PointIsKept(all, zeros, |Digits(x / MICROS)|);
    DecimalsAreReadOf(all, x);
    FirstIsKept(zeros, text);
    NoZeroAfterThePoint(all, zeros, text);
  }

  lemma PointIsKept(all: string, zeros: string, point: nat)
    requires 0 < point < |all| && all[point] == '.' && zeros <= all
    requires forall i :: |zeros| <= i < |all| ==> all[i] == '0'
    ensures |zeros| > point && zeros[0] == all[0]
  {
  }

  lemma FirstIsKept(zeros: string, text: string)
    requires zeros != "" && IsDigit(zeros[0]) && text <= zeros && forall i :: |text| <= i < |zeros| ==> zeros[i] == '.'
    ensures text != "" && text[0] == zeros[0]
  {
  }

  lemma DecimalsAreReadOf(all: string, x: nat)
    requires all == Digits(x / MICROS) + "." + Padded(x % MICROS, 6)
    ensures OnePointAtMost(all)
  {
    var point := Digits(x / MICROS) + ".";
    ReadDigits(x / MICROS);
    assert point[..|point| - 1] == Digits(x / MICROS);
    MicrosAreSixPlaces();
    ReadPadded(point, x / MICROS, x % MICROS, 6);
    DecimalsAreRead(all);
  }

  // ---------- what is carried, and what is refused ----------

  /** A multiple of the unit, the nearest one; and of two as near, the even one. */
  lemma HalfEvenIsNearest(x: nat, unit: nat) returns (k: nat)
    requires unit > 0
    ensures HalfEven(x, unit) == k * unit
    ensures 2 * x - unit <= 2 * HalfEven(x, unit) <= 2 * x + unit
    ensures 2 * x - 2 * HalfEven(x, unit) == unit || 2 * HalfEven(x, unit) - 2 * x == unit ==> k % 2 == 0
  {
    var q, r := x / unit, x % unit;
    assert q * unit + r == x;
    OneMoreTimes(q, unit);
    k := if 2 * r > unit || (2 * r == unit && q % 2 == 1) then q + 1 else q;
  }

  lemma OneMoreTimes(q: nat, unit: nat)
    ensures (q + 1) * unit == q * unit + unit
  {
  }

  /** Digits are dropped one by one, only as many as do not fit. */
  lemma {:induction false} AsFewAsDoNotFit(x: nat, precision: nat)
    ensures x < Pow10(precision + Excess(x, precision))
    ensures Excess(x, precision) > 0 ==> x >= Pow10(precision + Excess(x, precision) - 1)
  {
    if x >= Pow10(precision) {
      TenthIsLess(x, precision);
      AsFewAsDoNotFit(x / 10, precision);
    }
  }

  lemma {:induction false} DigitsInNone(s: string)
    ensures DigitsIn(s) == 0 <==> forall i :: 0 <= i < |s| ==> s[i] !in DIGITS
  {
    if s != "" {
      DigitsInNone(s[1..]);
      assert forall i :: 0 <= i < |s| - 1 ==> s[1..][i] == s[i + 1];
    }
  }

  /** A text is an amount exactly when, its sign aside, it has a digit, and is digits and at most one point. */
  lemma AmountsAreDecimals(s: string, precision: nat)
    ensures
      var u := Unsigned(s);
      Parse(s, precision) != Err(NotAnAmount) <==>
      && OnePointAtMost(u) && (forall i :: 0 <= i < |u| ==> u[i] in DIGITS || u[i] == '.')
      && exists i :: 0 <= i < |u| && u[i] in DIGITS
    ensures
      var least: int := Pow10(precision);
      Parse(s, precision).Ok? ==> -least < Parse(s, precision).value < least
  {
    DecimalsAreRead(Unsigned(s));
    DigitsInNone(Unsigned(s));
  }
}
