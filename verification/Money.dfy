/** Deposit amounts: decimal text to NUMERIC(18,2), and back through binary64 to two decimals. */
module Money {
  import opened Schema

  // ---- Powers of two ----

  function Pow2(n: nat): (p: int)
    ensures p > 0
  {
    if n == 0 then 1 else 2 * Pow2(n - 1)
  }

  /** 2 to any integer power. */
  function Scale(e: int): (s: real)
    ensures s > 0.0
  {
    if e >= 0 then Pow2(e) as real else 1.0 / Pow2(-e) as real
  }

  /** Multiplication under a name, so that no proof has to multiply unless it wants to. */
  function Mul(a: real, s: real): real { a * s }

  function Times(p: int, s: real): real { Mul(p as real, s) }

  lemma TimesGrows(p: int, q: int, s: real)
    requires s > 0.0
    ensures p < q ==> Times(p, s) < Times(q, s)
    ensures Times(1, s) == s && Times(0, s) == 0.0 && Times(2 * p, s) == 2.0 * Times(p, s)
  {
    assert (2 * p) as real == 2.0 * p as real;
  }

  lemma TimesTwice(m: int, p: int, s: real)
    ensures Times(m, Times(p, s)) == Times(m * p, s)
  {
    assert (m * p) as real == m as real * p as real;
  }

  lemma ScaleDoubles(e: int)
    ensures Scale(e + 1) == 2.0 * Scale(e)
  {
    if e < -1 {
      assert Pow2(-e) == 2 * Pow2(-e - 1);
    }
  }

  lemma Pow2Doubles(n: nat)
    ensures Pow2(0) == 1 && Pow2(n + 1) == 2 * Pow2(n)
  {
  }

  lemma {:induction false} ScaleShifts(e: int, k: nat)
    ensures Scale(e + k) == Times(Pow2(k), Scale(e))
  {
    hide Pow2, Scale, Mul, Times;
    TimesGrows(0, 1, Scale(e));
    if k == 0 {
      Pow2Doubles(0);
    } else {
      ScaleShifts(e, k - 1);
      ScaleDoubles(e + (k - 1));
      Pow2Doubles(k - 1);
      TimesGrows(Pow2(k - 1), 0, Scale(e));
    }
  }

  lemma ScaleGrows(a: int, b: int)
    requires a <= b
    ensures Scale(a) <= Scale(b)
  {
    hide Pow2, Scale, Mul, Times;
    ScaleShifts(a, b - a);
    assert a + (b - a) == b;
    TimesGrows(1, Pow2(b - a), Scale(a));
  }

  // ---- binary64 ----

  const MIN_EXPONENT := -1074
  const MAX_EXPONENT := 971

  function Value(m: int, e: int): real { Times(m, Scale(e)) }

  /** The non-negative finite numbers of binary64, IEEE 754-2019 section 3.3. */
  ghost predicate Binary64(v: real) {
    exists m, e :: 0 <= m < Pow2(53) && MIN_EXPONENT <= e <= MAX_EXPONENT && v == Value(m, e)
  }

  function Abs(x: real): real { if x < 0.0 then -x else x }

  function Doubly(k: int, u: real): real { Times(2 * k, u) }

  ghost predicate EvenMultiple(v: real, u: real) {
    exists k :: v == Doubly(k, u)
  }

  /** Round to nearest, ties to even: of two equally near neighbours, the even multiple of their distance. */
  ghost predicate NoFarther(x: real, v: real, w: real) {
    || v == w
    || Abs(x - v) < Abs(x - w)
    || (Abs(x - v) == Abs(x - w) && EvenMultiple(v, Abs(v - w)))
  }

  /** IEEE 754-2019 section 4.3.1, roundTiesToEven. */
  ghost predicate IsNearest(x: real, v: real) {
    && Binary64(v)
    && forall m, e :: 0 <= m < Pow2(53) && MIN_EXPONENT <= e <= MAX_EXPONENT ==> NoFarther(x, v, Value(m, e))
  }

  /** The nearest integer, the even one of two. */
  function RoundEven(y: real): (n: int)
    ensures Abs(y - n as real) <= 0.5
    ensures Abs(y - n as real) == 0.5 ==> n % 2 == 0
  {
    var f := y.Floor;
    var d := y - f as real;
    if d < 0.5 || (d == 0.5 && f % 2 == 0) then f else f + 1
  }

  /** The exponent of the binade of x, from `e` up. */
  function Exponent(x: real, e: int): (r: int)
    requires 0.0 <= x < Scale(1024) && MIN_EXPONENT <= e <= MAX_EXPONENT
    ensures e <= r <= MAX_EXPONENT && x < Scale(r + 53)
    ensures r == e || x >= Scale(r + 52)
    decreases MAX_EXPONENT - e
  {
    if x < Scale(e + 53) then e
    else if e == MAX_EXPONENT then assert false; e
    else Exponent(x, e + 1)
  }

  /** strconv.ParseFloat on a non-negative decimal; None is its range error. */
  function ToBinary64(x: real): Option<real>
    requires x >= 0.0
  {
    if x >= Scale(1024) then None
    else
      var e := Exponent(x, MIN_EXPONENT);
      var v := Value(RoundEven(x / Scale(e)), e);
      if v >= Scale(1024) then None else Some(v)
  }

  // ---- ToBinary64 rounds to nearest ----

  lemma ExponentIsTight(x: real, e: int)
    requires 0.0 <= x && MIN_EXPONENT <= e <= MAX_EXPONENT && x < Scale(e + 53)
    requires e == MIN_EXPONENT || x >= Scale(e + 52)
    ensures x < Scale(1024) && Exponent(x, MIN_EXPONENT) == e
  {
    hide Pow2, Scale, Mul, Times;
    ScaleGrows(e + 53, 1024);
    var r := Exponent(x, MIN_EXPONENT);
    if r < e {
      ScaleGrows(r + 53, e + 52);
    } else if r > e {
      ScaleGrows(e + 53, r + 52);
    }
  }

  lemma NearestInteger(y: real, k: int)
    ensures var m := RoundEven(y);
            || k == m
            || Abs(y - m as real) < Abs(y - k as real)
            || (Abs(y - m as real) == Abs(y - k as real) && m % 2 == 0 && Abs(m as real - k as real) == 1.0)
  {
  }

  lemma Scaled(a: real, b: real, s: real)
    requires s > 0.0
    ensures a < b ==> Mul(a, s) < Mul(b, s)
    ensures a == b ==> Mul(a, s) == Mul(b, s)
    ensures Mul(0.5, s) == 0.5 * s && Mul(1.0, s) == s && Mul(0.0, s) == 0.0
  {
  }

  lemma DistanceOnGrid(y: real, s: real, k: int)
    requires s > 0.0
    ensures Abs(Mul(y, s) - Times(k, s)) == Mul(Abs(y - k as real), s)
  {
    assert y * s - k as real * s == (y - k as real) * s;
  }

  lemma EvenOnGrid(m: int, s: real)
    requires m % 2 == 0
    ensures EvenMultiple(Times(m, s), s)
  {
    assert Times(m, s) == Doubly(m / 2, s);
  }

  lemma GridDistances(m: int, k: int, s: real)
    requires s > 0.0 && Abs(m as real - k as real) == 1.0
    ensures Abs(Times(m, s) - Times(k, s)) == s
  {
    assert m as real * s - k as real * s == (m as real - k as real) * s;
  }

  lemma Quotient(x: real, s: real)
    requires s > 0.0
    ensures Mul(x / s, s) == x
  {
  }

  /** Against numbers on the same grid or a coarser one. */
  lemma NearestOnGrid(x: real, y: real, s: real, k: int)
    requires s > 0.0 && x == Mul(y, s)
    ensures NoFarther(x, Times(RoundEven(y), s), Times(k, s))
  {
    hide Mul, Times, EvenMultiple, RoundEven;
    var m := RoundEven(y);
    NearestInteger(y, k);
    DistanceOnGrid(y, s, m);
    DistanceOnGrid(y, s, k);
    Scaled(Abs(y - m as real), Abs(y - k as real), s);
    if k != m && Abs(y - m as real) == Abs(y - k as real) {
      GridDistances(m, k, s);
      EvenOnGrid(m, s);
    }
  }

  /** On a grid of step s, rounding is off by at most half a step. */
  lemma HalfAStep(x: real, y: real, s: real)
    requires s > 0.0 && x == Mul(y, s)
    ensures Abs(x - Times(RoundEven(y), s)) <= 0.5 * s
  {
    hide Mul, Times;
    var d := Abs(y - RoundEven(y) as real);
    DistanceOnGrid(y, s, RoundEven(y));
    Scaled(d, 0.5, s);
  }

  /** Finer numbers are all below the binade of x. */
  lemma FinerIsBelow(e: int, m: int, f: int)
    requires f < e && 0 <= m < Pow2(53)
    ensures Value(m, f) < Value(Pow2(52), e) == Scale(e + 52)
  {
    hide Pow2, Scale, Mul, Times;
    ScaleShifts(e, 52);
    ScaleShifts(f, 53);
    ScaleGrows(f + 53, e + 52);
    TimesGrows(m, Pow2(53), Scale(f));
  }

  lemma CoarserIsOnGrid(e: int, m: int, f: int)
    requires f >= e
    ensures Value(m, f) == Times(m * Pow2(f - e), Scale(e))
  {
    hide Pow2, Scale, Mul, Times;
    ScaleShifts(e, f - e);
    assert e + (f - e) == f;
    TimesTwice(m, Pow2(f - e), Scale(e));
  }

  lemma NearestOfAll(x: real, e: int, m: int, f: int)
    requires 0.0 <= x && (f < e ==> x >= Scale(e + 52)) && 0 <= m < Pow2(53)
    ensures NoFarther(x, Value(RoundEven(x / Scale(e)), e), Value(m, f))
  {
    hide Pow2, Scale, Mul, Times, RoundEven, EvenMultiple;
    Quotient(x, Scale(e));
    if f >= e {
      CoarserIsOnGrid(e, m, f);
      NearestOnGrid(x, x / Scale(e), Scale(e), m * Pow2(f - e));
    } else {
      FinerIsBelow(e, m, f);
      NearestOnGrid(x, x / Scale(e), Scale(e), Pow2(52));
    }
  }

  lemma RoundIsBounded(x: real, e: int)
    requires 0.0 <= x < Scale(e + 53)
    ensures 0 <= RoundEven(x / Scale(e)) <= Pow2(53)
  {
    hide Pow2, Scale, Mul;
    ScaleShifts(e, 53);
    var y, p := x / Scale(e), Pow2(53) as real;
    Quotient(x, Scale(e));
    Scaled(p, y, Scale(e));
    Scaled(y, 0.0, Scale(e));
  }

  /** A significand that rounds up to 2^53 is 2^52 one exponent on. */
  lemma CarriesOver(e: int)
    ensures Value(Pow2(53), e) == Value(Pow2(52), e + 1) == Scale(e + 53)
  {
    hide Pow2, Scale, Mul, Times;
    ScaleShifts(e, 53);
    ScaleShifts(e + 1, 52);
    assert e + 1 + 52 == e + 53;
  }

  lemma RoundedIsBinary64(m: int, e: int)
    requires 0 <= m <= Pow2(53) && MIN_EXPONENT <= e <= MAX_EXPONENT && Value(m, e) < Scale(1024)
    ensures Binary64(Value(m, e))
  {
    hide Pow2, Scale, Mul, Times;
    if m == Pow2(53) {
      CarriesOver(e);
      assert e < MAX_EXPONENT;
      Pow2Doubles(52);
      assert 0 <= Pow2(52) < Pow2(53);
      assert Value(m, e) == Value(Pow2(52), e + 1);
    }
  }

  /** What ParseFloat returns is the nearest binary64 number, ties to even. */
  lemma ToBinary64IsNearest(x: real)
    requires x >= 0.0 && ToBinary64(x).Some?
    ensures IsNearest(x, ToBinary64(x).value)
  {
    hide Pow2, Scale, Mul, Times;
    var e := Exponent(x, MIN_EXPONENT);
    RoundIsBounded(x, e);
    RoundedIsBinary64(RoundEven(x / Scale(e)), e);
    forall n, f | 0 <= n < Pow2(53) && MIN_EXPONENT <= f <= MAX_EXPONENT
      ensures NoFarther(x, Value(RoundEven(x / Scale(e)), e), Value(n, f))
    {
      NearestOfAll(x, e, n, f);
    }
  }

  // ---- Printing with two decimals ----

  /** strconv.FormatFloat(v, 'f', 2, 64), as the number of cents it spells. */
  function Fmt2(v: real): int { RoundEven(v * 100.0) }

  function OfCents(n: int): real { n as real / 100.0 }

  const EXACT_DOLLARS: int := 0x4000_0000_0000  // 2^46
  const COLUMN_CENTS: int := 1_000_000_000_000_000_000  // NUMERIC(18,2) holds less than this

  lemma Landmarks()
    ensures Scale(46) == EXACT_DOLLARS as real && Scale(47) == 2.0 * EXACT_DOLLARS as real
    ensures Scale(-7) == 1.0 / 128.0 && Scale(-6) == 1.0 / 64.0
  {
    assert Pow2(7) == 128;
    LargePower();
    ScaleDoubles(46);
  }

  lemma LargePower()
    ensures Scale(46) == EXACT_DOLLARS as real
  {
    assert Pow2(10) == 1024;
    assert Pow2(6) == 64;
    ScaleShifts(10, 10);
    ScaleShifts(20, 10);
    ScaleShifts(30, 10);
    ScaleShifts(40, 6);
  }

  /** Below 2^46 an amount is off by at most 2^-8, which is less than half a cent. */
  lemma NearBelow(x: real)
    requires 0.0 <= x < EXACT_DOLLARS as real
    ensures ToBinary64(x).Some? && Abs(x - ToBinary64(x).value) <= 1.0 / 256.0
  {
    hide Pow2, Scale, Mul, Times;
    Landmarks();
    ScaleGrows(46, 1024);
    ScaleGrows(47, 1024);
    var e := Exponent(x, MIN_EXPONENT);
    if e > -7 {
      ScaleGrows(46, e + 52);
    }
    ScaleGrows(e, -7);
    Quotient(x, Scale(e));
    HalfAStep(x, x / Scale(e), Scale(e));
  }

  /** Every stored amount from 0 to 2^46 comes back as it is. */
  lemma CentsSurvive(n: int)
    requires 0 <= n <= 100 * EXACT_DOLLARS
    ensures ToBinary64(OfCents(n)).Some? && Fmt2(ToBinary64(OfCents(n)).value) == n
  {
    hide Pow2, Scale, ToBinary64;
    var x := OfCents(n);
    if n < 100 * EXACT_DOLLARS {
      NearBelow(x);
    } else {
      AtTheEdge();
    }
  }

  lemma OverSixtyFour(m: int)
    ensures Times(m, 1.0 / 64.0) == m as real / 64.0
  {
  }

  lemma AboveTheEdge(x: real)
    requires EXACT_DOLLARS as real <= x < 2.0 * EXACT_DOLLARS as real - 1.0
    ensures ToBinary64(x) == Some(RoundEven(64.0 * x) as real / 64.0)
  {
    hide Pow2, Scale, Mul, Times;
    Landmarks();
    ExponentIsTight(x, -6);
    ScaleGrows(47, 1024);
    assert x / (1.0 / 64.0) == 64.0 * x;
    Quotient(x, 1.0 / 64.0);
    HalfAStep(x, 64.0 * x, 1.0 / 64.0);
    OverSixtyFour(RoundEven(64.0 * x));
  }

  lemma AtTheEdge()
    ensures var x := EXACT_DOLLARS as real; ToBinary64(x) == Some(x) && Fmt2(x) == 100 * EXACT_DOLLARS
    ensures var x := OfCents(100 * EXACT_DOLLARS + 1); ToBinary64(x) == Some(EXACT_DOLLARS as real + 1.0 / 64.0)
  {
    hide Pow2, Scale, ToBinary64;
    AboveTheEdge(EXACT_DOLLARS as real);
    AboveTheEdge(OfCents(100 * EXACT_DOLLARS + 1));
  }

  /** The very next cent is lost: it prints one too high, well inside the column. */
  lemma NextCentIsLost()
    ensures var n := 100 * EXACT_DOLLARS + 1;
            n < COLUMN_CENTS && ToBinary64(OfCents(n)).Some? && Fmt2(ToBinary64(OfCents(n)).value) == n + 1
  {
    hide Pow2, Scale, Mul, Times;
    AtTheEdge();
  }

  /** The amounts from 0 to a limit all survive exactly if the limit is at most 2^46. */
  lemma RoundTripBoundIsTight(limit: nat)
    ensures (forall n :: 0 <= n <= limit ==> ToBinary64(OfCents(n)).Some? && Fmt2(ToBinary64(OfCents(n)).value) == n)
            <==> limit <= 100 * EXACT_DOLLARS
  {
    hide Pow2, Scale, Mul, Times;
    if limit <= 100 * EXACT_DOLLARS {
      forall n | 0 <= n <= limit ensures ToBinary64(OfCents(n)).Some? && Fmt2(ToBinary64(OfCents(n)).value) == n {
        CentsSurvive(n);
      }
    } else {
      NextCentIsLost();
    }
  }

  // ---- From the request to the reply ----

  /** A NUMERIC, as pgtype scans it from the request's text. */
  datatype Numeric = Finite(value: real) | NaN | PosInfinity | NegInfinity

  datatype Float = Real(value: real) | FloatNaN | FloatPosInfinity | FloatNegInfinity

  /** Numeric.Float64Value; None is its range error. */
  function ToFloat(n: Numeric): Option<Float> {
    match n
    case Finite(x) =>
      (match ToBinary64(if x < 0.0 then -x else x)
       case Some(v) => Some(Real(if x < 0.0 then -v else v))
       case None => None)
    case NaN => Some(FloatNaN)
    case PosInfinity => Some(FloatPosInfinity)
    case NegInfinity => Some(FloatNegInfinity)
  }

  /** validateAmount on what was scanned, if it could be: accepted unless the float is at most zero. NaN is not. */
  predicate Accepted(amount: Option<Numeric>) {
    amount.Some? &&
    match ToFloat(amount.value)
    case None => false
    case Some(Real(v)) => !(v <= 0.0)
    case Some(FloatNaN) => true
    case Some(FloatPosInfinity) => true
    case Some(FloatNegInfinity) => false
  }

  datatype Stored = Cents(cents: int) | StoredNaN

  /** PostgreSQL rounds to the scale of the column, halves away from zero. */
  function RoundHalfAway(y: real): int {
    if y >= 0.0 then (y + 0.5).Floor else -((0.5 - y).Floor)
  }

  /** NUMERIC(18,2); None is its overflow error. */
  function Store(n: Numeric): Option<Stored> {
    match n
    case Finite(x) => var c := RoundHalfAway(x * 100.0); if -COLUMN_CENTS < c < COLUMN_CENTS then Some(Cents(c)) else None
    case NaN => Some(StoredNaN)
    case _ => None
  }

  /** What the column takes is what is below its bound when rounded; and then it is the nearest number of cents, the one
      farther from zero on a tie. */
  lemma ColumnTakes(x: real)
    ensures Store(Finite(x)).Some? <==> Abs(x) < 9999999999999999.995
    ensures Store(Finite(x)).Some? ==>
              && Store(Finite(x)).value.Cents?
              && var c := Store(Finite(x)).value.cents as real;
                 Abs(c - x * 100.0) <= 0.5 && (Abs(c - x * 100.0) == 0.5 ==> Abs(c) > Abs(x * 100.0))
  {
  }

  datatype Text = CentsText(cents: int) | NaNText | NoText

  /** The amount in the reply: the stored one through Float64Value and FormatFloat. */
  function Shown(stored: Stored): Text {
    match stored
    case StoredNaN => NaNText
    case Cents(c) =>
      match ToFloat(Finite(OfCents(c)))
      case Some(Real(v)) => CentsText(Fmt2(v))
      case _ => NoText
  }

  /** Rounding keeps the sign, and reaches zero exactly up to half a step. */
  lemma RoundSign(x: real, s: real)
    requires s > 0.0 && x >= 0.0
    ensures Times(RoundEven(x / s), s) >= 0.0
    ensures Times(RoundEven(x / s), s) == 0.0 <==> x <= 0.5 * s
  {
    hide Mul, Times, RoundEven;
    var y := x / s;
    Quotient(x, s);
    Scaled(y, 0.0, s);
    Scaled(0.5, y, s);
    Scaled(y, 0.5, s);
    SmallRounds(y);
    TimesGrows(0, RoundEven(y), s);
  }

  lemma SmallRounds(y: real)
    requires y >= 0.0
    ensures RoundEven(y) == 0 <==> y <= 0.5
    ensures RoundEven(y) >= 0
  {
  }

  lemma SignOfBinary64(x: real)
    requires x >= 0.0 && ToBinary64(x).Some?
    ensures ToBinary64(x).value >= 0.0
    ensures ToBinary64(x).value == 0.0 <==> x <= Scale(MIN_EXPONENT - 1)
  {
    hide Pow2, Scale, Mul, Times, RoundEven;
    var e := Exponent(x, MIN_EXPONENT);
    RoundSign(x, Scale(e));
    ScaleDoubles(MIN_EXPONENT - 1);
    if e > MIN_EXPONENT {
      ScaleGrows(e, e + 52);
      ScaleGrows(MIN_EXPONENT, e);
    }
  }

  /** Accepted is what is above half the smallest positive binary64 number, up to its range. */
  lemma AcceptedFinite(x: real)
    ensures Accepted(Some(Finite(x))) <==> x > Scale(MIN_EXPONENT - 1) && ToBinary64(x).Some?
  {
    hide Pow2, Scale, ToBinary64;
    if x >= 0.0 {
      if ToBinary64(x).Some? { SignOfBinary64(x); }
    } else if ToBinary64(-x).Some? {
      SignOfBinary64(-x);
    }
  }

  /** With at most two decimals, accepted means greater than zero, up to the range of binary64. */
  lemma AcceptedCents(n: int)
    ensures Accepted(Some(Finite(OfCents(n)))) <==> n > 0 && ToBinary64(OfCents(n)).Some?
  {
    hide Pow2, Scale, ToBinary64, Accepted;
    AcceptedFinite(OfCents(n));
    ScaleGrows(MIN_EXPONENT - 1, -7);
    Landmarks();
  }

  /** An accepted amount that rounds to at most 2^46 is stored and returned as the request rounded to cents, and that
      is positive exactly if the request was at least half a cent: smaller ones are accepted and become 0.00. */
  lemma AmountsAreConserved(x: real)
    requires Accepted(Some(Finite(x))) && RoundHalfAway(x * 100.0) <= 100 * EXACT_DOLLARS
    ensures var c := RoundHalfAway(x * 100.0);
            && Store(Finite(x)) == Some(Cents(c)) && Shown(Cents(c)) == CentsText(c)
            && c >= 0 && (c > 0 <==> x >= 0.005)
            && Abs(c as real - x * 100.0) <= 0.5
  {
    hide Pow2, Scale, ToBinary64, Accepted;
    AcceptedFinite(x);
    CentsSurvive(RoundHalfAway(x * 100.0));
  }

  /** NaN is not at most zero, so it is accepted, stored and shown. */
  lemma NaNIsAccepted()
    ensures Accepted(Some(NaN)) && Store(NaN) == Some(StoredNaN) && Shown(StoredNaN) == NaNText
  {
  }
}
