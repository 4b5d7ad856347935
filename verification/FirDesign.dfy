/** Kaiser-windowed low-pass taps. */
module FirDesign {
  import opened ComplexNumbers
  import opened Trigonometry
  import opened RealSums
  import opened Results

  // ---- the Bessel series ----

  function Quotient(a: real, b: real): real
    requires b != 0.0
  {
    a / b
  }

  function Power(h: real, k: nat): real {
    if k == 0 then 1.0 else Power(h, k - 1) * h
  }

  function Factorial(k: nat): (f: real)
    ensures f > 0.0
  {
    if k == 0 then 1.0 else Factorial(k - 1) * k as real
  }

  function FactorialSquared(k: nat): (f: real)
    ensures f > 0.0
  {
    Positive(Factorial(k), Factorial(k), Factorial(k) * Factorial(k));
    Factorial(k) * Factorial(k)
  }

  /** Term `k` of the series of I0 at x, with h = (x/2)^2: h^k / (k!)^2. */
  function Term(h: real, k: nat): real {
    Quotient(Power(h, k), FactorialSquared(k))
  }

  /** The terms 0 to `k` together. */
  function PartialSum(h: real, k: nat): real {
    if k == 0 then Term(h, 0) else PartialSum(h, k - 1) + Term(h, k)
  }

  predicate Negligible(term: real, sum: real) {
    term < 0.0000000001 * sum
  }

  const LAST_TERM: nat := 20

  /** The first term from `k` on that is negligible beside the sum it completes, or the twentieth. */
  function CutOff(h: real, k: nat): (last: nat)
    requires 1 <= k <= LAST_TERM
    ensures k <= last <= 20
    ensures forall j :: k <= j < last ==> Term(h, j) >= 0.0000000001 * PartialSum(h, j)
    ensures last < 20 ==> Term(h, last) < 0.0000000001 * PartialSum(h, last)
    decreases LAST_TERM - k, h
  {
    if k == LAST_TERM || Negligible(Term(h, k), PartialSum(h, k)) then k else CutOff(h, k + 1)
  }

  function HalfSquare(x: real): real {
    x / 2.0 * (x / 2.0)
  }

  /** The series of I0 up to its first negligible term or the twentieth. */
  function BesselI0(x: real): real {
    PartialSum(HalfSquare(x), CutOff(HalfSquare(x), 1))
  }

  /** The recurrence between terms. */
  lemma TermStep(h: real, k: nat)
    requires k >= 1
    ensures Term(h, k) == Term(h, k - 1) * Quotient(h, (k * k) as real)
  {
    hide Power, FactorialSquared, Quotient;
    var r := k as real;
    FactorialStep(k, r * r);
    assert (k * k) as real == r * r;
    Positive(r, r, r * r);
    PowerStep(h, k);
    ProductOfQuotients(Power(h, k - 1), FactorialSquared(k - 1), h, (k * k) as real, Power(h, k), FactorialSquared(k));
  }

  lemma PowerStep(h: real, k: nat)
    requires k >= 1
    ensures Power(h, k) == Power(h, k - 1) * h
  {}

  lemma FactorialStep(k: nat, rr: real)
    requires k >= 1 && rr == k as real * k as real
    ensures FactorialSquared(k) == FactorialSquared(k - 1) * rr
  {
    SquareOfProduct(Factorial(k - 1), k as real, Factorial(k), FactorialSquared(k - 1), rr);
  }

  lemma SquareOfProduct(f: real, r: real, g: real, ff: real, rr: real)
    requires g == f * r && ff == f * f && rr == r * r
    ensures g * g == ff * rr
  {}

  lemma ProductOfQuotients(p: real, f: real, h: real, q: real, ph: real, fq: real)
    requires f > 0.0 && q > 0.0 && ph == p * h && fq == f * q
    ensures fq > 0.0 && Quotient(p, f) * Quotient(h, q) == Quotient(ph, fq)
  {
    var a, b := p / f, h / q;
    assert a * f == p && b * q == h;
    Positive(f, q, fq);
    Interchanged(a, b, f, q);
    ExactRatio(a * b, fq, ph);
  }

  lemma Interchanged(a: real, b: real, f: real, q: real)
    ensures a * b * (f * q) == a * f * (b * q)
  {}

  /** The loop multiplies its way from term to term and stops at the cut-off. */
  method ComputeBesselI0(x: real) returns (sum: real)
    ensures sum == BesselI0(x)
  {
    hide Term, Negligible, HalfSquare, Quotient;
    sum := 1.0;
    var term := 1.0;
    var h := HalfSquare(x);
    FirstTerm(h);
    var k := 1;
    while k <= 20
      invariant 1 <= k <= LAST_TERM + 1
      invariant term == Term(h, k - 1) && sum == PartialSum(h, k - 1)
      invariant CutOff(h, 1) == if k <= LAST_TERM then CutOff(h, k) else LAST_TERM
      decreases 21 - k
    {
      TermStep(h, k);
      term := term * Quotient(h, (k * k) as real);
      sum := sum + term;
      assert sum == PartialSum(h, k);
      if Negligible(term, sum) {
        assert CutOff(h, k) == k;
        return;
      }
      k := k + 1;
    }
  }

  lemma FirstTerm(h: real)
    ensures Term(h, 0) == 1.0
  {}

  /** Term k of the series at x is (x/2)^2k / (k!)^2. */
  lemma {:induction false} TermAt(x: real, k: nat)
    ensures Power(HalfSquare(x), k) == Power(x / 2.0, 2 * k)
    ensures Term(HalfSquare(x), k) * FactorialSquared(k) == Power(x / 2.0, 2 * k)
  {
    hide FactorialSquared;
    if k > 0 {
      TermAt(x, k - 1);
      var b, p := x / 2.0, Power(x / 2.0, 2 * (k - 1));
      assert Power(b, 2 * k) == Power(b, 2 * k - 1) * b;
      assert Power(b, 2 * k - 1) == p * b;
      assert p * b * b == p * (b * b);
    }
    QuotientTimes(Power(HalfSquare(x), k), FactorialSquared(k));
  }

  lemma QuotientTimes(a: real, b: real)
    requires b != 0.0
    ensures Quotient(a, b) * b == a
  {}

  /** At zero the series is 1. */
  lemma BesselAtZero()
    ensures BesselI0(0.0) == 1.0
  {
    hide CutOff;
    var h := HalfSquare(0.0);
    assert h == 0.0;
    FirstTerm(h);
    TermStep(h, 1);
    assert Term(h, 1) == 0.0 by { ZeroQuotient(1.0); }
    assert PartialSum(h, 1) == PartialSum(h, 0) + Term(h, 1);
    CutOffAtFirst(h);
  }

  lemma ZeroQuotient(b: real)
    requires b != 0.0
    ensures Quotient(0.0, b) == 0.0
  {}

  lemma CutOffAtFirst(h: real)
    requires Term(h, 1) < 0.0000000001 * PartialSum(h, 1)
    ensures CutOff(h, 1) == 1
  {
    hide Term, PartialSum;
  }

  lemma {:induction false} TermSign(h: real, k: nat)
    requires h >= 0.0
    ensures Term(h, k) >= 0.0
  {
    hide Term;
    if k == 0 {
      FirstTerm(h);
    } else {
      TermSign(h, k - 1);
      TermStep(h, k);
      var q := Quotient(h, (k * k) as real);
      QuotientSign(h, (k * k) as real, q);
      Positive(Term(h, k - 1), q, Term(h, k - 1) * q);
    }
  }

  lemma QuotientSign(a: real, b: real, q: real)
    requires a >= 0.0 && b > 0.0 && q == a / b
    ensures q >= 0.0
  {
    assert q * b == a;
    if q < 0.0 {
      Positive(-q, b, -q * b);
    }
  }

  lemma {:induction false} PartialSumAtLeastOne(h: real, k: nat)
    requires h >= 0.0
    ensures PartialSum(h, k) >= 1.0
  {
    hide Term;
    if k == 0 {
      FirstTerm(h);
    } else {
      PartialSumAtLeastOne(h, k - 1);
      TermSign(h, k);
    }
  }

  lemma BesselPositive(x: real)
    ensures BesselI0(x) >= 1.0
  {
    hide PartialSum, CutOff;
    SquareSign(x / 2.0, HalfSquare(x));
    PartialSumAtLeastOne(HalfSquare(x), CutOff(HalfSquare(x), 1));
  }

  // ---- the taps ----

  /** What the design is given: the square root it calls, cutoff and rate in Hz and the Kaiser parameter. */
  datatype Design = Design(trig: Trig, sqrt: real -> real, cutoffHz: real, rateHz: real, beta: real)

  lemma QuotientNegated(a: real, b: real)
    requires b != 0.0
    ensures Quotient(-a, -b) == Quotient(a, b)
  {
    var q := a / b;
    assert q * b == a;
    assert q * -b == -a;
  }

  /** The argument of the sine `t` samples from the centre. */
  function SincAngle(g: Design, t: real): real
    requires g.rateHz > 0.0
  {
    2.0 * g.trig.pi * g.cutoffHz / g.rateHz * t
  }

  lemma SincAngleOdd(g: Design, t: real)
    requires g.rateHz > 0.0
    ensures SincAngle(g, -t) == -SincAngle(g, t)
  {}

  function PiTimes(g: Design, t: real): (d: real)
    requires g.trig.pi > 0.0
    ensures d == 0.0 <==> t == 0.0
  {
    if t == 0.0 then 0.0 else
      Positive(g.trig.pi, t, g.trig.pi * t);
      Positive(g.trig.pi, -t, -(g.trig.pi * t));
      g.trig.pi * t
  }

  lemma PiTimesOdd(g: Design, t: real)
    requires g.trig.pi > 0.0
    ensures PiTimes(g, -t) == -PiTimes(g, t)
  {}

  function Sinc(g: Design, t: real): real
    requires g.rateHz > 0.0 && g.trig.pi > 0.0
  {
    if t == 0.0 then 1.0 else Quotient(g.trig.sin(SincAngle(g, t)), PiTimes(g, t))
  }

  lemma SincEven(g: Design, t: real)
    requires g.trig.Lawful() && g.rateHz > 0.0
    ensures Sinc(g, -t) == Sinc(g, t)
  {
    hide Quotient, SincAngle, PiTimes;
    if t != 0.0 {
      SincAngleOdd(g, t);
      PiTimesOdd(g, t);
      assert g.trig.Reflects(SincAngle(g, t));
      QuotientNegated(g.trig.sin(SincAngle(g, t)), PiTimes(g, t));
    }
  }

  /** The argument of the window's numerator where 1 - alpha^2 is `c`. */
  function KaiserArgument(g: Design, c: real): real {
    g.beta * g.sqrt(c)
  }

  function Circle(alpha: real): real {
    1.0 - alpha * alpha
  }

  lemma CircleEven(a: real, b: real)
    requires b == -a
    ensures Circle(a) == Circle(b)
  {}

  function Kaiser(g: Design, alpha: real): real {
    BesselPositive(g.beta);
    Quotient(BesselI0(KaiserArgument(g, Circle(alpha))), BesselI0(g.beta))
  }

  lemma KaiserEven(g: Design, a: real, b: real)
    requires b == -a
    ensures Kaiser(g, a) == Kaiser(g, b)
  {
    hide BesselI0, Quotient, Circle, KaiserArgument;
    CircleEven(a, b);
  }

  /** How far tap `n` of `m + 1` lies from the centre, in samples and as a fraction. */
  function Offset(m: nat, n: nat): real {
    n as real - m as real / 2.0
  }

  function Fraction(m: nat, n: nat): real
    requires m > 0
  {
    2.0 * n as real / m as real - 1.0
  }

  lemma FractionOdd(m: nat, n: nat)
    requires m > 0 && n <= m
    ensures Fraction(m, m - n) == -Fraction(m, n) && Offset(m, m - n) == -Offset(m, n)
  {
    var r := m as real;
    var q := 2.0 * n as real / r;
    assert q * r == 2.0 * n as real;
    assert (m - n) as real == r - n as real;
    ExactRatio(2.0 - q, r, 2.0 * (m - n) as real);
  }

  lemma ExactRatio(x: real, r: real, y: real)
    requires r != 0.0 && x * r == y
    ensures y / r == x
  {}

  /** Tap `n` of `m + 1` before normalisation. */
  function RawTap(g: Design, m: nat, n: nat): real
    requires g.rateHz > 0.0 && g.trig.pi > 0.0 && m > 0
  {
    Sinc(g, Offset(m, n)) * Kaiser(g, Fraction(m, n))
  }

  function RawTaps(g: Design, m: nat): (s: seq<real>)
    requires g.rateHz > 0.0 && g.trig.pi > 0.0 && m > 0
    ensures |s| == m + 1
    ensures forall n :: 0 <= n <= m ==> s[n] == RawTap(g, m, n)
  {
    seq(m + 1, n requires 0 <= n <= m => RawTap(g, m, n))
  }

  lemma RawTapSymmetric(g: Design, m: nat, n: nat)
    requires g.trig.Lawful() && g.rateHz > 0.0 && 0 < m && n <= m
    ensures RawTap(g, m, m - n) == RawTap(g, m, n)
  {
    hide Sinc, Kaiser, Offset, Fraction;
    FractionOdd(m, n);
    SincEven(g, Offset(m, n));
    KaiserEven(g, Fraction(m, m - n), Fraction(m, n));
  }

  /** The centre tap is exactly 1 before normalisation, so the taps are never all zero. */
  lemma CentreTap(g: Design, h: nat)
    requires g.rateHz > 0.0 && g.trig.pi > 0.0 && h > 0 && g.sqrt(1.0) == 1.0
    ensures RawTap(g, 2 * h, h) == 1.0
  {
    hide BesselI0, KaiserArgument, Circle, Quotient, Fraction, Offset;
    BesselPositive(g.beta);
    HalfFraction(h);
    KaiserCentre(g);
    QuotientSum(0.0, 0.0, BesselI0(g.beta));
  }

  lemma KaiserCentre(g: Design)
    requires g.sqrt(1.0) == 1.0
    ensures KaiserArgument(g, Circle(0.0)) == g.beta
  {}

  lemma SelfQuotient(r: real)
    requires r != 0.0
    ensures r / r == 1.0
  {}

  lemma HalfFraction(h: nat)
    requires h > 0
    ensures Fraction(2 * h, h) == 0.0 && Offset(2 * h, h) == 0.0
  {
    assert (2 * h) as real == 2.0 * h as real;
    SelfQuotient(2.0 * h as real);
  }

  // ---- normalisation ----

  function Normalised(s: seq<real>): (r: seq<real>)
    ensures |r| == |s|
  {
    var gain := Total(s);
    if gain > 0.0 then seq(|s|, i requires 0 <= i < |s| => Quotient(s[i], gain)) else s
  }

  lemma {:induction false} TotalOfQuotients(s: seq<real>, r: seq<real>, gain: real)
    requires gain > 0.0 && |r| == |s| && forall i :: 0 <= i < |s| ==> r[i] == Quotient(s[i], gain)
    ensures Total(r) == Quotient(Total(s), gain)
  {
    hide Quotient;
    if s == [] {
      QuotientSum(0.0, 0.0, gain);
    } else {
      TotalOfQuotients(s[1..], r[1..], gain);
      QuotientSum(s[0], Total(s[1..]), gain);
    }
  }

  lemma QuotientSum(a: real, b: real, c: real)
    requires c > 0.0
    ensures Quotient(a + b, c) == Quotient(a, c) + Quotient(b, c)
    ensures Quotient(c, c) == 1.0
    ensures a == 0.0 <==> Quotient(a, c) == 0.0
  {
    var p, q := a / c, b / c;
    assert p * c == a && q * c == b;
    assert (p + q) * c == a + b;
  }

  /** Unity gain at zero frequency exactly when the raw gain is positive. */
  lemma NormalisedTotal(s: seq<real>)
    ensures Total(Normalised(s)) == 1.0 <==> Total(s) > 0.0
  {
    hide Quotient, Total;
    if Total(s) > 0.0 {
      TotalOfQuotients(s, Normalised(s), Total(s));
      QuotientSum(0.0, 0.0, Total(s));
    }
  }

  lemma NormalisedNonZero(s: seq<real>, i: nat)
    requires i < |s| && s[i] != 0.0
    ensures Normalised(s)[i] != 0.0
  {
    hide Quotient, Total;
    if Total(s) > 0.0 {
      QuotientSum(s[i], 0.0, Total(s));
    }
  }

  /** The order actually used: the tap count is forced odd. */
  function Order(numTaps: nat): nat {
    if numTaps % 2 == 0 then numTaps else numTaps - 1
  }

  ghost predicate Symmetric(s: seq<real>) {
    forall i :: 0 <= i < |s| ==> s[i] == s[|s| - 1 - i]
  }

  lemma TapsSymmetric(g: Design, m: nat)
    requires g.trig.Lawful() && g.rateHz > 0.0 && m > 0
    ensures Symmetric(Normalised(RawTaps(g, m)))
  {
    hide RawTap, Quotient, Total;
    var s := RawTaps(g, m);
    forall i | 0 <= i < |s| ensures s[i] == s[m - i] {
      RawTapSymmetric(g, m, i);
    }
  }

  /**
   * The taps are odd in number, symmetric, never all zero, and of unit sum
   * exactly when their raw sum is positive. Asked for no tap or one, the
   * design divides zero by zero, and its only tap is not a number: None.
   */
  method DesignFirLowpass(numTaps: nat, g: Design) returns (design: Option<seq<real>>)
    requires g.rateHz > 0.0 && g.trig.Lawful() && g.sqrt(1.0) == 1.0
    ensures design.None? <==> numTaps <= 1
    ensures design.Some? ==> numTaps <= |design.value| <= numTaps + 1 && |design.value| % 2 == 1
    ensures design.Some? ==> design.value == Normalised(RawTaps(g, Order(numTaps)))
    ensures design.Some? ==> Symmetric(design.value) && design.value[|design.value| / 2] != 0.0
    ensures design.Some? ==> (Total(design.value) == 1.0 <==> Total(RawTaps(g, Order(numTaps))) > 0.0)
  {
    hide Quotient, Total, BesselI0, RawTap, Sinc, Kaiser, Trig.Lawful;
    var m := if numTaps % 2 == 0 then numTaps else numTaps - 1;
    if m == 0 {
      return None;
    }
    LawfulPi(g.trig);
    ghost var raw := RawTaps(g, m);
    var taps := [];
    var n := 0;
    while n <= m
      invariant 0 <= n <= m + 1 && taps == raw[..n]
    {
      var tap := ComputeTap(g, m, n);
      taps := taps + [tap];
      n := n + 1;
    }
    assert taps == raw;
    taps := Normalise(taps);
    TapsSymmetric(g, m);
    CentreTap(g, m / 2);
    NormalisedNonZero(raw, m / 2);
    NormalisedTotal(raw);
    return Some(taps);
  }

  lemma LawfulPi(t: Trig)
    requires t.Lawful()
    ensures t.pi > 0.0
  {}

  method ComputeTap(g: Design, m: nat, n: nat) returns (tap: real)
    requires g.rateHz > 0.0 && g.trig.pi > 0.0 && 0 < m && n <= m
    ensures tap == RawTap(g, m, n)
  {
    hide Quotient, BesselI0, Offset, Fraction, SincAngle, PiTimes, KaiserArgument, Circle;
    var t := Offset(m, n);
    var sinc := if t == 0.0 then 1.0 else Quotient(g.trig.sin(SincAngle(g, t)), PiTimes(g, t));
    var alpha := Fraction(m, n);
    var top := ComputeBesselI0(KaiserArgument(g, Circle(alpha)));
    var bottom := ComputeBesselI0(g.beta);
    BesselPositive(g.beta);
    tap := sinc * Quotient(top, bottom);
  }

  /** Unity gain at zero frequency: every tap is divided by a positive sum of taps. */
  method Normalise(raw: seq<real>) returns (taps: seq<real>)
    ensures taps == Normalised(raw)
  {
    hide Quotient, Total;
    taps := raw;
    var gain := Accumulate(taps);
    if gain > 0.0 {
      var i := 0;
      while i < |taps|
        invariant 0 <= i <= |taps| == |raw|
        invariant forall k :: 0 <= k < i ==> taps[k] == Quotient(raw[k], gain)
        invariant forall k :: i <= k < |raw| ==> taps[k] == raw[k]
      {
        taps := taps[i := Quotient(taps[i], gain)];
        i := i + 1;
      }
    }
  }

  method Accumulate(s: seq<real>) returns (sum: real)
    ensures sum == Total(s)
  {
    sum := 0.0;
    var i := 0;
    while i < |s|
      invariant 0 <= i <= |s| && sum == Total(s[..i])
    {
      TotalSnoc(s[..i], s[i]);
      assert s[..i + 1] == s[..i] + [s[i]];
      sum := sum + s[i];
      i := i + 1;
    }
    assert s[..|s|] == s;
  }
}
