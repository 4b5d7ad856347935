/** The spectrum of a block that is only close to a tone, as sixteen bits leave it. */
module RobustTones {
  import opened ComplexNumbers
  import opened Trigonometry
  import opened BitReversal
  import opened Fourier
  import opened SpectralLaws
  import opened Samples
  import opened RealSums
  import opened HannWindows
  import opened WindowedTones
  import opened KernelBounds
  import opened PowerSpectrum

  // ---- sums of two complex numbers of known size ----

  lemma PlusEnergy(u: Complex, v: Complex, c: real)
    requires c == u.re * v.re + u.im * v.im
    ensures u.Plus(v).NormSq() == u.NormSq() + 2.0 * c + v.NormSq()
  {}

  /** The inner product is at most the product of the sizes. */
  lemma InnerProduct(u: Complex, v: Complex, r: real, q: real, c: real)
    requires r >= 0.0 && q >= 0.0 && u.NormSq() <= r * r && v.NormSq() <= q * q
    requires c == u.re * v.re + u.im * v.im
    ensures c <= r * q
  {
    hide Complex.NormSq;
    NormSqSign(v);
    if q == 0.0 {
      assert v == ZERO;
    } else {
      var l, e := r / q, r * q;
      RatioSign(r, q, l);
      Positive(r, q, e);
      assert l * e == r * r;
      CrossTerm(u, v, l, e, c);
      ScaledBound(l, v.NormSq(), q * q);
      assert l * (q * q) == e;
    }
  }

  lemma RatioSign(r: real, q: real, l: real)
    requires r >= 0.0 && q > 0.0 && l == r / q
    ensures l >= 0.0 && l * q == r
    ensures r >= q ==> l >= 1.0
  {
    assert l * q == r;
    if l < 0.0 {
      Positive(-l, q, -l * q);
    }
    if l < 1.0 {
      Positive(1.0 - l, q, (1.0 - l) * q);
    }
  }

  lemma SumAtMost(u: Complex, v: Complex, r: real, q: real)
    requires r >= 0.0 && q >= 0.0 && u.NormSq() <= r * r && v.NormSq() <= q * q
    ensures u.Plus(v).NormSq() <= (r + q) * (r + q)
  {
    hide Complex.NormSq, Complex.Plus;
    var c := u.re * v.re + u.im * v.im;
    InnerProduct(u, v, r, q, c);
    PlusEnergy(u, v, c);
    assert (r + q) * (r + q) == r * r + 2.0 * (r * q) + q * q;
  }

  lemma SumAtLeast(u: Complex, v: Complex, r: real, q: real)
    requires 0.0 <= q <= r && u.NormSq() == r * r && v.NormSq() <= q * q
    ensures (r - q) * (r - q) <= u.Plus(v).NormSq()
  {
    hide Complex.NormSq, Complex.Plus;
    var c := u.re * v.re + u.im * v.im;
    PlusEnergy(u, v, c);
    NormSqSign(v);
    if q == 0.0 {
      assert v == ZERO;
    } else {
      var l, e, n := r / q, r * q, u.Scaled(-1.0);
      RatioSign(r, q, l);
      Positive(r, q, e);
      Negated(u);
      assert l * e == r * r;
      CrossTerm(n, v, l, e, -c);
      ScaledBound(l - 1.0, v.NormSq(), q * q);
      assert l * (q * q) == e;
      SquareOfDifference(r, q, l, e, v.NormSq(), c);
    }
  }

  lemma Negated(u: Complex)
    ensures u.Scaled(-1.0).NormSq() == u.NormSq() && u.Scaled(-1.0) == Complex(-u.re, -u.im)
  {}

  lemma SquareOfDifference(r: real, q: real, l: real, e: real, vv: real, c: real)
    requires e == r * q && l * (q * q) == e && -2.0 * c <= l * vv + e
    requires (l - 1.0) * vv <= q * q * (l - 1.0)
    ensures (r - q) * (r - q) <= r * r + 2.0 * c + vv
  {
    assert (r - q) * (r - q) == r * r - 2.0 * e + q * q;
    assert q * q * (l - 1.0) == e - q * q;
    assert (l - 1.0) * vv == l * vv - vv;
  }

  // ---- the transform of a block near another ----

  ghost predicate Near(x: seq<Complex>, y: seq<Complex>, eps: real) {
    |x| == |y| && forall i :: 0 <= i < |x| ==> x[i].Minus(y[i]).NormSq() <= eps * eps
  }

  function Errors(x: seq<Complex>, y: seq<Complex>): (e: seq<Complex>)
    requires |x| == |y|
    ensures |e| == |x|
  {
    seq(|x|, i requires 0 <= i < |x| => x[i].Minus(y[i]))
  }

  lemma {:induction false} SumSplits(x: seq<Complex>, y: seq<Complex>, w: seq<real>, root: Complex, k: nat, n: nat)
    requires |x| == |y| == |w| && n <= |x|
    ensures DftSum(Weighted(x, w), root, k, n)
         == DftSum(Weighted(y, w), root, k, n).Plus(DftSum(Weighted(Errors(x, y), w), root, k, n))
  {
    hide Complex.Times, Complex.Plus, Complex.Scaled, Complex.Minus, Pow;
    if n == 0 {
      ZeroPlus();
    } else {
      SumSplits(x, y, w, root, k, n - 1);
      var p, e := Pow(root, (n - 1) * k), x[n - 1].Minus(y[n - 1]);
      SplitSample(x[n - 1], y[n - 1], w[n - 1]);
      TimesDistributes(p, y[n - 1].Scaled(w[n - 1]), e.Scaled(w[n - 1]));
      PlusPairs(DftSum(Weighted(y, w), root, k, n - 1), DftSum(Weighted(Errors(x, y), w), root, k, n - 1),
                y[n - 1].Scaled(w[n - 1]).Times(p), e.Scaled(w[n - 1]).Times(p));
    }
  }

  lemma ZeroPlus()
    ensures ZERO.Plus(ZERO) == ZERO
  {}

  lemma SplitSample(x: Complex, y: Complex, w: real)
    ensures x.Scaled(w) == y.Scaled(w).Plus(x.Minus(y).Scaled(w))
  {}

  lemma PlusPairs(a: Complex, b: Complex, c: Complex, d: Complex)
    ensures a.Plus(b).Plus(c.Plus(d)) == a.Plus(c).Plus(b.Plus(d))
  {}

  /** What errors of at most `eps` put into a bin. */
  lemma ErrorBin(t: Trig, x: seq<Complex>, y: seq<Complex>, eps: real, k: nat)
    requires t.Lawful() && |x| >= 2 && Near(x, y, eps)
    ensures var w := HannWindow(t, |x|); var q := eps * Total(w);
      DftSum(Weighted(Errors(x, y), w), Twiddle(t, |x|), k, |x|).NormSq() <= q * q
  {
    hide Complex.NormSq, Trig.Lawful, HannWindow, Total, DftSum, Twiddle, Weighted;
    var w, s := HannWindow(t, |x|), Total(HannWindow(t, |x|));
    TwiddleUnit(t, |x|);
    HannNonNegative(t, |x|);
    WindowedBinBound(Errors(x, y), w, Twiddle(t, |x|), k, eps * eps);
    assert eps * s * (eps * s) == eps * eps * (s * s);
  }

  // ---- the peak ----

  /** Every bin but `m` holds at most the share `rho` of a windowed tone on bin `m`. */
  ghost predicate Leaks(t: Trig, n: nat, m: nat, rho: real)
    requires n >= 2
  {
    var s := rho * Total(HannWindow(t, n));
    forall k {:trigger Residual(t, n, m, k)} :: 0 <= k < n && k != m ==>
      Kernel(HannWindow(t, n), Residual(t, n, m, k), n).NormSq() <= s * s
  }

  /** A block near a tone of amplitude `amp` on bin `m`. */
  ghost predicate NearTone(t: Trig, x: seq<Complex>, m: nat, a: Complex, amp: real, eps: real) {
    && |x| >= 2 && m < |x| && amp >= 0.0 && eps >= 0.0
    && amp * amp == a.NormSq() && Near(x, Tone(t, |x|, m, a), eps)
  }

  /** The tone's part of a bin, and the errors'. */
  lemma TwoParts(t: Trig, x: seq<Complex>, m: nat, a: Complex, amp: real, eps: real, k: nat)
    returns (u: Complex, v: Complex)
    requires t.Lawful() && NearTone(t, x, m, a, amp, eps) && k < |x|
    ensures WindowedPower(t, x, k) == Normalised(u.Plus(v), |x|)
    ensures u == a.Times(Kernel(HannWindow(t, |x|), Residual(t, |x|, m, k), |x|))
    ensures var q := eps * Total(HannWindow(t, |x|)); v.NormSq() <= q * q
  {
    hide Complex.NormSq, Complex.Times, Complex.Plus, Trig.Lawful, HannWindow, Total, DftSum, Twiddle, Weighted, Tone,
      Kernel, Residual, Normalised, WindowedPower, Near;
    var n, w, y := |x|, HannWindow(t, |x|), Tone(t, |x|, m, a);
    NearLength(x, y, eps);
    u := DftSum(Weighted(y, w), Twiddle(t, n), k, n);
    v := DftSum(Weighted(Errors(x, y), w), Twiddle(t, n), k, n);
    PowerIsSum(t, x, k);
    SumSplits(x, y, w, Twiddle(t, n), k, n);
    WindowedToneSum(t, m, a, w, k, n);
    ErrorBin(t, x, y, eps, k);
  }

  lemma NearLength(x: seq<Complex>, y: seq<Complex>, eps: real)
    requires Near(x, y, eps)
    ensures |x| == |y|
  {}

  /** The peak stays where it is as long as the gap to the next bin outweighs the errors on both. */
  lemma RobustPeak(t: Trig, x: seq<Complex>, m: nat, a: Complex, amp: real, eps: real, rho: real, k: nat)
    requires t.Lawful() && NearTone(t, x, m, a, amp, eps) && Leaks(t, |x|, m, rho) && rho >= 0.0
    requires Total(HannWindow(t, |x|)) > 0.0 && amp * rho + 2.0 * eps < amp
    requires k < |x| && k != m
    ensures 0.0 <= WindowedPower(t, x, k) < WindowedPower(t, x, m)
  {
    hide Complex.NormSq, Complex.Times, Complex.Plus, Trig.Lawful, HannWindow, Total, Kernel, Residual, Normalised,
      WindowedPower, Near;
    var w, s := HannWindow(t, |x|), Total(HannWindow(t, |x|));
    var c, d := Kernel(w, Residual(t, |x|, m, k), |x|), Kernel(w, Residual(t, |x|, m, m), |x|);
    var u, v := TwoParts(t, x, m, a, amp, eps, k);
    var b, e := TwoParts(t, x, m, a, amp, eps, m);
    KernelPeak(t, |x|, m, m);
    GapOutweighs(a, c, d, v, e, amp, rho, eps, s, amp * s, amp * (rho * s), eps * s);
    Louder(u.Plus(v), b.Plus(e), |x|);
  }

  lemma GapOutweighs(a: Complex, c: Complex, d: Complex, v: Complex, e: Complex, amp: real, rho: real, eps: real,
                     s: real, p: real, r: real, q: real)
    requires amp >= 0.0 && rho >= 0.0 && eps >= 0.0 && s > 0.0 && amp * amp == a.NormSq()
    requires amp * rho + 2.0 * eps < amp && p == amp * s && r == amp * (rho * s) && q == eps * s
    requires c.NormSq() <= rho * s * (rho * s) && d.NormSq() == s * s
    requires v.NormSq() <= q * q && e.NormSq() <= q * q
    ensures a.Times(c).Plus(v).NormSq() < a.Times(d).Plus(e).NormSq()
  {
    hide Complex.NormSq, Complex.Times, Complex.Plus;
    NormSqTimes(a, c);
    NormSqTimes(a, d);
    ToneSizes(amp, rho, eps, s, a.NormSq(), c.NormSq(), p, r, q);
    Separated(a.Times(c), v, a.Times(d), e, p, r, q);
  }

  lemma Separated(u: Complex, v: Complex, b: Complex, e: Complex, p: real, r: real, q: real)
    requires u.NormSq() <= r * r && v.NormSq() <= q * q && b.NormSq() == p * p && e.NormSq() <= q * q
    requires 0.0 <= r && 0.0 <= q <= p && r + q < p - q
    ensures u.Plus(v).NormSq() < b.Plus(e).NormSq()
  {
    hide Complex.NormSq, Complex.Plus;
    SumAtMost(u, v, r, q);
    SumAtLeast(b, e, p, q);
    SquaresApart(r + q, p - q);
  }

  lemma ToneSizes(amp: real, rho: real, eps: real, s: real, aa: real, kk: real, p: real, r: real, q: real)
    requires amp >= 0.0 && rho >= 0.0 && eps >= 0.0 && s > 0.0 && aa == amp * amp
    requires p == amp * s && r == amp * (rho * s) && q == eps * s
    requires amp * rho + 2.0 * eps < amp && kk <= rho * s * (rho * s)
    ensures aa * (s * s) == p * p && aa * kk <= r * r
    ensures 0.0 <= r && 0.0 <= q <= p && r + q < p - q
  {
    var rs := rho * s;
    Positive(rho, s, rs);
    Positive(amp, rs, r);
    Positive(eps, s, q);
    SameSquare(amp, s, p, aa);
    SameSquare(amp, rs, r, aa);
    SquareSign(amp, aa);
    ScaledBound(aa, kk, rs * rs);
    var gap := amp - amp * rho - 2.0 * eps;
    Positive(gap, s, gap * s);
    assert gap * s == p - r - 2.0 * q;
  }

  lemma SameSquare(a: real, s: real, p: real, aa: real)
    requires p == a * s && aa == a * a
    ensures aa * (s * s) == p * p
  {}

  lemma SquaresApart(a: real, b: real)
    requires 0.0 <= a < b
    ensures a * a < b * b
  {
    Positive(b - a, b + a, (b - a) * (b + a));
  }

  lemma Louder(u: Complex, v: Complex, n: nat)
    requires n > 0 && u.NormSq() < v.NormSq()
    ensures 0.0 <= Normalised(u, n) < Normalised(v, n)
  {
    hide Complex.NormSq, Normalised;
    NormSqSign(u);
    NormalisedIs(u, n, u.NormSq());
    NormalisedIs(v, n, v.NormSq());
    QuotientsOrdered(0.0, u.NormSq(), n as real * n as real);
    QuotientsOrdered(u.NormSq(), v.NormSq(), n as real * n as real);
  }

  /** So a block near a tone on bin m still peaks in column (m + n/2) mod n, and in no other. */
  lemma RobustColumn(t: Trig, p: nat, log10: real -> real, x: seq<Complex>, m: nat, a: Complex, amp: real, eps: real,
                     rho: real, i: nat)
    requires t.Lawful() && LogLaw(log10) && p >= 1 && |x| == Pow2(p) && i < |x|
    requires NearTone(t, x, m, a, amp, eps) && Leaks(t, |x|, m, rho) && rho >= 0.0
    requires Total(HannWindow(t, |x|)) > 0.0 && amp * rho + 2.0 * eps < amp
    ensures var line, column := Line(t, log10, x), (m + |x| / 2) % |x|;
      i != column ==> line[i] < line[column]
  {
    hide DisplayBin, Trig.Lawful, WindowedPower, ToDecibels, LogLaw, Leaks, Near, HannWindow, Total;
    ColumnOfBin(|x|, m, i);
    ColumnOfBin(|x|, m, (m + |x| / 2) % |x|);
    if i != (m + |x| / 2) % |x| {
      var k := DisplayBin(|x|, i);
      RobustPeak(t, x, m, a, amp, eps, rho, k);
      LevelsOrdered(log10, WindowedPower(t, x, k), WindowedPower(t, x, m));
    }
  }

  /** From 16 samples on no other bin holds more than eight tenths of a tone. */
  lemma LeaksEightTenths(t: Trig, p: nat, m: nat)
    requires t.Lawful() && t.TurnsOnce() && p >= 4 && m < Pow2(p)
    ensures Pow2(p) >= 16 && Total(HannWindow(t, Pow2(p))) > 0.0
    ensures Leaks(t, Pow2(p), m, 0.8)
  {
    hide Complex.NormSq, Trig.Lawful, HannWindow, Total, Kernel, Residual, Trig.TurnsOnce;
    SixteenOrMore(p);
    OwnBinEnergy(t, Pow2(p), m);
    forall k | 0 <= k < Pow2(p) && k != m
      ensures var s := 0.8 * Total(HannWindow(t, Pow2(p)));
        Kernel(HannWindow(t, Pow2(p)), Residual(t, Pow2(p), m, k), Pow2(p)).NormSq() <= s * s
    {
      LeakAt(t, p, m, k);
    }
  }

  lemma LeakAt(t: Trig, p: nat, m: nat, k: nat)
    requires t.Lawful() && t.TurnsOnce() && p >= 4 && m < Pow2(p) && k < Pow2(p) && k != m
    ensures Pow2(p) >= 16
    ensures var s := 0.8 * Total(HannWindow(t, Pow2(p)));
      Kernel(HannWindow(t, Pow2(p)), Residual(t, Pow2(p), m, k), Pow2(p)).NormSq() <= s * s
  {
    hide Complex.NormSq, Trig.Lawful, HannWindow, Total, Kernel, Residual, Trig.TurnsOnce;
    SixteenOrMore(p);
    OwnBinEnergy(t, Pow2(p), m);
    KernelOffBinBound(t, p, m, k);
    EightTenths((Pow2(p) - 1) as real, (Pow2(p) + 2) as real, 0.8 * Total(HannWindow(t, Pow2(p))));
  }

  lemma SixteenOrMore(p: nat)
    requires p >= 4
    ensures Pow2(p) >= 16
  {
    FourOrMore(p - 2);
    assert Pow2(p) == 2 * Pow2(p - 1) && Pow2(p - 1) == 2 * Pow2(p - 2);
  }

  lemma EightTenths(q: real, r: real, s: real)
    requires q >= 15.0 && r == q + 3.0 && s == 0.4 * q
    ensures q * r / 8.0 <= s * s
  {
    assert q * r == q * q + 3.0 * q;
    assert s * s == 0.16 * (q * q);
    Positive(q, q - 15.0, q * (q - 15.0));
    assert q * (q - 15.0) == q * q - 15.0 * q;
  }

  // ---- sixteen bits ----

  /** The samples of a tone, each component truncated to a step of 16 bits. */
  ghost predicate TruncatedTone(t: Trig, iq: seq<int16>, n: nat, m: nat, a: Complex)
    requires n > 0 && 2 * n <= |iq|
  {
    forall i :: 0 <= i < n ==> TruncatedSample(iq[2 * i], iq[2 * i + 1], Tone(t, n, m, a)[i])
  }

  predicate TruncatedSample(re: int16, im: int16, z: Complex) {
    re == Truncate(FULL_SCALE * z.re) && im == Truncate(FULL_SCALE * z.im)
  }

  /** A step and a half of 16 bits. */
  const STEP_AND_HALF: real := 1.5 / 32768.0

  lemma TruncatedNear(iq: seq<int16>, i: nat, z: Complex)
    requires 2 * i + 1 < |iq| && TruncatedSample(iq[2 * i], iq[2 * i + 1], z)
    ensures SampleAt(iq, i).Minus(z).NormSq() <= STEP_AND_HALF * STEP_AND_HALF
  {
    hide Complex.NormSq, Truncate;
    var d := SampleAt(iq, i).Minus(z);
    WithinStep(FULL_SCALE * z.re);
    WithinStep(FULL_SCALE * z.im);
    SmallSquare(d.re);
    SmallSquare(d.im);
    NormSqIs(d);
  }

  lemma WithinStep(v: real)
    ensures -1.0 < Truncate(v) as real - v < 1.0
  {}

  lemma SmallSquare(r: real)
    requires -1.0 < 32768.0 * r < 1.0
    ensures r * r <= 1.125 / (32768.0 * 32768.0)
  {
    var u := 32768.0 * r;
    Positive(1.0 - u, 1.0 + u, (1.0 - u) * (1.0 + u));
    assert u * u == 32768.0 * 32768.0 * (r * r);
  }

  lemma NormSqIs(d: Complex)
    ensures d.NormSq() == d.re * d.re + d.im * d.im
  {}

  /** A truncated tone of more than 15 steps peaks in its own column, and in no other. */
  lemma TruncatedColumn(t: Trig, p: nat, log10: real -> real, iq: seq<int16>, m: nat, a: Complex, amp: real, i: nat)
    requires t.Lawful() && t.TurnsOnce() && LogLaw(log10) && p >= 4 && m < Pow2(p) && i < Pow2(p)
    requires 2 * Pow2(p) <= |iq| && TruncatedTone(t, iq, Pow2(p), m, a)
    requires amp * amp == a.NormSq() && amp * FULL_SCALE > 15.0
    ensures Pow2(p) >= 16
    ensures var n := Pow2(p);
      var line, column := Decibels(t, n, log10, iq), (m + n / 2) % n;
      i != column ==> line[i] < line[column]
  {
    hide Trig.Lawful, Trig.TurnsOnce, WindowedPower, ToDecibels, LogLaw, Leaks, HannWindow, Total, Tone,
      Complex.NormSq, Complex.Minus, SampleAt, Line;
    var n := Pow2(p);
    LeaksEightTenths(t, p, m);
    forall j | 0 <= j < n
      ensures Block(iq, n)[j].Minus(Tone(t, n, m, a)[j]).NormSq() <= STEP_AND_HALF * STEP_AND_HALF
    {
      TruncatedNear(iq, j, Tone(t, n, m, a)[j]);
    }
    RobustColumn(t, p, log10, Block(iq, n), m, a, amp, STEP_AND_HALF, 0.8, i);
  }
}
