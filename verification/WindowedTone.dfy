/** What a window makes of a tone that sits exactly on a bin. */
module WindowedTones {
  import opened ComplexNumbers
  import opened Trigonometry
  import opened Fourier
  import opened SpectralLaws
  import opened RealSums
  import opened HannWindows

  /** The first `n` terms of w[0] + w[1] z + w[2] z^2 + ... */
  function Kernel(w: seq<real>, z: Complex, n: nat): Complex
    requires n <= |w|
  {
    if n == 0 then ZERO else Kernel(w, z, n - 1).Plus(Pow(z, n - 1).Scaled(w[n - 1]))
  }

  /** The windowed tone on bin `m` leaves its amplitude times the kernel in bin `k`. */
  lemma {:induction false} WindowedToneSum(t: Trig, m: nat, a: Complex, w: seq<real>, k: nat, i: nat)
    requires t.Lawful() && 0 < |w| && i <= |w|
    ensures DftSum(Weighted(Tone(t, |w|, m, a), w), Twiddle(t, |w|), k, i)
         == a.Times(Kernel(w, Residual(t, |w|, m, k), i))
  {
    hide Complex.Times, Complex.Plus, Complex.Scaled, Pow, Tone, Twiddle, Trig.Lawful, Residual;
    var n, z := |w|, Residual(t, |w|, m, k);
    if i == 0 {
      TimesZeroRight(a);
    } else {
      WindowedToneSum(t, m, a, w, k, i - 1);
      var x, p := Tone(t, n, m, a)[i - 1], Pow(z, i - 1);
      ToneTerm(t, n, m, a, k, i - 1);
      ScaledTimes(x, Pow(Twiddle(t, n), (i - 1) * k), w[i - 1]);
      ScaledTimes(a, p, w[i - 1]);
      TimesDistributes(a, Kernel(w, z, i - 1), p.Scaled(w[i - 1]));
    }
  }

  lemma {:induction false} KernelOfOne(w: seq<real>, z: Complex, n: nat)
    requires n <= |w| && z == ONE
    ensures Kernel(w, z, n) == Complex(Total(w[..n]), 0.0)
  {
    hide Pow, Total;
    if n == 0 {
      EmptyTotal();
    } else {
      KernelOfOne(w, z, n - 1);
      PowOne(z, n - 1);
      PrefixTotal(w, n);
    }
  }

  /** A non-negative window sums to at most its total, and once it is below it stays below. */
  lemma KernelStep(w: seq<real>, z: Complex, n: nat)
    requires 0 < n <= |w| && NonNegative(w) && z.NormSq() == 1.0
    ensures BelowTotal(w, z, n - 1) ==> BelowTotal(w, z, n)
    ensures AtMostTotal(w, z, n - 1) ==> AtMostTotal(w, z, n)
  {
    hide Complex.NormSq, Complex.Scaled, Complex.Plus, Pow, Total;
    TotalNonNegative(w[..n - 1]);
    PowNorm(z, n - 1);
    PrefixTotal(w, n);
    var s, u := Kernel(w, z, n - 1), Total(w[..n - 1]);
    if s.NormSq() <= u * u {
      WeightedStep(s, Pow(z, n - 1), w[n - 1], u, u);
    }
  }

  predicate AtMostTotal(w: seq<real>, z: Complex, n: nat)
    requires n <= |w|
  {
    Kernel(w, z, n).NormSq() <= Total(w[..n]) * Total(w[..n])
  }

  predicate BelowTotal(w: seq<real>, z: Complex, n: nat)
    requires n <= |w|
  {
    Kernel(w, z, n).NormSq() < Total(w[..n]) * Total(w[..n])
  }

  lemma {:induction false} StaysBelowTotal(w: seq<real>, z: Complex, j: nat, n: nat)
    requires j <= n <= |w| && NonNegative(w) && z.NormSq() == 1.0 && BelowTotal(w, z, j)
    ensures BelowTotal(w, z, n)
  {
    hide BelowTotal, AtMostTotal;
    if j < n {
      StaysBelowTotal(w, z, j, n - 1);
      KernelStep(w, z, n);
    }
  }

  /** Two positive coefficients in a row and a turning phase already lose something. */
  lemma ThreeTerms(w: seq<real>, z: Complex)
    requires |w| >= 3 && w[0] == 0.0 && w[1] > 0.0 && w[2] > 0.0
    requires z.NormSq() == 1.0 && z != ONE
    ensures BelowTotal(w, z, 3)
  {
    hide Complex.NormSq, Complex.Times, Complex.Plus, Complex.Scaled, Pow, Total, Kernel;
    var s := ONE.Scaled(w[1]).Plus(z.Scaled(w[2]));
    KernelOfThree(w, z);
    NormSqTimes(z, s);
    assert w[..0] == [];
    EmptyTotal();
    PrefixTotal(w, 1);
    PrefixTotal(w, 2);
    PrefixTotal(w, 3);
    assert Total(w[..3]) == w[1] + w[2];
    TwoTermEnergy(w[1], w[2], z);
  }

  lemma TwoTermEnergy(p: real, q: real, z: Complex)
    requires p > 0.0 && q > 0.0 && z.NormSq() == 1.0 && z != ONE
    ensures ONE.Scaled(p).Plus(z.Scaled(q)).NormSq() < (p + q) * (p + q)
  {
    hide Complex.NormSq, Complex.Plus, Complex.Scaled;
    UnitBelowOne(z);
    RealNorm(p);
    SumEnergy(Complex(p, 0.0), z, q, p * z.re);
    assert q * q * z.NormSq() == q * q;
    TwoTermArithmetic(p, q, z.re, q * q * z.NormSq());
    OneScaled(p);
  }

  lemma OneScaled(p: real)
    ensures ONE.Scaled(p) == Complex(p, 0.0)
  {}

  lemma RealNorm(r: real)
    ensures Complex(r, 0.0).NormSq() == r * r
  {}

  lemma TwoTermArithmetic(p: real, q: real, c: real, qq: real)
    requires p > 0.0 && q > 0.0 && c < 1.0 && qq == q * q
    ensures qq + 2.0 * q * (p * c) + p * p < (p + q) * (p + q)
  {
    var g := p * q;
    Positive(p, q, g);
    Positive(g, 1.0 - c, g * (1.0 - c));
    assert q * (p * c) == g * c;
    assert (p + q) * (p + q) == p * p + 2.0 * g + q * q;
  }

  lemma UnitBelowOne(z: Complex)
    requires z.NormSq() == 1.0 && z != ONE
    ensures z.re < 1.0
  {
    UnitCosine(z);
    if z.re == 1.0 {
      SquareSign(z.im, z.im * z.im);
    }
  }

  lemma KernelOfThree(w: seq<real>, z: Complex)
    requires |w| >= 3 && w[0] == 0.0
    ensures Kernel(w, z, 3) == z.Times(ONE.Scaled(w[1]).Plus(z.Scaled(w[2])))
  {
    hide Complex.Times, Complex.Plus, Complex.Scaled, Pow;
    assert Kernel(w, z, 0) == ZERO;
    FirstTermGone(Pow(z, 0));
    PowOneStep(z);
    PowTwo(z);
    FirstTermGone(z.Scaled(w[1]));
    TimesDistributes(z, ONE.Scaled(w[1]), z.Scaled(w[2]));
    ScaledTimes(z, ONE, w[1]);
    ScaledTimes(z, z, w[2]);
    OneTimes(z);
    assert Kernel(w, z, 1) == Kernel(w, z, 0).Plus(Pow(z, 0).Scaled(w[0]));
    assert Kernel(w, z, 2) == Kernel(w, z, 1).Plus(Pow(z, 1).Scaled(w[1]));
    assert Kernel(w, z, 3) == Kernel(w, z, 2).Plus(Pow(z, 2).Scaled(w[2]));
  }

  lemma FirstTermGone(p: Complex)
    ensures ZERO.Plus(p.Scaled(0.0)) == ZERO
    ensures ZERO.Plus(p) == p
  {}

  lemma PowOneStep(z: Complex)
    ensures Pow(z, 1) == z
  {
    hide Complex.Times;
    assert Pow(z, 0) == ONE;
    OneTimes(z);
  }

  // ---- under the Hann window ----

  lemma HannInside(t: Trig, n: nat, i: nat)
    requires t.Lawful() && t.TurnsOnce() && 0 < i < n - 1
    ensures Hann(t, n, i) > 0.0
  {
    hide Trig.Cis, Complex.NormSq, Trig.Lawful;
    var a, r := HannAngle(t, n, i), (n - 1) as real;
    assert t.pi > 0.0 by { PiPositive(t); }
    InsideTurn(t.pi, i as real, r, a);
    assert t.ShortOfTurn(a);
    t.CisUnit(a);
    UnitBelowOne(t.Cis(a));
    CosineIsReal(t, a);
  }

  lemma PiPositive(t: Trig)
    requires t.Lawful()
    ensures t.pi > 0.0
  {}

  lemma CosineIsReal(t: Trig, a: real)
    ensures t.Cis(a).re == t.cos(a)
  {}

  lemma InsideTurn(pi: real, i: real, r: real, a: real)
    requires pi > 0.0 && 0.0 < i < r && a == 2.0 * pi * i / r
    ensures 0.0 < a < 2.0 * pi
  {
    assert a * r == 2.0 * pi * i;
    Positive(pi, i, pi * i);
    Positive(pi, r - i, pi * (r - i));
    if a <= 0.0 {
      Positive(-a, r, -a * r);
    }
    if a >= 2.0 * pi {
      Positive(a - 2.0 * pi, r, (a - 2.0 * pi) * r);
    }
  }

  lemma HannStart(t: Trig, n: nat)
    requires t.Lawful() && n >= 2
    ensures Hann(t, n, 0) == 0.0
  {
    assert HannAngle(t, n, 0) == 0.0;
    t.CisZero();
  }

  lemma HannNonNegative(t: Trig, n: nat)
    requires t.Lawful() && n >= 2
    ensures NonNegative(HannWindow(t, n))
  {
    hide Hann, Trig.Lawful;
    forall i | 0 <= i < n ensures HannWindow(t, n)[i] >= 0.0 {
      HannRange(t, n, i);
    }
  }

  /** Away from its own bin a windowed tone is strictly weaker. */
  lemma KernelOffBin(t: Trig, n: nat, z: Complex)
    requires t.Lawful() && t.TurnsOnce() && n >= 4 && z.NormSq() == 1.0 && z != ONE
    ensures BelowTotal(HannWindow(t, n), z, n)
  {
    hide Hann, Trig.Lawful, BelowTotal, Complex.NormSq, Trig.TurnsOnce;
    var w := HannWindow(t, n);
    HannNonNegative(t, n);
    HannStart(t, n);
    HannInside(t, n, 1);
    HannInside(t, n, 2);
    ThreeTerms(w, z);
    StaysBelowTotal(w, z, 3, n);
  }

  lemma ResidualOwnBin(t: Trig, n: nat, m: nat)
    requires t.Lawful() && n > 0
    ensures Residual(t, n, m, m) == ONE
  {
    hide Complex.Times, Pow, Step, Twiddle, Trig.Lawful;
    StepInverse(t, n);
    InversePowers(Step(t, n), Twiddle(t, n), m);
  }

  lemma ResidualUnit(t: Trig, n: nat, m: nat, k: nat)
    requires t.Lawful() && n > 0
    ensures Residual(t, n, m, k).NormSq() == 1.0
  {
    hide Complex.Times, Complex.NormSq, Pow, Twiddle, Trig.Lawful;
    t.CisUnit(2.0 * t.pi / n as real);
    TwiddleUnit(t, n);
    PowNorm(Step(t, n), m);
    PowNorm(Twiddle(t, n), k);
    NormSqTimes(Pow(Step(t, n), m), Pow(Twiddle(t, n), k));
  }

  lemma KernelAtMost(t: Trig, n: nat, m: nat, k: nat)
    requires t.Lawful() && n >= 2
    ensures var w := HannWindow(t, n);
      Kernel(w, Residual(t, n, m, k), n).NormSq() <= Total(w) * Total(w)
  {
    hide Complex.NormSq, Kernel, Residual, HannWindow, Total, Trig.Lawful;
    var w := HannWindow(t, n);
    HannNonNegative(t, n);
    ResidualUnit(t, n, m, k);
    AtMostEverywhere(w, Residual(t, n, m, k), n);
    assert w[..n] == w;
  }

  lemma {:induction false} AtMostEverywhere(w: seq<real>, z: Complex, n: nat)
    requires n <= |w| && NonNegative(w) && z.NormSq() == 1.0
    ensures AtMostTotal(w, z, n)
  {
    hide AtMostTotal, BelowTotal, Complex.NormSq;
    if n == 0 {
      AtMostAtFirst(w, z);
    } else {
      AtMostEverywhere(w, z, n - 1);
      KernelStep(w, z, n);
    }
  }

  lemma AtMostAtFirst(w: seq<real>, z: Complex)
    ensures AtMostTotal(w, z, 0)
  {
    hide Complex.NormSq, Total;
    NormSqSign(ZERO);
    assert w[..0] == [];
    EmptyTotal();
  }

  /** In the tone's own bin the kernel is the window's total, and nowhere is it more. */
  lemma KernelPeak(t: Trig, n: nat, m: nat, k: nat)
    requires t.Lawful() && n >= 2
    ensures var w := HannWindow(t, n);
      && Kernel(w, Residual(t, n, m, m), n).NormSq() == Total(w) * Total(w)
      && Kernel(w, Residual(t, n, m, k), n).NormSq() <= Total(w) * Total(w)
  {
    hide Complex.NormSq, Kernel, Residual, HannWindow, Total, Trig.Lawful;
    var w := HannWindow(t, n);
    ResidualOwnBin(t, n, m);
    KernelOfOne(w, Residual(t, n, m, m), n);
    assert w[..n] == w;
    RealNorm(Total(w));
    KernelAtMost(t, n, m, k);
  }
}
