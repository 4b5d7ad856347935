/** How little of a windowed tone any other bin can hold: the energy of the Hann window leaves no more. */
module KernelBounds {
  import opened ComplexNumbers
  import opened Trigonometry
  import opened BitReversal
  import opened Fourier
  import opened SpectralLaws
  import opened RealSums
  import opened HannWindows
  import opened WindowedTones

  // ---- the energy of the window ----

  function Square(r: real): real {
    r * r
  }

  function Squares(w: seq<real>): (s: seq<real>)
    ensures |s| == |w|
  {
    seq(|w|, i requires 0 <= i < |w| => Square(w[i]))
  }

  /** The double angle, for a point of the unit circle. */
  lemma DoubleAngle(c: Complex)
    requires c.NormSq() == 1.0
    ensures c.Times(c).re == 2.0 * (c.re * c.re) - 1.0
  {}

  lemma HannSquare(t: Trig, n: nat, i: nat)
    requires t.Lawful() && n >= 2
    ensures var z := Step(t, n - 1);
      Hann(t, n, i) * Hann(t, n, i) == 0.25 * (1.5 - 2.0 * Pow(z, i).re + 0.5 * Pow(z.Times(z), i).re)
  {
    hide Hann, Pow, Complex.NormSq, Complex.Times, Trig.Lawful, Trig.Cis;
    var z := Step(t, n - 1);
    var c := Pow(z, i);
    HannPower(t, n, i);
    t.CisUnit(2.0 * t.pi / (n - 1) as real);
    PowNorm(z, i);
    DoubleAngle(c);
    PowProduct(z, z, i);
    SquaredHalf(c.re, Hann(t, n, i));
  }

  lemma SquaredHalf(c: real, h: real)
    requires h == 0.5 * (1.0 - c)
    ensures h * h == 0.25 * (1.5 - 2.0 * c + 0.5 * (2.0 * (c * c) - 1.0))
  {}

  lemma {:induction false} HannPartialEnergy(t: Trig, n: nat, k: nat)
    requires t.Lawful() && n >= 2 && k <= n
    ensures var z := Step(t, n - 1);
      Total(Squares(HannWindow(t, n))[..k])
      == 0.25 * (1.5 * k as real - 2.0 * Geometric(z, k).re + 0.5 * Geometric(z.Times(z), k).re)
  {
    hide Hann, Pow, Step, Complex.Times, Trig.Lawful, Total;
    var s := Squares(HannWindow(t, n));
    if k == 0 {
      assert s[..0] == [];
      EmptyTotal();
    } else {
      HannPartialEnergy(t, n, k - 1);
      HannSquare(t, n, k - 1);
      PrefixTotal(s, k);
    }
  }

  /** Two steps of the window's cosine are not a full turn yet. */
  lemma TwoStepsShort(t: Trig, n: nat)
    requires t.Lawful() && t.TurnsOnce() && n >= 4
    ensures Step(t, n - 1).Times(Step(t, n - 1)) != ONE && Step(t, n - 1) != ONE
  {
    hide Complex.Times, Trig.Cis;
    var r := (n - 1) as real;
    var a := 2.0 * t.pi / r;
    assert a * r == 2.0 * t.pi;
    t.CisPlus(a, a);
    PartOfTurn(a, r, 2.0 * t.pi);
    HalfOfTurn(a, r, t.pi);
    assert t.ShortOfTurn(a) && t.ShortOfTurn(a + a);
  }

  lemma HalfOfTurn(a: real, r: real, pi: real)
    requires r >= 3.0 && pi > 0.0 && a * r == 2.0 * pi && a > 0.0
    ensures 0.0 < a + a < 2.0 * pi
  {
    Positive(a, r - 2.0, a * (r - 2.0));
  }

  /** The powers of a root of unity that is not 1 add up to 1 over one term more than a full turn. */
  lemma OneTermMore(z: Complex, n: nat)
    requires n >= 1 && Pow(z, n - 1) == ONE && z != ONE
    ensures Geometric(z, n) == ONE
  {
    hide Pow, Geometric;
    GeometricVanishes(z, n - 1);
    GeometricLast(z, n);
  }

  /** The squared coefficients of a window of `n` add up to 3 (n - 1) / 8. */
  lemma HannEnergy(t: Trig, n: nat)
    requires t.Lawful() && t.TurnsOnce() && n >= 4
    ensures Total(Squares(HannWindow(t, n))) == 3.0 * (n - 1) as real / 8.0
  {
    hide HannWindow, Pow, Step, Twiddle, Complex.Times, Trig.Lawful, Total, Geometric, Trig.TurnsOnce;
    var z := Step(t, n - 1);
    var s := Squares(HannWindow(t, n));
    assert s[..n] == s;
    HannPartialEnergy(t, n, n);
    TwoStepsShort(t, n);
    StepInverse(t, n - 1);
    TwiddleFullTurn(t, n - 1);
    InversePowers(z, Twiddle(t, n - 1), n - 1);
    OneTimes(Pow(z, n - 1));
    OneTermMore(z, n);
    PowProduct(z, z, n - 1);
    OneTimes(ONE);
    OneTermMore(z.Times(z), n);
  }

  // ---- what it leaves for the other bins ----

  lemma {:induction false} OneOfEnergy(x: seq<Complex>, k: nat)
    requires k < |x|
    ensures x[k].NormSq() <= Energy(x)
  {
    hide Complex.NormSq;
    NormSqSign(x[0]);
    EnergyNonNegative(x[1..]);
    if k > 0 {
      OneOfEnergy(x[1..], k - 1);
    }
  }

  lemma {:induction false} EnergyNonNegative(x: seq<Complex>)
    ensures Energy(x) >= 0.0
  {
    hide Complex.NormSq;
    if x != [] {
      NormSqSign(x[0]);
      EnergyNonNegative(x[1..]);
    }
  }

  lemma {:induction false} TwoOfEnergy(x: seq<Complex>, j: nat, k: nat)
    requires j < k < |x|
    ensures x[j].NormSq() + x[k].NormSq() <= Energy(x)
  {
    hide Complex.NormSq;
    if j == 0 {
      OneOfEnergy(x[1..], k - 1);
    } else {
      NormSqSign(x[0]);
      TwoOfEnergy(x[1..], j - 1, k - 1);
    }
  }

  lemma {:induction false} EnergyOfUnits(x: seq<Complex>, w: seq<real>)
    requires |x| == |w| && forall i :: 0 <= i < |x| ==> x[i].NormSq() == 1.0
    ensures Energy(Weighted(x, w)) == Total(Squares(w))
  {
    hide Complex.NormSq, Complex.Scaled, Square;
    if x != [] {
      EnergyOfUnits(x[1..], w[1..]);
      assert Weighted(x, w)[1..] == Weighted(x[1..], w[1..]) && Squares(w)[1..] == Squares(w[1..]);
      UnitScaled(x[0], w[0]);
    }
  }

  lemma UnitScaled(a: Complex, r: real)
    requires a.NormSq() == 1.0
    ensures a.Scaled(r).NormSq() == Square(r)
  {
    var p, q, rr := a.re * a.re, a.im * a.im, r * r;
    assert a.re * r * (a.re * r) == p * rr && a.im * r * (a.im * r) == q * rr;
    assert (p + q) * rr == p * rr + q * rr;
  }

  lemma UnitTone(t: Trig, n: nat, m: nat, i: nat)
    requires t.Lawful() && i < n
    ensures Tone(t, n, m, ONE)[i].NormSq() == 1.0
  {
    hide Complex.Times, Complex.NormSq, Trig.Cis, ToneAngle, Trig.Lawful;
    OneTimes(t.Cis(ToneAngle(t, n, m, i)));
    t.CisUnit(ToneAngle(t, n, m, i));
  }

  /** Bin `k` of the windowed unit tone on bin `m` is the kernel. */
  lemma UnitToneBin(t: Trig, n: nat, m: nat, k: nat)
    requires t.Lawful() && n >= 2 && k < n
    ensures Dft(t, Weighted(Tone(t, n, m, ONE), HannWindow(t, n)))[k]
         == Kernel(HannWindow(t, n), Residual(t, n, m, k), n)
  {
    hide Complex.Times, DftSum, Trig.Lawful, Weighted, HannWindow, Twiddle, Tone, Kernel, Residual;
    WindowedToneSum(t, m, ONE, HannWindow(t, n), k, n);
    OneTimes(Kernel(HannWindow(t, n), Residual(t, n, m, k), n));
  }

  /** What the kernel can be off its own bin, for all bins at once: |K|^2 <= (n - 1) (n + 2) / 8. */
  lemma KernelOffBinBound(t: Trig, p: nat, m: nat, k: nat)
    requires t.Lawful() && t.TurnsOnce() && p >= 2 && m < Pow2(p) && k < Pow2(p) && k != m
    ensures Pow2(p) >= 4
    ensures Kernel(HannWindow(t, Pow2(p)), Residual(t, Pow2(p), m, k), Pow2(p)).NormSq()
         <= (Pow2(p) - 1) as real * (Pow2(p) + 2) as real / 8.0
  {
    hide Complex.NormSq, Dft, Trig.Lawful, Weighted, HannWindow, Tone, Kernel, Residual, Total, Energy, Squares;
    hide Trig.TurnsOnce;
    var n := Pow2(p);
    FourOrMore(p);
    var w, x := HannWindow(t, n), Tone(t, n, m, ONE);
    var y := Dft(t, Weighted(x, w));
    forall i | 0 <= i < n ensures x[i].NormSq() == 1.0 {
      UnitTone(t, n, m, i);
    }
    EnergyOfUnits(x, w);
    HannEnergy(t, n);
    Parseval(t, p, Weighted(x, w));
    if k < m {
      TwoOfEnergy(y, k, m);
    } else {
      TwoOfEnergy(y, m, k);
    }
    UnitToneBin(t, n, m, k);
    UnitToneBin(t, n, m, m);
    OwnBinEnergy(t, n, m);
    RestOfEnergy(n as real, Total(w), Total(Squares(w)), y[k].NormSq());
  }

  lemma OwnBinEnergy(t: Trig, n: nat, m: nat)
    requires t.Lawful() && t.TurnsOnce() && n >= 3
    ensures Total(HannWindow(t, n)) == 0.5 * (n - 1) as real
    ensures Kernel(HannWindow(t, n), Residual(t, n, m, m), n).NormSq()
         == Total(HannWindow(t, n)) * Total(HannWindow(t, n))
  {
    hide Complex.NormSq, Kernel, Residual, HannWindow, Total, Trig.Lawful, Trig.TurnsOnce, Step;
    HannTotal(t, n);
    PiPositive(t);
    HannRootNotTrivial(t, n);
    KernelPeak(t, n, m, m);
  }

  lemma RestOfEnergy(n: real, total: real, squares: real, rest: real)
    requires total == 0.5 * (n - 1.0) && squares == 3.0 * (n - 1.0) / 8.0
    requires rest + total * total <= n * squares
    ensures rest <= (n - 1.0) * (n + 2.0) / 8.0
  {
    var q := n - 1.0;
    assert total * total == 0.25 * (q * q);
    assert n * squares == 0.375 * (q * n);
    assert q * n == q * q + q;
    assert q * (n + 2.0) == q * q + 3.0 * q;
  }
}
