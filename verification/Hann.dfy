/** The Hann window, and how a non-negative window bounds a weighted sum. */
module HannWindows {
  import opened ComplexNumbers
  import opened Trigonometry
  import opened Fourier
  import opened SpectralLaws
  import opened RealSums

  // ---- the Hann window ----

  function HannAngle(t: Trig, n: nat, i: nat): real
    requires n >= 2
  {
    2.0 * t.pi * i as real / (n - 1) as real
  }

  function Hann(t: Trig, n: nat, i: nat): real
    requires n >= 2
  {
    0.5 * (1.0 - t.cos(HannAngle(t, n, i)))
  }

  function HannWindow(t: Trig, n: nat): (w: seq<real>)
    requires n >= 2
    ensures |w| == n
  {
    seq(n, i requires 0 <= i < n => Hann(t, n, i))
  }

  lemma UnitCosine(c: Complex)
    requires c.NormSq() == 1.0
    ensures -1.0 <= c.re <= 1.0
  {
    SquareSign(c.im, c.im * c.im);
    Positive(c.re - 1.0, c.re + 1.0, (c.re - 1.0) * (c.re + 1.0));
    Positive(-1.0 - c.re, 1.0 - c.re, (-1.0 - c.re) * (1.0 - c.re));
  }

  lemma HannRange(t: Trig, n: nat, i: nat)
    requires t.Lawful() && n >= 2
    ensures 0.0 <= Hann(t, n, i) <= 1.0
  {
    hide Complex.NormSq, HannAngle;
    t.CisUnit(HannAngle(t, n, i));
    UnitCosine(t.Cis(HannAngle(t, n, i)));
  }

  /** Each coefficient is half of one minus the real part of a power of a root of unity. */
  lemma HannPower(t: Trig, n: nat, i: nat)
    requires t.Lawful() && n >= 2
    ensures Hann(t, n, i) == 0.5 * (1.0 - Pow(Step(t, n - 1), i).re)
  {
    hide HannAngle, Pow, Trig.Lawful;
    HannAngleSteps(t, n, i);
    t.CisMultiple(2.0 * t.pi / (n - 1) as real, i, HannAngle(t, n, i));
  }

  lemma HannAngleSteps(t: Trig, n: nat, i: nat)
    requires n >= 2
    ensures HannAngle(t, n, i) == i as real * (2.0 * t.pi / (n - 1) as real)
  {
    var r := (n - 1) as real;
    var q := 2.0 * t.pi / r;
    assert 2.0 * t.pi * i as real == (i as real * q) * r;
  }

  lemma {:induction false} HannPartialTotal(t: Trig, n: nat, k: nat)
    requires t.Lawful() && n >= 2 && k <= n
    ensures Total(HannWindow(t, n)[..k]) == 0.5 * (k as real - Geometric(Step(t, n - 1), k).re)
  {
    hide Hann, Pow, Step, Trig.Lawful;
    if k > 0 {
      HannPartialTotal(t, n, k - 1);
      HannPower(t, n, k - 1);
      var w := HannWindow(t, n);
      assert w[..k] == w[..k - 1] + [w[k - 1]];
      TotalSnoc(w[..k - 1], w[k - 1]);
    }
  }

  /** The coefficients of a window of `n` add up to exactly (n - 1) / 2, or to nothing if the root is trivial. */
  lemma HannTotal(t: Trig, n: nat)
    requires t.Lawful() && n >= 2
    ensures Total(HannWindow(t, n)) == if Step(t, n - 1) == ONE then 0.0 else 0.5 * (n - 1) as real
  {
    hide HannWindow, Pow, Step, Twiddle, Complex.Times, Trig.Lawful, Total, Geometric;
    var z := Step(t, n - 1);
    assert HannWindow(t, n)[..n] == HannWindow(t, n);
    HannPartialTotal(t, n, n);
    StepInverse(t, n - 1);
    TwiddleFullTurn(t, n - 1);
    InversePowers(z, Twiddle(t, n - 1), n - 1);
    OneTimes(Pow(z, n - 1));
    GeometricVanishes(z, n - 1);
    if z == ONE {
      GeometricOfOne(z, n);
    } else {
      GeometricLast(z, n);
    }
  }

  /** For sizes above 2 the root is not trivial. */
  lemma HannRootNotTrivial(t: Trig, n: nat)
    requires t.TurnsOnce() && t.pi > 0.0 && n >= 3
    ensures Step(t, n - 1) != ONE
  {
    var r := (n - 1) as real;
    var a := 2.0 * t.pi / r;
    assert a * r == 2.0 * t.pi;
    PartOfTurn(a, r, 2.0 * t.pi);
    assert t.ShortOfTurn(a);
  }

  lemma PartOfTurn(a: real, r: real, turn: real)
    requires r >= 2.0 && turn > 0.0 && a * r == turn
    ensures 0.0 < a < turn
  {
    if a <= 0.0 {
      Positive(-a, r, -a * r);
    }
    Positive(a, r - 1.0, a * (r - 1.0));
  }

  lemma GeometricLast(z: Complex, n: nat)
    requires n > 0
    ensures Geometric(z, n) == Geometric(z, n - 1).Plus(Pow(z, n - 1))
  {}

  // ---- weighted sums ----

  lemma CrossTerm(s: Complex, z: Complex, total: real, e: real, c: real)
    requires total >= 0.0 && e >= 0.0 && s.NormSq() <= total * e
    requires c == s.re * z.re + s.im * z.im
    ensures 2.0 * c <= total * z.NormSq() + e
  {
    hide Complex.NormSq;
    NormSqSign(s);
    NormSqSign(z);
    if total == 0.0 {
      assert s == ZERO;
    } else {
      NormSqSign(s.Plus(z.Scaled(-total)));
      SumEnergy(s, z, -total, c);
      var slack := total * z.NormSq() + e - 2.0 * c;
      assert total * slack == total * total * z.NormSq() + total * e - 2.0 * total * c;
      if slack < 0.0 {
        Positive(total, -slack, -(total * slack));
      }
    }
  }

  /** The energy of a sum, with `c` the inner product. */
  lemma SumEnergy(s: Complex, z: Complex, r: real, c: real)
    requires c == s.re * z.re + s.im * z.im
    ensures s.Plus(z.Scaled(r)).NormSq() == r * r * z.NormSq() + 2.0 * r * c + s.NormSq()
  {
    var rr, a, b := r * r, z.re * z.re, z.im * z.im;
    var u, v := s.re * z.re, s.im * z.im;
    SquareOfSum(s.re, z.re, r, rr, a, u);
    SquareOfSum(s.im, z.im, r, rr, b, v);
    Gather(rr, r, a, b, u, v);
  }

  lemma Gather(rr: real, r: real, a: real, b: real, c: real, d: real)
    ensures rr * (a + b) == rr * a + rr * b
    ensures 2.0 * r * (c + d) == 2.0 * r * c + 2.0 * r * d
  {}

  lemma SquareOfSum(p: real, q: real, r: real, rr: real, qq: real, pq: real)
    requires rr == r * r && qq == q * q && pq == p * q
    ensures (p + q * r) * (p + q * r) == rr * qq + 2.0 * r * pq + p * p
  {}

  /** One more term keeps |sum|^2 at most, or strictly below, the total weight times the weighted energy. */
  lemma WeightedStep(s: Complex, z: Complex, w: real, total: real, e: real)
    requires total >= 0.0 && e >= 0.0 && w >= 0.0 && s.NormSq() <= total * e
    ensures s.Plus(z.Scaled(w)).NormSq() <= (total + w) * (e + w * z.NormSq())
    ensures s.NormSq() < total * e ==> s.Plus(z.Scaled(w)).NormSq() < (total + w) * (e + w * z.NormSq())
  {
    hide Complex.NormSq, Complex.Scaled, Complex.Plus;
    var c := s.re * z.re + s.im * z.im;
    CrossTerm(s, z, total, e, c);
    SumEnergy(s, z, w, c);
    WeightedArithmetic(s.NormSq(), z.NormSq(), w, total, e, c);
  }

  lemma WeightedArithmetic(ss: real, zz: real, w: real, total: real, e: real, c: real)
    requires w >= 0.0 && ss <= total * e && 2.0 * c <= total * zz + e
    ensures w * w * zz + 2.0 * w * c + ss <= (total + w) * (e + w * zz)
    ensures ss < total * e ==> w * w * zz + 2.0 * w * c + ss < (total + w) * (e + w * zz)
  {
    var slack := total * zz + e - 2.0 * c;
    Positive(w, slack, w * slack);
    Expand(total, w, e, zz);
    assert w * (total * zz + e) == w * slack + 2.0 * w * c;
  }

  lemma Expand(total: real, w: real, e: real, zz: real)
    ensures (total + w) * (e + w * zz) == total * e + w * (total * zz + e) + w * w * zz
  {}

  /** `x` under the window `w`. */
  function Weighted(x: seq<Complex>, w: seq<real>): (y: seq<Complex>)
    requires |x| == |w|
    ensures |y| == |x|
  {
    seq(|x|, i requires 0 <= i < |x| => x[i].Scaled(w[i]))
  }

  function WeightedEnergies(x: seq<Complex>, w: seq<real>): (e: seq<real>)
    requires |x| == |w|
    ensures |e| == |x|
  {
    seq(|x|, i requires 0 <= i < |x| => w[i] * x[i].NormSq())
  }

  ghost predicate NonNegative(w: seq<real>) {
    forall i :: 0 <= i < |w| ==> w[i] >= 0.0
  }

  lemma {:induction false} TotalNonNegative(w: seq<real>)
    requires NonNegative(w)
    ensures Total(w) >= 0.0
  {
    if w != [] {
      TotalNonNegative(w[1..]);
    }
  }

  lemma EnergiesNonNegative(x: seq<Complex>, w: seq<real>)
    requires |x| == |w| && NonNegative(w)
    ensures NonNegative(WeightedEnergies(x, w))
  {
    hide Complex.NormSq;
    forall i | 0 <= i < |x| ensures WeightedEnergies(x, w)[i] >= 0.0 {
      NormSqSign(x[i]);
      Positive(w[i], x[i].NormSq(), w[i] * x[i].NormSq());
    }
  }

  /** Every bin of a windowed transform: |X[k]|^2 <= (sum of w) (sum of w |x|^2). */
  lemma {:induction false} WeightedBin(x: seq<Complex>, w: seq<real>, root: Complex, k: nat, n: nat)
    requires |x| == |w| && NonNegative(w) && root.NormSq() == 1.0 && n <= |x|
    ensures DftSum(Weighted(x, w), root, k, n).NormSq() <= Total(w[..n]) * Total(WeightedEnergies(x, w)[..n])
  {
    hide Complex.NormSq, Complex.Times, Complex.Scaled, Complex.Plus, Pow, Total;
    if n == 0 {
      NormSqSign(ZERO);
      EmptyTotal();
    } else {
      WeightedBin(x, w, root, k, n - 1);
      var z := x[n - 1].Times(Pow(root, (n - 1) * k));
      ScaledTimes(x[n - 1], Pow(root, (n - 1) * k), w[n - 1]);
      PowNorm(root, (n - 1) * k);
      NormSqTimes(x[n - 1], Pow(root, (n - 1) * k));
      var e := WeightedEnergies(x, w);
      EnergiesNonNegative(x, w);
      TotalNonNegative(w[..n - 1]);
      TotalNonNegative(e[..n - 1]);
      WeightedStep(DftSum(Weighted(x, w), root, k, n - 1), z, w[n - 1], Total(w[..n - 1]), Total(e[..n - 1]));
      PrefixTotal(w, n);
      PrefixTotal(e, n);
    }
  }

  lemma EmptyTotal()
    ensures Total([]) == 0.0
  {}

  lemma PrefixTotal(s: seq<real>, n: nat)
    requires 0 < n <= |s|
    ensures Total(s[..n]) == Total(s[..n - 1]) + s[n - 1]
  {
    assert s[..n] == s[..n - 1] + [s[n - 1]];
    TotalSnoc(s[..n - 1], s[n - 1]);
  }

  /** Energies bounded by `b` weigh at most `b` times the total weight. */
  lemma {:induction false} EnergiesBounded(x: seq<Complex>, w: seq<real>, b: real, n: nat)
    requires |x| == |w| && NonNegative(w) && n <= |x|
    requires forall i :: 0 <= i < |x| ==> x[i].NormSq() <= b
    ensures Total(WeightedEnergies(x, w)[..n]) <= b * Total(w[..n])
  {
    hide Complex.NormSq, Total;
    if n == 0 {
      EmptyTotal();
    } else {
      EnergiesBounded(x, w, b, n - 1);
      var e := WeightedEnergies(x, w);
      PrefixTotal(w, n);
      PrefixTotal(e, n);
      ScaledBound(w[n - 1], x[n - 1].NormSq(), b);
      assert b * Total(w[..n]) == b * Total(w[..n - 1]) + b * w[n - 1];
    }
  }

  lemma ScaledBound(w: real, v: real, b: real)
    requires w >= 0.0 && v <= b
    ensures w * v <= b * w
  {
    Positive(w, b - v, w * (b - v));
  }

  /** Samples of energy at most `b` under a window put at most b (sum of w)^2 into a bin. */
  lemma WindowedBinBound(x: seq<Complex>, w: seq<real>, root: Complex, k: nat, b: real)
    requires |x| == |w| && NonNegative(w) && root.NormSq() == 1.0
    requires forall i :: 0 <= i < |x| ==> x[i].NormSq() <= b
    ensures DftSum(Weighted(x, w), root, k, |x|).NormSq() <= b * (Total(w) * Total(w))
  {
    hide Complex.NormSq, Total, DftSum, Weighted, WeightedEnergies;
    var e := WeightedEnergies(x, w);
    assert w[..|x|] == w && e[..|x|] == e;
    WeightedBin(x, w, root, k, |x|);
    EnergiesBounded(x, w, b, |x|);
    TotalNonNegative(w);
    ScaledBound(Total(w), Total(e), b * Total(w));
  }
}
