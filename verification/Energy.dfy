/** Energy conservation of the transform, and its response to a pure tone. */
module SpectralLaws {
  import opened ComplexNumbers
  import opened Trigonometry
  import opened BitReversal
  import opened Fourier
  import opened FastFourier

  // ---- energy ----

  lemma {:induction false} EnergyPairs(a: seq<Complex>, b: seq<Complex>, u: seq<Complex>, v: seq<Complex>)
    requires |a| == |b| == |u| == |v|
    requires forall k :: 0 <= k < |a| ==> a[k].NormSq() + b[k].NormSq() == 2.0 * (u[k].NormSq() + v[k].NormSq())
    ensures Energy(a) + Energy(b) == 2.0 * (Energy(u) + Energy(v))
  {
    hide Complex.NormSq;
    if a != [] {
      EnergyPairs(a[1..], b[1..], u[1..], v[1..]);
    }
  }

  /** With a unit twiddle a butterfly doubles the energy it is given. */
  lemma ButterflyEnergy(d: seq<Complex>, w: Complex)
    requires |d| % 2 == 0 && w.NormSq() == 1.0
    ensures Energy(Butterfly(d, w)) == 2.0 * Energy(d)
  {
    hide Complex.NormSq, Complex.Times, Complex.Plus, Complex.Minus, Sums, Differences, Pow;
    var h := |d| / 2;
    var u, v := d[..h], d[h..];
    var a, b := Sums(u, v, w), Differences(u, v, w);
    forall k | 0 <= k < h
      ensures a[k].NormSq() + b[k].NormSq() == 2.0 * (u[k].NormSq() + v[k].NormSq())
    {
      PowNorm(w, k);
      NormSqTimes(v[k], Pow(w, k));
      Parallelogram(u[k], v[k].Times(Pow(w, k)));
    }
    EnergyPairs(a, b, u, v);
    EnergyConcat(a, b);
    EnergyConcat(u, v);
    assert d == u + v;
  }

  /** So does every stage that covers the data. */
  lemma {:induction false} StageEnergy(d: seq<Complex>, len: nat, w: Complex)
    requires len > 0 && len % 2 == 0 && Tiles(|d|, len) && w.NormSq() == 1.0
    ensures Energy(Stage(d, len, w)) == 2.0 * Energy(d)
    decreases |d|
  {
    hide Complex.NormSq, Butterfly;
    if d != [] {
      ButterflyEnergy(d[..len], w);
      StageEnergy(d[len..], len, w);
      EnergyConcat(Butterfly(d[..len], w), Stage(d[len..], len, w));
      EnergyConcat(d[..len], d[len..]);
      assert d == d[..len] + d[len..];
    }
  }

  lemma {:induction false} EnergyHalves(x: seq<Complex>)
    requires |x| % 2 == 0
    ensures Energy(x) == Energy(Evens(x)) + Energy(Odds(x))
  {
    hide Complex.NormSq;
    if x != [] {
      var r := x[2..];
      EnergyHalves(r);
      assert Evens(x)[1..] == Evens(r) && Odds(x)[1..] == Odds(r) && x[1..][1..] == r;
    }
  }

  /** Bit reversal only reorders the energy. */
  lemma {:induction false} ReversalEnergy(p: nat, x: seq<Complex>)
    requires |x| == Pow2(p)
    ensures Energy(Reversed(p, x)) == Energy(x)
  {
    hide Complex.NormSq, Energy, Evens, Odds;
    if p == 0 {
      assert Reversed(0, x) == x;
    } else {
      ReversedSplit(p, x);
      ReversalEnergy(p - 1, Evens(x));
      ReversalEnergy(p - 1, Odds(x));
      EnergyConcat(Reversed(p - 1, Evens(x)), Reversed(p - 1, Odds(x)));
      EnergyHalves(x);
    }
  }

  /** Parseval: the transform multiplies the energy by the length. */
  lemma {:induction false} Parseval(t: Trig, p: nat, x: seq<Complex>)
    requires t.Lawful() && |x| == Pow2(p)
    ensures Energy(Dft(t, x)) == |x| as real * Energy(x)
  {
    hide Complex.NormSq, Complex.Times, Dft, Twiddle, Trig.Lawful, Butterfly, Evens, Odds, Energy;
    if p == 0 {
      DftOfOne(t, x);
    } else {
      var e, o := Evens(x), Odds(x);
      Parseval(t, p - 1, e);
      Parseval(t, p - 1, o);
      ButterflyJoins(t, p - 1, x);
      TwiddleUnit(t, |x|);
      ButterflyEnergy(Dft(t, e) + Dft(t, o), Twiddle(t, |x|));
      EnergyConcat(Dft(t, e), Dft(t, o));
      EnergyHalves(x);
      DoubleLength(|x| / 2, Energy(e), Energy(o));
    }
  }

  lemma DoubleLength(h: nat, e: real, o: real)
    ensures 2.0 * (h as real * e + h as real * o) == (2 * h) as real * (e + o)
  {
    assert (2 * h) as real == 2.0 * h as real;
  }

  // ---- geometric sums ----

  /** 1 + z + ... + z^(n-1) */
  function Geometric(z: Complex, n: nat): Complex {
    if n == 0 then ZERO else Geometric(z, n - 1).Plus(Pow(z, n - 1))
  }

  lemma {:induction false} GeometricTelescopes(z: Complex, n: nat)
    ensures z.Minus(ONE).Times(Geometric(z, n)) == Pow(z, n).Minus(ONE)
  {
    if n == 0 {
      TimesZeroRight(z.Minus(ONE));
    } else {
      GeometricTelescopes(z, n - 1);
      hide Complex.Times;
      TimesDistributes(z.Minus(ONE), Geometric(z, n - 1), Pow(z, n - 1));
      TelescopeStep(z, Pow(z, n - 1));
    }
  }

  lemma TelescopeStep(z: Complex, p: Complex)
    ensures p.Minus(ONE).Plus(z.Minus(ONE).Times(p)) == z.Times(p).Minus(ONE)
  {}

  /** Over a full turn the powers cancel, unless they are all 1. */
  lemma GeometricVanishes(z: Complex, n: nat)
    requires Pow(z, n) == ONE
    ensures z == ONE || Geometric(z, n) == ZERO
  {
    hide Complex.Times, Pow, Geometric;
    GeometricTelescopes(z, n);
    TimesZero(z.Minus(ONE), Geometric(z, n));
  }

  lemma {:induction false} GeometricOfOne(z: Complex, n: nat)
    requires z == ONE
    ensures Geometric(z, n) == Complex(n as real, 0.0)
  {
    hide Complex.Times, Pow;
    if n > 0 {
      GeometricOfOne(z, n - 1);
      PowOne(z, n - 1);
    }
  }

  // ---- a pure tone ----

  /** The phase of sample `i` of an exponential on bin `m` of `n`. */
  function ToneAngle(t: Trig, n: nat, m: nat, i: nat): real
    requires n > 0
  {
    2.0 * t.pi * m as real * i as real / n as real
  }

  /** The `n` samples of a complex exponential sitting exactly on bin `m`. */
  function Tone(t: Trig, n: nat, m: nat, a: Complex): (x: seq<Complex>)
    requires n > 0
    ensures |x| == n
  {
    seq(n, i requires 0 <= i < n => a.Times(t.Cis(ToneAngle(t, n, m, i))))
  }

  /** The roots of a power-of-two length are distinct: only multiples of the length give 1. */
  lemma {:induction false} TwiddleOrder(t: Trig, p: nat, d: nat) returns (c: nat)
    requires t.Lawful() && Pow(Twiddle(t, Pow2(p)), d) == ONE
    ensures d == c * Pow2(p)
  {
    hide Complex.Times, Twiddle, Pow, Trig.Lawful;
    if p == 0 {
      c := d;
    } else {
      var h := Pow2(p - 1);
      var w := Twiddle(t, 2 * h);
      TwiddleHalfTurn(t, p - 1);
      PowMul(w, h, d);
      PowMul(w, d, h);
      assert h * d == d * h;
      PowOne(Pow(w, d), h);
      PowMinusOne(MINUS_ONE, d);
      assert d % 2 == 0;
      TwiddleSquare(t, h);
      PowTwo(w);
      PowMul(w, 2, d / 2);
      c := TwiddleOrder(t, p - 1, d / 2);
      assert d == c * (2 * h);
    }
  }

  lemma {:induction false} PowMinusOne(w: Complex, n: nat)
    requires w == MINUS_ONE
    ensures Pow(w, n) == if n % 2 == 0 then ONE else MINUS_ONE
  {
    hide Complex.Times;
    if n > 0 {
      PowMinusOne(w, n - 1);
      OneTimes(w);
      SignFlips();
    }
  }

  lemma SignFlips()
    ensures MINUS_ONE.Times(MINUS_ONE) == ONE
  {}

  lemma {:induction false} PowProduct(u: Complex, v: Complex, n: nat)
    ensures Pow(u.Times(v), n) == Pow(u, n).Times(Pow(v, n))
  {
    hide Complex.Times;
    if n == 0 {
      OneTimes(ONE);
    } else {
      PowProduct(u, v, n - 1);
      Interchange(u, v, Pow(u, n - 1), Pow(v, n - 1));
    }
  }

  lemma Interchange(a: Complex, b: Complex, c: Complex, d: Complex)
    ensures a.Times(b).Times(c.Times(d)) == a.Times(c).Times(b.Times(d))
  {
    hide Complex.Times;
    TimesAssoc(a, b, c.Times(d));
    TimesSwap(b, c, d);
    TimesAssoc(a, c, b.Times(d));
  }

  lemma TwiddleFullTurn(t: Trig, n: nat)
    requires t.Lawful() && n > 0
    ensures Pow(Twiddle(t, n), n) == ONE
  {
    hide Complex.Times, Trig.Cis, Pow;
    var a := -(2.0 * t.pi) / n as real;
    t.CisTurn(0.0);
    t.CisZero();
    assert n as real * a == -(2.0 * t.pi);
    t.CisSame(0.0 - 2.0 * t.pi, -(2.0 * t.pi));
    t.CisMultiple(a, n, -(2.0 * t.pi));
  }

  /** The step of the unit exponential at bin 1, and its relation to the twiddle. */
  function Step(t: Trig, n: nat): Complex
    requires n > 0
  {
    t.Cis(2.0 * t.pi / n as real)
  }

  lemma StepInverse(t: Trig, n: nat)
    requires t.Lawful() && n > 0
    ensures Step(t, n).Times(Twiddle(t, n)) == ONE
  {
    hide Complex.Times, Trig.Cis;
    var a, b := 2.0 * t.pi / n as real, -(2.0 * t.pi) / n as real;
    t.CisPlus(a, b);
    t.CisZero();
    t.CisSame(a + b, 0.0);
  }

  lemma ToneSample(t: Trig, n: nat, m: nat, a: Complex, i: nat)
    requires t.Lawful() && i < n
    ensures Tone(t, n, m, a)[i] == a.Times(Pow(Step(t, n), m * i))
  {
    hide Complex.Times, Trig.Cis, Pow, ToneAngle, Trig.Lawful;
    ToneAngleSteps(t, n, m, i);
    t.CisMultiple(2.0 * t.pi / n as real, m * i, ToneAngle(t, n, m, i));
  }

  lemma ToneAngleSteps(t: Trig, n: nat, m: nat, i: nat)
    requires n > 0
    ensures ToneAngle(t, n, m, i) == (m * i) as real * (2.0 * t.pi / n as real)
  {
    assert (m * i) as real == m as real * i as real;
    var r := n as real;
    var q := 2.0 * t.pi / r;
    assert 2.0 * t.pi == q * r;
    assert 2.0 * t.pi * m as real * i as real == (m as real * i as real * q) * r;
  }

  /** Mixed with bin `k`, sample `i` of the tone on bin `m` has turned by `i` residuals. */
  lemma ToneTerm(t: Trig, n: nat, m: nat, a: Complex, k: nat, i: nat)
    requires t.Lawful() && i < n
    ensures Tone(t, n, m, a)[i].Times(Pow(Twiddle(t, n), i * k)) == a.Times(Pow(Residual(t, n, m, k), i))
  {
    hide Complex.Times, Trig.Cis, Pow, Tone, Step, Twiddle, Trig.Lawful;
    var v, w := Step(t, n), Twiddle(t, n);
    ToneSample(t, n, m, a, i);
    PowMul(v, m, i);
    PowMul(w, k, i);
    assert k * i == i * k;
    PowProduct(Pow(v, m), Pow(w, k), i);
    TimesAssoc(a, Pow(v, m * i), Pow(w, i * k));
  }

  lemma {:induction false} ToneSum(t: Trig, n: nat, m: nat, a: Complex, k: nat, i: nat)
    requires t.Lawful() && 0 < n && i <= n
    ensures DftSum(Tone(t, n, m, a), Twiddle(t, n), k, i)
         == a.Times(Geometric(Residual(t, n, m, k), i))
  {
    hide Complex.Times, Complex.Plus, Trig.Cis, Pow, Tone, Step, Twiddle, Trig.Lawful, Residual;
    var z := Residual(t, n, m, k);
    if i == 0 {
      TimesZeroRight(a);
    } else {
      ToneSum(t, n, m, a, k, i - 1);
      ToneTerm(t, n, m, a, k, i - 1);
      TimesDistributes(a, Geometric(z, i - 1), Pow(z, i - 1));
    }
  }

  /** What is left of the rotation per sample once the tone on bin `m` is mixed with bin `k`. */
  function Residual(t: Trig, n: nat, m: nat, k: nat): Complex
    requires n > 0
  {
    Pow(Step(t, n), m).Times(Pow(Twiddle(t, n), k))
  }

  lemma ResidualFullTurn(t: Trig, n: nat, m: nat, k: nat)
    requires t.Lawful() && n > 0
    ensures Pow(Residual(t, n, m, k), n) == ONE
  {
    hide Complex.Times, Pow, Step, Twiddle, Trig.Lawful;
    var v, w := Step(t, n), Twiddle(t, n);
    StepInverse(t, n);
    TwiddleFullTurn(t, n);
    InversePowers(v, w, n);
    OneTimes(Pow(v, n));
    PowProduct(Pow(v, m), Pow(w, k), n);
    PowerTurn(v, m, n);
    PowerTurn(w, k, n);
    OneTimes(ONE);
  }

  lemma PowerTurn(v: Complex, m: nat, n: nat)
    requires Pow(v, n) == ONE
    ensures Pow(Pow(v, m), n) == ONE
  {
    hide Complex.Times, Pow;
    PowMul(v, m, n);
    PowMul(v, n, m);
    PowOne(Pow(v, n), m);
    assert m * n == n * m;
  }

  /** The residual is trivial only on the tone's own bin. */
  lemma ResidualTrivial(t: Trig, p: nat, m: nat, k: nat)
    requires t.Lawful() && m < Pow2(p) && k < Pow2(p)
    ensures Residual(t, Pow2(p), m, k) == ONE <==> k == m
  {
    hide Complex.Times, Pow, Step, Twiddle, Trig.Lawful;
    var n := Pow2(p);
    var v, w := Step(t, n), Twiddle(t, n);
    StepInverse(t, n);
    if k <= m {
      CancelPowers(v, w, k, m - k);
    } else {
      TimesCommutes(v, w);
      CancelPowers(w, v, m, k - m);
      TimesCommutes(Pow(w, k), Pow(v, m));
    }
    if Residual(t, n, m, k) == ONE && k != m {
      var d := if k < m then m - k else k - m;
      InversePowers(v, w, d);
      OneTimes(Pow(w, d));
      var c := TwiddleOrder(t, p, d);
      SmallMultiple(c, n, d);
    }
    if k == m {
      InversePowers(v, w, k);
    }
  }

  lemma SmallMultiple(c: nat, n: nat, d: nat)
    requires d == c * n
    ensures d == 0 || d >= n
  {}

  lemma CancelPowers(v: Complex, w: Complex, k: nat, d: nat)
    requires v.Times(w) == ONE
    ensures Pow(v, k + d).Times(Pow(w, k)) == Pow(v, d)
  {
    hide Complex.Times, Pow;
    PowAdd(v, d, k);
    TimesAssoc(Pow(v, d), Pow(v, k), Pow(w, k));
    InversePowers(v, w, k);
    OneTimes(Pow(v, d));
  }

  lemma InversePowers(v: Complex, w: Complex, n: nat)
    requires v.Times(w) == ONE
    ensures Pow(v, n).Times(Pow(w, n)) == ONE
  {
    hide Complex.Times, Pow;
    PowProduct(v, w, n);
    PowOne(v.Times(w), n);
  }

  /** A pure exponential on bin `m` has all its spectrum, `n` times its amplitude, on bin `m`. */
  lemma ToneSpectrum(t: Trig, p: nat, m: nat, a: Complex, k: nat)
    requires t.Lawful() && m < Pow2(p) && k < Pow2(p)
    ensures Dft(t, Tone(t, Pow2(p), m, a))[k] == if k == m then a.Scaled(Pow2(p) as real) else ZERO
  {
    hide Complex.Times, Complex.Scaled, Trig.Cis, Pow, Tone, Step, Twiddle, Trig.Lawful, Geometric, DftSum;
    var n := Pow2(p);
    var z := Residual(t, n, m, k);
    ToneSum(t, n, m, a, k, n);
    ResidualFullTurn(t, n, m, k);
    ResidualTrivial(t, p, m, k);
    GeometricVanishes(z, n);
    if k == m {
      GeometricOfOne(z, n);
      TimesReal(a, n as real);
    } else {
      TimesZeroRight(a);
    }
  }
}
