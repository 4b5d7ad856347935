/** The windowed power spectrum shown on the waterfall. */
module PowerSpectrum {
  import opened ComplexNumbers
  import opened Trigonometry
  import opened BitReversal
  import opened Fourier
  import opened FastFourier
  import opened SpectralLaws
  import opened Samples
  import opened RealSums
  import opened Division
  import opened Results
  import opened HannWindows
  import opened WindowedTones

  // ---- the power of a bin ----

  /** The first `n` samples of a block. */
  function Block(iq: seq<int16>, n: nat): (x: seq<Complex>)
    requires 2 * n <= |iq|
    ensures |x| == n
  {
    seq(n, i requires 0 <= i < n => SampleAt(iq, i))
  }

  /** The power of one of `n` bins, relative to full scale. */
  function Normalised(y: Complex, n: nat): real
    requires n > 0
  {
    y.NormSq() / (n as real * n as real)
  }

  /** The normalised power of raw bin `k` of `x` under the Hann window. */
  function WindowedPower(t: Trig, x: seq<Complex>, k: nat): real
    requires |x| >= 2 && k < |x|
  {
    Normalised(Dft(t, Weighted(x, HannWindow(t, |x|)))[k], |x|)
  }

  function BinPower(t: Trig, n: nat, iq: seq<int16>, k: nat): real
    requires n >= 2 && 2 * n <= |iq| && k < n
  {
    WindowedPower(t, Block(iq, n), k)
  }

  lemma PowerIsSum(t: Trig, x: seq<Complex>, k: nat)
    requires |x| >= 2 && k < |x|
    ensures WindowedPower(t, x, k)
         == Normalised(DftSum(Weighted(x, HannWindow(t, |x|)), Twiddle(t, |x|), k, |x|), |x|)
  {
    hide Normalised, Weighted, HannWindow, Twiddle, DftSum;
  }

  /** Normalised power is squared modulus over n^2, and grows with it. */
  lemma NormalisedIs(y: Complex, n: nat, e: real)
    requires n > 0 && e == y.NormSq()
    ensures n as real * n as real > 0.0 && Normalised(y, n) == e / (n as real * n as real)
  {
    hide Complex.NormSq;
    Positive(n as real, n as real, n as real * n as real);
  }

  lemma SampleEnergy(iq: seq<int16>, i: nat)
    requires 2 * i + 1 < |iq|
    ensures SampleAt(iq, i).NormSq() <= 2.0
  {
    var s := SampleAt(iq, i);
    Positive(1.0 - s.re, 1.0 + s.re, (1.0 - s.re) * (1.0 + s.re));
    Positive(1.0 - s.im, 1.0 + s.im, (1.0 - s.im) * (1.0 + s.im));
  }

  /** The total of a window of `n`: a window of two is all zeros. */
  function PeakTotal(n: nat): real
    requires n >= 2
  {
    if n == 2 then 0.0 else 0.5 * (n - 1) as real
  }

  /** What full scale on both components puts into a bin: (1 - 1/n)^2 / 2 of full scale. */
  function TopPower(n: nat): real
    requires n >= 2
  {
    2.0 * (PeakTotal(n) * PeakTotal(n)) / (n as real * n as real)
  }

  lemma TotalAtMostPeak(t: Trig, n: nat)
    requires t.Lawful() && n >= 2
    ensures 0.0 <= Total(HannWindow(t, n)) <= PeakTotal(n)
    ensures t.TurnsOnce() ==> Total(HannWindow(t, n)) == PeakTotal(n)
  {
    hide HannWindow, Total, Step, Trig.Cis;
    HannTotal(t, n);
    HannNonNegative(t, n);
    TotalNonNegative(HannWindow(t, n));
    if n == 2 {
      FullStep(t);
    } else if t.TurnsOnce() {
      HannRootNotTrivial(t, n);
    }
  }

  lemma FullStep(t: Trig)
    requires t.Lawful()
    ensures Step(t, 1) == ONE
  {
    hide Trig.Cis;
    t.CisTurn(0.0);
    t.CisZero();
    t.CisSame(2.0 * t.pi / 1 as real, 0.0 + 2.0 * t.pi);
  }

  lemma SquaresOrdered(a: real, b: real)
    requires 0.0 <= a <= b
    ensures a * a <= b * b
  {
    Positive(b - a, b + a, (b - a) * (b + a));
  }

  lemma QuotientsOrdered(a: real, b: real, d: real)
    requires a <= b && d > 0.0
    ensures a / d <= b / d
    ensures a < b ==> a / d < b / d
  {
    var u, v := a / d, b / d;
    assert u * d == a && v * d == b;
    if u > v {
      Positive(u - v, d, (u - v) * d);
    }
  }

  /** No bin exceeds the power of a full-scale constant, whatever the input. */
  lemma BinPowerBound(t: Trig, n: nat, iq: seq<int16>, k: nat)
    requires t.Lawful() && n >= 2 && 2 * n <= |iq| && k < n
    ensures 0.0 <= BinPower(t, n, iq, k) <= TopPower(n)
  {
    hide Complex.NormSq, Dft, DftSum, Trig.Lawful, Weighted, HannWindow, Total, Twiddle, PeakTotal, SampleAt;
    hide Normalised;
    var x, w, d := Block(iq, n), HannWindow(t, n), n as real * n as real;
    forall i | 0 <= i < n ensures x[i].NormSq() <= 2.0 {
      SampleEnergy(iq, i);
    }
    TwiddleUnit(t, n);
    HannNonNegative(t, n);
    WindowedBinBound(x, w, Twiddle(t, n), k, 2.0);
    TotalAtMostPeak(t, n);
    SquaresOrdered(Total(w), PeakTotal(n));
    PowerIsSum(t, x, k);
    var e := DftSum(Weighted(x, w), Twiddle(t, n), k, n);
    NormSqSign(e);
    NormalisedIs(e, n, e.NormSq());
    QuotientsOrdered(e.NormSq(), 2.0 * (PeakTotal(n) * PeakTotal(n)), d);
    QuotientsOrdered(0.0, e.NormSq(), d);
  }

  lemma TopPowerBelowHalf(n: nat)
    requires n >= 2
    ensures 0.0 <= TopPower(n) < 0.5
  {
    var p, r := PeakTotal(n), n as real;
    SquaresOrdered(0.0, p);
    SquaresOrdered(p, 0.5 * (r - 1.0));
    var d := r * r;
    assert 4.0 * (0.5 * (r - 1.0) * (0.5 * (r - 1.0))) == d - 2.0 * r + 1.0;
    QuotientsOrdered(0.0, 2.0 * (p * p), d);
    QuotientsOrdered(2.0 * (p * p), 0.5 * d, d);
  }

  // ---- tones ----

  /** A windowed tone leaves its amplitude times the kernel in a bin. */
  lemma ToneBin(t: Trig, n: nat, m: nat, a: Complex, k: nat)
    requires t.Lawful() && n >= 2 && m < n && k < n
    ensures WindowedPower(t, Tone(t, n, m, a), k)
         == Normalised(a.Times(Kernel(HannWindow(t, n), Residual(t, n, m, k), n)), n)
  {
    hide Complex.Times, DftSum, Trig.Lawful, Weighted, HannWindow, Twiddle, Tone, Kernel, WindowedPower, Residual;
    hide Normalised;
    WindowedToneSum(t, m, a, HannWindow(t, n), k, n);
    PowerIsSum(t, Tone(t, n, m, a), k);
  }

  /** Of two multiples of `a` the one by the larger factor has the larger power. */
  lemma Proportional(a: Complex, u: Complex, v: Complex, n: nat)
    requires n > 0 && u.NormSq() <= v.NormSq()
    ensures 0.0 <= Normalised(a.Times(u), n) <= Normalised(a.Times(v), n)
    ensures a != ZERO && u.NormSq() < v.NormSq() ==> Normalised(a.Times(u), n) < Normalised(a.Times(v), n)
  {
    hide Complex.NormSq, Complex.Times, Normalised;
    NormSqTimes(a, u);
    NormSqTimes(a, v);
    NormSqSign(a);
    NormSqSign(u);
    var c, x, y := a.NormSq(), a.Times(u).NormSq(), a.Times(v).NormSq();
    Positive(c, u.NormSq(), x);
    Positive(c, v.NormSq() - u.NormSq(), y - x);
    NormalisedIs(a.Times(u), n, x);
    NormalisedIs(a.Times(v), n, y);
    QuotientsOrdered(0.0, x, n as real * n as real);
    QuotientsOrdered(x, y, n as real * n as real);
  }

  /**
   * A tone on bin m has in its own bin its energy times the square of the
   * window's total, and no bin is stronger.
   */
  lemma TonePower(t: Trig, n: nat, m: nat, a: Complex, k: nat)
    requires t.Lawful() && n >= 2 && m < n && k < n
    ensures n as real * n as real > 0.0
    ensures var x, s := Tone(t, n, m, a), Total(HannWindow(t, n));
      && WindowedPower(t, x, m) == a.NormSq() * (s * s) / (n as real * n as real)
      && 0.0 <= WindowedPower(t, x, k) <= WindowedPower(t, x, m)
  {
    hide Complex.NormSq, Complex.Times, Trig.Lawful, HannWindow, Total, Tone, Kernel, WindowedPower, Residual;
    hide Normalised;
    ToneBin(t, n, m, a, m);
    ToneBin(t, n, m, a, k);
    KernelPeak(t, n, m, k);
    var w := HannWindow(t, n);
    var u, v := Kernel(w, Residual(t, n, m, k), n), Kernel(w, Residual(t, n, m, m), n);
    Proportional(a, u, v, n);
    NormSqTimes(a, v);
    NormalisedIs(a.Times(v), n, a.NormSq() * (Total(w) * Total(w)));
  }

  /** For four or more samples every other bin is strictly weaker. */
  lemma TonePeak(t: Trig, p: nat, m: nat, a: Complex, k: nat)
    requires t.Lawful() && t.TurnsOnce() && p >= 2 && m < Pow2(p) && k < Pow2(p) && k != m && a != ZERO
    ensures Pow2(p) >= 4
    ensures var x := Tone(t, Pow2(p), m, a);
      0.0 <= WindowedPower(t, x, k) < WindowedPower(t, x, m)
  {
    hide Complex.NormSq, Complex.Times, Trig.Lawful, HannWindow, Total, Tone, Kernel, WindowedPower, Residual;
    hide Trig.TurnsOnce, Normalised;
    var n := Pow2(p);
    FourOrMore(p);
    ToneBin(t, n, m, a, m);
    ToneBin(t, n, m, a, k);
    KernelPeak(t, n, m, k);
    KernelBelowPeak(t, p, m, k);
    var w := HannWindow(t, n);
    Proportional(a, Kernel(w, Residual(t, n, m, k), n), Kernel(w, Residual(t, n, m, m), n), n);
  }

  lemma KernelBelowPeak(t: Trig, p: nat, m: nat, k: nat)
    requires t.Lawful() && t.TurnsOnce() && p >= 2 && m < Pow2(p) && k < Pow2(p) && k != m && Pow2(p) >= 2
    ensures var w := HannWindow(t, Pow2(p));
      Kernel(w, Residual(t, Pow2(p), m, k), Pow2(p)).NormSq() < Total(w) * Total(w)
  {
    hide Complex.NormSq, Trig.Lawful, HannWindow, Total, Kernel, Residual, Trig.TurnsOnce;
    var n := Pow2(p);
    FourOrMore(p);
    ResidualTrivial(t, p, m, k);
    ResidualUnit(t, n, m, k);
    KernelOffBin(t, n, Residual(t, n, m, k));
    assert HannWindow(t, n)[..n] == HannWindow(t, n);
  }

  /** Every sample at negative full scale on both components. */
  function FullScale(n: nat): (iq: seq<int16>)
    ensures |iq| == 2 * n
  {
    seq(2 * n, _ => -0x8000)
  }

  lemma FullScaleIsTone(t: Trig, n: nat)
    requires t.Lawful() && n >= 2
    ensures Block(FullScale(n), n) == Tone(t, n, 0, Complex(-1.0, -1.0))
  {
    hide Trig.Cis, Complex.Times;
    var a := Complex(-1.0, -1.0);
    forall i | 0 <= i < n ensures SampleAt(FullScale(n), i) == Tone(t, n, 0, a)[i] {
      NoAngle(t, n, i);
      t.CisZero();
      OneTimes(a);
    }
  }

  lemma NoAngle(t: Trig, n: nat, i: nat)
    requires n > 0
    ensures ToneAngle(t, n, 0, i) == 0.0
  {
    assert 2.0 * t.pi * 0 as real * i as real == 0.0;
  }

  /** The bound is the least: it is met by the full-scale constant. */
  lemma TopPowerExactly(t: Trig, n: nat, bound: real)
    requires t.Lawful() && t.TurnsOnce() && n >= 2
    ensures (forall iq: seq<int16>, k: nat :: 2 * n <= |iq| && k < n ==> BinPower(t, n, iq, k) <= bound)
       <==> TopPower(n) <= bound
  {
    hide Trig.Lawful, BinPower, HannWindow, Total, Complex.NormSq, Trig.TurnsOnce, PeakTotal, WindowedPower;
    forall iq: seq<int16>, k: nat | 2 * n <= |iq| && k < n ensures BinPower(t, n, iq, k) <= TopPower(n) {
      BinPowerBound(t, n, iq, k);
    }
    FullScaleTops(t, n);
  }

  lemma FullScaleTops(t: Trig, n: nat)
    requires t.Lawful() && t.TurnsOnce() && n >= 2
    ensures BinPower(t, n, FullScale(n), 0) == TopPower(n)
  {
    hide Trig.Lawful, HannWindow, Total, Trig.TurnsOnce, PeakTotal, WindowedPower;
    FullScaleIsTone(t, n);
    TonePower(t, n, 0, Complex(-1.0, -1.0), 0);
    TotalAtMostPeak(t, n);
    assert Complex(-1.0, -1.0).NormSq() == 2.0;
  }

  // ---- the display order ----

  /** The raw bin shown in column `i`. */
  function DisplayBin(n: nat, i: nat): (k: nat)
    requires i < n
    ensures k < n
  {
    (i + n / 2) % n
  }

  /** For even sizes raw bin m is shown in column (m + n/2) mod n, and no other column shows it. */
  lemma ColumnOfBin(n: nat, m: nat, i: nat)
    requires m < n && i < n && n % 2 == 0
    ensures 0 <= (m + n / 2) % n < n
    ensures DisplayBin(n, i) == m <==> i == (m + n / 2) % n
  {
    ModOnce(m + n / 2, n);
    ModOnce(i + n / 2, n);
  }

  // ---- the processor ----

  /** A floor under the logarithm. */
  const POWER_FLOOR: real := 0.000000000001

  /** What is assumed of the decimal logarithm. */
  ghost predicate LogLaw(log10: real -> real) {
    && log10(1.0) == 0.0
    && (forall u, v {:trigger Grows(log10, u, v)} :: Grows(log10, u, v))
  }

  ghost predicate Grows(log10: real -> real, u: real, v: real) {
    0.0 < u < v ==> log10(u) < log10(v)
  }

  function ToDecibels(log10: real -> real, power: real): real {
    10.0 * log10(power + POWER_FLOOR)
  }

  /** The line shown for `x`, in display order. */
  function Line(t: Trig, log10: real -> real, x: seq<Complex>): (line: seq<real>)
    requires |x| >= 2
    ensures |line| == |x|
  {
    seq(|x|, i requires 0 <= i < |x| => ToDecibels(log10, WindowedPower(t, x, DisplayBin(|x|, i))))
  }

  /** The line shown for a CS16 block. */
  function Decibels(t: Trig, n: nat, log10: real -> real, iq: seq<int16>): (line: seq<real>)
    requires n >= 2 && 2 * n <= |iq|
    ensures |line| == n
  {
    Line(t, log10, Block(iq, n))
  }

  lemma LevelsOrdered(log10: real -> real, u: real, v: real)
    requires LogLaw(log10) && 0.0 <= u <= v
    ensures ToDecibels(log10, u) <= ToDecibels(log10, v)
    ensures u < v ==> ToDecibels(log10, u) < ToDecibels(log10, v)
  {
    assert Grows(log10, u + POWER_FLOOR, v + POWER_FLOOR);
  }

  /** Between the floor and the level of a full-scale constant, and below 0 dB. */
  predicate Bounded(log10: real -> real, n: nat, level: real)
    requires n >= 2
  {
    ToDecibels(log10, 0.0) <= level <= ToDecibels(log10, TopPower(n)) && level < 0.0
  }

  /** Every column of every block is. */
  lemma LevelRange(t: Trig, n: nat, log10: real -> real, iq: seq<int16>, i: nat)
    requires t.Lawful() && LogLaw(log10) && n >= 2 && 2 * n <= |iq| && i < n
    ensures Bounded(log10, n, Decibels(t, n, log10, iq)[i])
  {
    hide Trig.Lawful, LogLaw, ToDecibels, WindowedPower, TopPower, DisplayBin;
    var k := DisplayBin(n, i);
    BinPowerBound(t, n, iq, k);
    TopPowerBelowHalf(n);
    LevelsOrdered(log10, 0.0, BinPower(t, n, iq, k));
    LevelsOrdered(log10, BinPower(t, n, iq, k), TopPower(n));
    BelowFullScale(log10, TopPower(n));
  }

  lemma BelowFullScale(log10: real -> real, power: real)
    requires LogLaw(log10) && 0.0 <= power < 0.5
    ensures ToDecibels(log10, power) < 0.0
  {
    assert Grows(log10, power + POWER_FLOOR, 1.0);
  }

  /** Column i shows raw bin (i + n/2) mod n. */
  lemma ColumnShows(t: Trig, n: nat, log10: real -> real, iq: seq<int16>, i: nat)
    requires n >= 2 && 2 * n <= |iq| && i < n
    ensures 0 <= (i + n / 2) % n < n
    ensures Decibels(t, n, log10, iq)[i] == ToDecibels(log10, BinPower(t, n, iq, (i + n / 2) % n))
  {
    hide WindowedPower, ToDecibels;
  }

  // ---- the scale ----

  /** Ten times a number has a decimal logarithm greater by 1. */
  ghost predicate Decade(log10: real -> real, x: real) {
    x > 0.0 ==> log10(10.0 * x) == log10(x) + 1.0
  }

  ghost predicate DecadeLaw(log10: real -> real) {
    forall x {:trigger Decade(log10, x)} :: Decade(log10, x)
  }

  /** A tenth of a number `k` times over. */
  function Tenths(k: nat): (x: real)
    ensures x > 0.0
  {
    if k == 0 then 1.0 else Tenths(k - 1) / 10.0
  }

  lemma {:induction false} LogOfTenths(log10: real -> real, k: nat)
    requires LogLaw(log10) && DecadeLaw(log10)
    ensures log10(Tenths(k)) == -(k as real)
  {
    if k > 0 {
      LogOfTenths(log10, k - 1);
      assert Decade(log10, Tenths(k));
      assert 10.0 * Tenths(k) == Tenths(k - 1);
    }
  }

  /** The floor is at -120 dB. */
  lemma FloorLevel(log10: real -> real)
    requires LogLaw(log10) && DecadeLaw(log10)
    ensures ToDecibels(log10, 0.0) == -120.0
  {
    LogOfTenths(log10, 12);
    assert Tenths(3) == 0.001;
    assert Tenths(6) == 0.000001;
    assert Tenths(9) == 0.000000001;
    assert Tenths(12) == 0.000000000001;
  }

  /** Ten times the power, floor included, is 10 dB more. */
  lemma TenDecibels(log10: real -> real, power: real)
    requires LogLaw(log10) && DecadeLaw(log10) && power >= 0.0
    ensures ToDecibels(log10, 10.0 * power + 9.0 * 0.000000000001) == ToDecibels(log10, power) + 10.0
  {
    assert Decade(log10, power + POWER_FLOOR);
    assert 10.0 * (power + POWER_FLOOR) == 10.0 * power + 9.0 * 0.000000000001 + POWER_FLOOR;
  }

  /** A silent block is at the floor in every column. */
  lemma SilenceLevel(t: Trig, n: nat, log10: real -> real, iq: seq<int16>, i: nat)
    requires t.Lawful() && LogLaw(log10) && DecadeLaw(log10) && n >= 2 && 2 * n <= |iq| && i < n
    requires forall j :: 0 <= j < 2 * n ==> iq[j] == 0
    ensures Decibels(t, n, log10, iq)[i] == -120.0
  {
    hide Trig.Lawful, LogLaw, DecadeLaw, ToDecibels, Complex.NormSq, HannWindow, Total, DftSum, Weighted, Twiddle,
      Normalised, WindowedPower;
    var x, k := Block(iq, n), DisplayBin(n, i);
    forall j | 0 <= j < n ensures x[j].NormSq() <= 0.0 {
      NormSqSign(ZERO);
      assert x[j] == ZERO;
    }
    TwiddleUnit(t, n);
    HannNonNegative(t, n);
    WindowedBinBound(x, HannWindow(t, n), Twiddle(t, n), k, 0.0);
    PowerIsSum(t, x, k);
    NoPower(DftSum(Weighted(x, HannWindow(t, n)), Twiddle(t, n), k, n), n);
    FloorLevel(log10);
  }

  lemma NoPower(y: Complex, n: nat)
    requires n > 0 && y.NormSq() <= 0.0
    ensures Normalised(y, n) == 0.0
  {
    hide Complex.NormSq;
    NormSqSign(y);
    NormalisedIs(y, n, 0.0);
    QuotientsOrdered(0.0, 0.0, n as real * n as real);
  }

  // ---- the display ----

  /** One column of the line, from the transform of the windowed samples. */
  lemma ColumnIs(t: Trig, log10: real -> real, x: seq<Complex>, y: Complex, i: nat)
    requires |x| >= 2 && i < |x|
    requires y == Dft(t, Weighted(x, HannWindow(t, |x|)))[DisplayBin(|x|, i)]
    ensures Line(t, log10, x)[i] == ToDecibels(log10, Normalised(y, |x|))
  {
    hide Dft, Weighted, HannWindow, DisplayBin, ToDecibels, Normalised;
  }

  /** A tone on bin m peaks in column (m + n/2) mod n, and in no other. */
  lemma ToneColumn(t: Trig, p: nat, log10: real -> real, m: nat, a: Complex, i: nat)
    requires t.Lawful() && t.TurnsOnce() && LogLaw(log10)
    requires p >= 2 && m < Pow2(p) && i < Pow2(p) && a != ZERO
    ensures var n := Pow2(p);
      var line, column := Line(t, log10, Tone(t, n, m, a)), (m + n / 2) % n;
      i != column ==> line[i] < line[column]
  {
    hide Tone, DisplayBin, Trig.Lawful, Trig.TurnsOnce, WindowedPower, ToDecibels, LogLaw;
    var n := Pow2(p);
    ColumnOfBin(n, m, i);
    ColumnOfBin(n, m, (m + n / 2) % n);
    if i != (m + n / 2) % n {
      var k := DisplayBin(n, i);
      TonePeak(t, p, m, a, k);
      LevelsOrdered(log10, WindowedPower(t, Tone(t, n, m, a), k), WindowedPower(t, Tone(t, n, m, a), m));
    }
  }

  class FFTProcessor {
    const fftSize: nat
    const window: seq<real>
    const trig: Trig

    ghost predicate Valid() {
      fftSize >= 2 && window == HannWindow(trig, fftSize)
    }

    constructor (fftSize: nat, trig: Trig)
      requires fftSize >= 2
      ensures Valid() && this.fftSize == fftSize && this.trig == trig
    {
      this.fftSize := fftSize;
      this.trig := trig;
      var w := [];
      var i := 0;
      while i < fftSize
        invariant i <= fftSize && w == HannWindow(trig, fftSize)[..i]
      {
        w := w + [Hann(trig, fftSize, i)];
        i := i + 1;
      }
      window := w;
    }

    /**
     * Column i shows the power of raw bin (i + n/2) mod n of the windowed block
     * in dB; for every input it is below full scale. The length is compared
     * with a product of 32 bits, which is 0 for a size of 2^31.
     */
    method Compute(iq: seq<int16>, log10: real -> real) returns (psd: Result<seq<real>>)
      requires Valid() && trig.Lawful() && IsPow2(fftSize) && LogLaw(log10)
      requires fftSize < 0x8000_0000 || 2 * fftSize <= |iq|
      ensures psd.Thrown? <==> |iq| < 2 * fftSize % 0x1_0000_0000
      ensures psd.Ok? ==> 2 * fftSize <= |iq| && psd.value == Decibels(trig, fftSize, log10, iq)
      ensures psd.Ok? ==> forall i :: 0 <= i < fftSize ==>
        psd.value[i] == ToDecibels(log10, BinPower(trig, fftSize, iq, (i + fftSize / 2) % fftSize))
      ensures psd.Ok? ==> forall i :: 0 <= i < fftSize ==> Bounded(log10, fftSize, psd.value[i])
    {
      hide Complex.NormSq, Complex.Scaled, Trig.Lawful, Hann, Dft, ToDecibels, SampleAt, LogLaw, Bounded;
      hide Line, WindowedPower, Normalised;
      if |iq| < 2 * fftSize % 0x1_0000_0000 {
        return Thrown("iq_in too short for requested FFT size");
      }
      var n := fftSize;
      var spectrum := new Complex[n](_ => ZERO);
      var i := 0;
      ghost var x := Weighted(Block(iq, n), HannWindow(trig, n));
      while i < n
        invariant i <= n && spectrum[..i] == x[..i]
      {
        spectrum[i] := SampleAt(iq, i).Scaled(window[i]);
        i := i + 1;
      }
      assert spectrum[..] == x;
      FftInPlace(spectrum, trig);
      ghost var line := Decibels(trig, n, log10, iq);
      var out := [];
      i := 0;
      while i < n
        invariant i <= n
        invariant spectrum[..] == Dft(trig, x)
        invariant out == line[..i]
      {
        var idx := (i + n / 2) % n;
        var power := Normalised(spectrum[idx], n);
        assert spectrum[..][idx] == spectrum[idx];
        ColumnIs(trig, log10, Block(iq, n), spectrum[idx], i);
        assert line[i] == ToDecibels(log10, power);
        out := out + [ToDecibels(log10, power)];
        i := i + 1;
      }
      forall i | 0 <= i < n
        ensures Bounded(log10, n, out[i])
        ensures out[i] == ToDecibels(log10, BinPower(trig, n, iq, (i + n / 2) % n))
      {
        LevelRange(trig, n, log10, iq, i);
        ColumnShows(trig, n, log10, iq, i);
      }
      return Ok(out);
    }
  }
}
