/** What the emulator's samples are made of, and what the discriminator recovers of an FM signal. */
module EmulatedSignals {
  import opened ComplexNumbers
  import opened Trigonometry
  import opened RealSums
  import opened Samples
  import opened Division
  import opened Emulation
  import opened FmDemodulation

  // ---- signals on top of each other ----

  /** Sixteen bits, in two's complement. */
  predicate LowBits(v: int, sum: int) {
    -32768 <= v <= 32767 && (v - sum) % 65536 == 0
  }

  lemma Wraps(v: int)
    ensures LowBits(Wrap16(v), v)
  {}

  lemma LowBitsAdd(a: int, x: int, b: int, y: int, v: int)
    requires LowBits(a, x) && LowBits(b, y) && LowBits(v, a + b)
    ensures LowBits(v, x + y)
  {
    var i, j, k := (a - x) / 65536, (b - y) / 65536, (v - (a + b)) / 65536;
    assert v - (x + y) == 65536 * (i + j + k);
  }

  /** A tone or FM signal is added to what is there, truncated and in 16 bits. */
  lemma AddedTruncated(s: Scene, g: Signal, n: nat, was: (int16, int16))
    requires s.sampleRateHz > 0 && ValidSignal(g) && !g.Noise?
    ensures var v, z := AddSignal(s, g, n, was), Exact(s, g, n);
      LowBits(v.0, was.0 + Truncate(z.re)) && LowBits(v.1, was.1 + Truncate(z.im))
  {
    hide Truncate, PhaseAt, Wrap16, LowBits;
    var phase := PhaseAt(s, g, n);
    AddedComponent(was.0, g.amplitude, s.trig.cos(phase), Exact(s, g, n).re);
    AddedComponent(was.1, g.amplitude, s.trig.sin(phase), Exact(s, g, n).im);
  }

  lemma AddedComponent(was: int16, amplitude: real, c: real, x: real)
    requires x == c * amplitude
    ensures LowBits(Accumulate(was, amplitude, c), was + Truncate(x))
  {
    hide Truncate, Wrap16, LowBits;
    assert amplitude * c == x;
    var t := Truncate(x);
    Wraps(t);
    Wraps(was + Wrap16(t));
    Zero(was);
    LowBitsAdd(was, was, Wrap16(t), t, Wrap16(was + Wrap16(t)));
  }

  lemma Zero(v: int16)
    ensures LowBits(v, v)
  {}

  /** The first `k` signals of a scene at sample `n`, each truncated. */
  function TruncatedSum(s: Scene, n: nat, k: nat): (int, int)
    requires ValidScene(s) && k <= |s.signals| && forall i :: 0 <= i < k ==> !s.signals[i].Noise?
  {
    if k == 0 then (0, 0) else
      var was, z := TruncatedSum(s, n, k - 1), Exact(s, s.signals[k - 1], n);
      (was.0 + Truncate(z.re), was.1 + Truncate(z.im))
  }

  /** Without noise a sample is the low 16 bits of the sum of its signals. */
  lemma {:induction false} SignalsAddUp(s: Scene, n: nat, k: nat)
    requires ValidScene(s) && k <= |s.signals| && forall i :: 0 <= i < k ==> !s.signals[i].Noise?
    ensures var v, sum := Mixture(s, n, k), TruncatedSum(s, n, k); LowBits(v.0, sum.0) && LowBits(v.1, sum.1)
  {
    hide Truncate, PhaseAt, Exact, AddSignal, LowBits;
    Zero(0);
    if k > 0 {
      SignalsAddUp(s, n, k - 1);
      var was, now, sum, z := Mixture(s, n, k - 1), Mixture(s, n, k), TruncatedSum(s, n, k - 1),
        Exact(s, s.signals[k - 1], n);
      AddedTruncated(s, s.signals[k - 1], n, was);
      OneMore(was.0, sum.0, Truncate(z.re), now.0);
      OneMore(was.1, sum.1, Truncate(z.im), now.1);
    }
  }

  lemma OneMore(was: int, sum: int, t: int, v: int)
    requires LowBits(was, sum) && LowBits(v, was + t)
    ensures LowBits(v, sum + t)
  {
    var i, j := (was - sum) / 65536, (v - (was + t)) / 65536;
    assert v - (sum + t) == 65536 * (i + j);
  }

  /** Noise is clamped, truncated and written over every earlier signal. */
  lemma NoiseOverwrites(s: Scene, draws: (nat, nat) -> Complex, block: nat, i: nat, k: nat)
    requires ValidScene(s) && k < |s.signals| && s.signals[k] == Noise(draws) && i < 65536
    ensures var v, z := Mixture(s, block * 65536 + i, k + 1), draws(block + s.ends, i);
      && (-32768.0 <= z.re <= 32767.0 ==> v.0 == Truncate(z.re))
      && (-32768.0 <= z.im <= 32767.0 ==> v.1 == Truncate(z.im))
      && (z.re < -32768.0 ==> v.0 == -32768) && (z.re > 32767.0 ==> v.0 == 32767)
      && (z.im < -32768.0 ==> v.1 == -32768) && (z.im > 32767.0 ==> v.1 == 32767)
  {
    hide ToSample, Clamp, Truncate, Mixture;
    var n := block * 65536 + i;
    QuotientUnique(n, 65536, block, i);
    LastSignal(s, n, k);
    var v, z := Mixture(s, n, k + 1), draws(block + s.ends, i);
    assert v == NoiseSample(z);
    ClampedComponent(z.re, v.0);
    ClampedComponent(z.im, v.1);
  }

  lemma LastSignal(s: Scene, n: nat, k: nat)
    requires ValidScene(s) && k < |s.signals|
    ensures Mixture(s, n, k + 1) == AddSignal(s, s.signals[k], n, Mixture(s, n, k))
  {
    hide AddSignal;
  }

  lemma ClampedComponent(x: real, v: int16)
    requires v == ToSample(Clamp(x))
    ensures -32768.0 <= x <= 32767.0 ==> v == Truncate(x)
    ensures x < -32768.0 ==> v == -32768
    ensures x > 32767.0 ==> v == 32767
  {}

  // ---- FM ----

  /** The phase of an FM signal: carrier steps, and the modulation's sine times the modulation index. */
  function FmPhase(t: Trig, rate: real, offsetHz: real, deviationHz: real, modulationHz: real, n: int): real
    requires rate != 0.0 && modulationHz != 0.0
  {
    Indexed(Steps(t.pi, rate, offsetHz, n), deviationHz / modulationHz, t.sin(Steps(t.pi, rate, modulationHz, n)))
  }

  /** The angle of `n` samples at `hz`. */
  function Steps(pi: real, rate: real, hz: real, n: int): real
    requires rate != 0.0
  {
    n as real * (2.0 * pi * hz / rate)
  }

  function Indexed(carrier: real, index: real, sine: real): real {
    carrier + index * sine
  }

  /** An FM signal of the scene is Fm, and heard; its first `count` samples are `x`. */
  ghost predicate FmSamples(s: Scene, f: real, amplitude: real, deviationHz: real, modulationHz: real,
                            x: seq<Complex>) {
    && s.sampleRateHz > 0 && modulationHz != 0.0 && amplitude > 0.0
    && forall i :: 0 <= i < |x| ==> x[i] == Exact(s, Fm(f, amplitude, deviationHz, modulationHz), i)
  }

  lemma FmRates(s: Scene, f: real, amplitude: real, deviationHz: real, modulationHz: real, x: seq<Complex>)
    requires FmSamples(s, f, amplitude, deviationHz, modulationHz, x)
    ensures s.sampleRateHz > 0 && modulationHz != 0.0
  {}

  /** No two neighbouring samples are half a turn apart or more. */
  ghost predicate SlowFm(t: Trig, rate: real, offsetHz: real, deviationHz: real, modulationHz: real, count: nat)
    requires rate != 0.0 && modulationHz != 0.0
  {
    forall n {:trigger FmStep(t, rate, offsetHz, deviationHz, modulationHz, n)} :: 0 < n < count ==>
      -t.pi < FmStep(t, rate, offsetHz, deviationHz, modulationHz, n) < t.pi
  }

  function FmStep(t: Trig, rate: real, offsetHz: real, deviationHz: real, modulationHz: real, n: int): real
    requires rate != 0.0 && modulationHz != 0.0
  {
    FmPhase(t, rate, offsetHz, deviationHz, modulationHz, n)
    - FmPhase(t, rate, offsetHz, deviationHz, modulationHz, n - 1)
  }

  /** The generator's samples have those phases. */
  lemma ExactFm(s: Scene, f: real, amplitude: real, deviationHz: real, modulationHz: real, n: nat)
    requires s.sampleRateHz > 0 && modulationHz != 0.0
    ensures Exact(s, Fm(f, amplitude, deviationHz, modulationHz), n)
         == s.trig.Cis(FmPhase(s.trig, s.sampleRateHz as real, f - s.centreHz, deviationHz, modulationHz, n))
            .Scaled(amplitude)
  {
    hide Complex.Scaled, Trig.Cis, Indexed, Modulated, Steps, Advance, PhasePerSample;
    var t := s.trig;
    SamePhase(t.pi, s.sampleRateHz, f - s.centreHz, n);
    SamePhase(t.pi, s.sampleRateHz, modulationHz, n);
    ModulatedIs(Steps(t.pi, s.sampleRateHz as real, f - s.centreHz, n), deviationHz, modulationHz,
                t.sin(Steps(t.pi, s.sampleRateHz as real, modulationHz, n)));
  }

  lemma ModulatedIs(carrier: real, deviationHz: real, modulationHz: real, sine: real)
    requires modulationHz != 0.0
    ensures Modulated(carrier, deviationHz, modulationHz, sine) == Indexed(carrier, deviationHz / modulationHz, sine)
  {}

  lemma SamePhase(pi: real, sampleRateHz: nat, hz: real, n: nat)
    requires sampleRateHz > 0
    ensures Advance(PhasePerSample(pi, sampleRateHz, hz), n) == Steps(pi, sampleRateHz as real, hz, n)
  {}

  /**
   * The FM round trip, from the generator to the discriminator: as long as
   * neighbouring samples are less than half a turn apart, the audio of the
   * first n + 1 samples adds up to the phase reached, scaled by the gain: n
   * steps of the carrier and the integral of the modulation.
   */
  lemma FmRecovered(s: Scene, arg: Complex -> real, gain: real, f: real, amplitude: real, deviationHz: real,
                    modulationHz: real, x: seq<Complex>, n: nat, carrier: real, modulation: real)
    requires s.trig.Lawful() && ArgLaw(s.trig, arg) && n < |x|
    requires FmSamples(s, f, amplitude, deviationHz, modulationHz, x)
    requires SlowFm(s.trig, s.sampleRateHz as real, f - s.centreHz, deviationHz, modulationHz, |x|)
    requires carrier == n as real * (2.0 * s.trig.pi * (f - s.centreHz) / s.sampleRateHz as real)
    requires modulation == n as real * (2.0 * s.trig.pi * modulationHz / s.sampleRateHz as real)
    ensures Total(Demodulated(arg, gain, ONE, x)[..n + 1])
         == gain * (carrier + deviationHz / modulationHz * s.trig.sin(modulation))
  {
    hide Trig.Lawful, Demodulated, ArgLaw, FmSamples, Total, SlowFm, FmPhase;
    FmRates(s, f, amplitude, deviationHz, modulationHz, x);
    FmTotal(s, arg, gain, f, amplitude, deviationHz, modulationHz, x, n);
    PhaseIs(s.trig, s.sampleRateHz as real, f - s.centreHz, deviationHz, modulationHz, n, carrier, modulation);
  }

  lemma PhaseIs(t: Trig, rate: real, offsetHz: real, deviationHz: real, modulationHz: real, n: int,
                carrier: real, modulation: real)
    requires rate != 0.0 && modulationHz != 0.0
    requires carrier == n as real * (2.0 * t.pi * offsetHz / rate)
    requires modulation == n as real * (2.0 * t.pi * modulationHz / rate)
    ensures FmPhase(t, rate, offsetHz, deviationHz, modulationHz, n)
         == carrier + deviationHz / modulationHz * t.sin(modulation)
  {
    hide Indexed, Steps;
    StepsAre(t.pi, rate, offsetHz, n, carrier);
    StepsAre(t.pi, rate, modulationHz, n, modulation);
    IndexedIs(carrier, deviationHz / modulationHz, t.sin(modulation));
  }

  lemma StepsAre(pi: real, rate: real, hz: real, n: int, a: real)
    requires rate != 0.0 && a == n as real * (2.0 * pi * hz / rate)
    ensures Steps(pi, rate, hz, n) == a
  {}

  lemma IndexedIs(carrier: real, index: real, sine: real)
    ensures Indexed(carrier, index, sine) == carrier + index * sine
  {}

  lemma {:induction false} FmTotal(s: Scene, arg: Complex -> real, gain: real, f: real, amplitude: real,
                                   deviationHz: real, modulationHz: real, x: seq<Complex>, n: nat)
    requires s.trig.Lawful() && ArgLaw(s.trig, arg) && n < |x|
    requires FmSamples(s, f, amplitude, deviationHz, modulationHz, x)
    requires SlowFm(s.trig, s.sampleRateHz as real, f - s.centreHz, deviationHz, modulationHz, |x|)
    ensures Total(Demodulated(arg, gain, ONE, x)[..n + 1])
         == gain * FmPhase(s.trig, s.sampleRateHz as real, f - s.centreHz, deviationHz, modulationHz, n)
  {
    hide Trig.Lawful, Demodulated, ArgLaw, FmSamples, FmPhase, Total, SlowFm;
    FmRates(s, f, amplitude, deviationHz, modulationHz, x);
    var audio := Demodulated(arg, gain, ONE, x);
    if n > 0 {
      FmTotal(s, arg, gain, f, amplitude, deviationHz, modulationHz, x, n - 1);
    } else {
      NothingHeard(audio);
    }
    var p, q := FmHeard(s, arg, gain, f, amplitude, deviationHz, modulationHz, x, n);
    assert audio[..n + 1] == audio[..n] + [audio[n]];
    TotalSnoc(audio[..n], audio[n]);
    Telescope(gain, p, q);
  }

  lemma NothingHeard(audio: seq<real>)
    ensures Total(audio[..0]) == 0.0
  {}

  lemma Telescope(gain: real, p: real, q: real)
    ensures gain * q + gain * (p - q) == gain * p
    ensures gain * 0.0 == 0.0
  {}

  /** One sample's audio: the step from the phase before, which at the start is 0. */
  lemma FmHeard(s: Scene, arg: Complex -> real, gain: real, f: real, amplitude: real, deviationHz: real,
                modulationHz: real, x: seq<Complex>, n: nat) returns (p: real, q: real)
    requires s.trig.Lawful() && ArgLaw(s.trig, arg) && n < |x|
    requires FmSamples(s, f, amplitude, deviationHz, modulationHz, x)
    requires SlowFm(s.trig, s.sampleRateHz as real, f - s.centreHz, deviationHz, modulationHz, |x|)
    ensures modulationHz != 0.0 && s.sampleRateHz > 0
    ensures p == FmPhase(s.trig, s.sampleRateHz as real, f - s.centreHz, deviationHz, modulationHz, n)
    ensures q == if n == 0 then 0.0
      else FmPhase(s.trig, s.sampleRateHz as real, f - s.centreHz, deviationHz, modulationHz, n - 1)
    ensures Demodulated(arg, gain, ONE, x)[n] == gain * (p - q)
  {
    hide Complex.Scaled, Trig.Cis, Trig.Lawful, Demodulated, ArgLaw, FmPhase, Exact;
    var t, rate, offset := s.trig, s.sampleRateHz as real, f - s.centreHz;
    p := FmPhase(t, rate, offset, deviationHz, modulationHz, n);
    ExactFm(s, f, amplitude, deviationHz, modulationHz, n);
    if n == 0 {
      q := 0.0;
      UnitStart(t);
      PhaseStart(t, rate, offset, deviationHz, modulationHz);
      RecoversStep(t, arg, gain, ONE, x, n, amplitude, p, 1.0, q);
    } else {
      q := FmPhase(t, rate, offset, deviationHz, modulationHz, n - 1);
      ExactFm(s, f, amplitude, deviationHz, modulationHz, n - 1);
      assert FmStep(t, rate, offset, deviationHz, modulationHz, n) == p - q;
      RecoversStep(t, arg, gain, ONE, x, n, amplitude, p, amplitude, q);
    }
  }

  lemma PhaseStart(t: Trig, rate: real, offsetHz: real, deviationHz: real, modulationHz: real)
    requires t.Lawful() && rate != 0.0 && modulationHz != 0.0
    ensures t.pi > 0.0
    ensures FmPhase(t, rate, offsetHz, deviationHz, modulationHz, 0) == 0.0
  {
    t.CisZero();
    StepsAre(t.pi, rate, modulationHz, 0, 0.0);
  }

  /** What is assumed of the sine besides: it changes no faster than its angle. */
  ghost predicate SineSteady(t: Trig) {
    forall a, b {:trigger SteadySine(t, a, b)} :: SteadySine(t, a, b)
  }

  predicate SteadySine(t: Trig, a: real, b: real) {
    Abs(t.sin(a) - t.sin(b)) <= Abs(a - b)
  }

  /** Neighbouring samples are never half a turn apart where the signal keeps within half the sample rate. */
  lemma WithinBandIsSlow(t: Trig, rate: real, offsetHz: real, deviationHz: real, modulationHz: real, count: nat)
    requires t.Lawful() && SineSteady(t) && rate > 0.0 && modulationHz != 0.0
    requires 2.0 * (Abs(offsetHz) + Abs(deviationHz)) < rate
    ensures SlowFm(t, rate, offsetHz, deviationHz, modulationHz, count)
  {
    hide Trig.Lawful, SineSteady, FmStep, Abs;
    assert t.pi > 0.0 by { PiIsPositive(t); }
    forall n {:trigger FmStep(t, rate, offsetHz, deviationHz, modulationHz, n)} | 0 < n < count
      ensures -t.pi < FmStep(t, rate, offsetHz, deviationHz, modulationHz, n) < t.pi
    {
      StepWithin(t, rate, offsetHz, deviationHz, modulationHz, n);
    }
  }

  lemma StepWithin(t: Trig, rate: real, offsetHz: real, deviationHz: real, modulationHz: real, n: int)
    requires t.pi > 0.0 && SineSteady(t) && rate > 0.0 && modulationHz != 0.0
    requires 2.0 * (Abs(offsetHz) + Abs(deviationHz)) < rate
    ensures -t.pi < FmStep(t, rate, offsetHz, deviationHz, modulationHz, n) < t.pi
  {
    hide SineSteady, Steps, Abs, Indexed;
    var a, b := Steps(t.pi, rate, modulationHz, n), Steps(t.pi, rate, modulationHz, n - 1);
    var c := OneStep(t.pi, rate, offsetHz, n);
    var u := OneStep(t.pi, rate, modulationHz, n);
    var index, d := deviationHz / modulationHz, t.sin(a) - t.sin(b);
    assert SteadySine(t, a, b) by { SineIsSteady(t, a, b); }
    IndexedIs(Steps(t.pi, rate, offsetHz, n), index, t.sin(a));
    IndexedIs(Steps(t.pi, rate, offsetHz, n - 1), index, t.sin(b));
    StepsSum(index, t.sin(a), t.sin(b), d);
    ProductWithin(index, d, u);
    IndexStep(t.pi, rate, deviationHz, modulationHz, index, u);
    BandStep(t.pi, rate, offsetHz, deviationHz, c, index * u, index * d);
  }

  lemma SineIsSteady(t: Trig, a: real, b: real)
    requires SineSteady(t)
    ensures SteadySine(t, a, b)
  {}

  lemma OneStep(pi: real, rate: real, hz: real, n: int) returns (u: real)
    requires rate > 0.0
    ensures u * rate == 2.0 * pi * hz && u == Steps(pi, rate, hz, n) - Steps(pi, rate, hz, n - 1)
  {
    u := 2.0 * pi * hz / rate;
    assert n as real == (n - 1) as real + 1.0;
  }

  lemma StepsSum(index: real, x: real, y: real, d: real)
    requires d == x - y
    ensures index * x - index * y == index * d
  {}

  lemma ProductWithin(index: real, d: real, u: real)
    requires Abs(d) <= Abs(u)
    ensures Abs(index * d) <= Abs(index * u)
  {
    AbsProduct(index, d);
    AbsProduct(index, u);
    Positive(Abs(index), Abs(u) - Abs(d), Abs(index) * (Abs(u) - Abs(d)));
  }

  lemma AbsProduct(a: real, b: real)
    ensures Abs(a * b) == Abs(a) * Abs(b)
  {
    Positive(Abs(a), Abs(b), Abs(a) * Abs(b));
  }

  lemma IndexStep(pi: real, rate: real, deviationHz: real, modulationHz: real, index: real, u: real)
    requires rate > 0.0 && modulationHz != 0.0 && index == deviationHz / modulationHz
    requires u * rate == 2.0 * pi * modulationHz
    ensures index * u * rate == 2.0 * pi * deviationHz
  {
    assert index * modulationHz == deviationHz;
    assert index * u * rate == 2.0 * pi * (index * modulationHz);
  }

  lemma BandStep(pi: real, rate: real, offsetHz: real, deviationHz: real, c: real, v: real, w: real)
    requires pi > 0.0 && rate > 0.0 && 2.0 * (Abs(offsetHz) + Abs(deviationHz)) < rate
    requires c * rate == 2.0 * pi * offsetHz && v * rate == 2.0 * pi * deviationHz && Abs(w) <= Abs(v)
    ensures -pi < c + w < pi
  {
    assert 2.0 * pi * Abs(offsetHz) + 2.0 * pi * Abs(deviationHz) == 2.0 * pi * (Abs(offsetHz) + Abs(deviationHz));
    AbsStep(pi, rate, offsetHz, c);
    AbsStep(pi, rate, deviationHz, v);
    Below(pi, rate, Abs(c), Abs(v), Abs(offsetHz) + Abs(deviationHz));
  }

  lemma AbsStep(pi: real, rate: real, hz: real, c: real)
    requires pi > 0.0 && rate > 0.0 && c * rate == 2.0 * pi * hz
    ensures Abs(c) * rate == 2.0 * pi * Abs(hz)
  {
    AbsProduct(c, rate);
    AbsProduct(2.0 * pi, hz);
  }

  lemma Below(pi: real, rate: real, a: real, b: real, band: real)
    requires pi > 0.0 && rate > 0.0 && a * rate + b * rate == 2.0 * pi * band && 2.0 * band < rate
    ensures a + b < pi
  {
    Positive(pi, rate - 2.0 * band, pi * (rate - 2.0 * band));
    Positive(a + b - pi, rate, (a + b - pi) * rate);
    assert (a + b - pi) * rate == -(pi * (rate - 2.0 * band));
  }

  /** After whole modulation periods only the carrier is left. */
  lemma FmWholePeriods(s: Scene, arg: Complex -> real, gain: real, f: real, amplitude: real, deviationHz: real,
                       modulationHz: real, x: seq<Complex>, n: nat, periods: nat, carrier: real)
    requires s.trig.Lawful() && ArgLaw(s.trig, arg) && n < |x|
    requires FmSamples(s, f, amplitude, deviationHz, modulationHz, x)
    requires SlowFm(s.trig, s.sampleRateHz as real, f - s.centreHz, deviationHz, modulationHz, |x|)
    requires n as real * modulationHz == periods as real * s.sampleRateHz as real
    requires carrier == n as real * (2.0 * s.trig.pi * (f - s.centreHz) / s.sampleRateHz as real)
    ensures Total(Demodulated(arg, gain, ONE, x)[..n + 1]) == gain * carrier
  {
    hide Trig.Lawful, Demodulated, ArgLaw, FmSamples, Total, SlowFm;
    FmRates(s, f, amplitude, deviationHz, modulationHz, x);
    var modulation := n as real * (2.0 * s.trig.pi * modulationHz / s.sampleRateHz as real);
    SineAtPeriods(s.trig, s.sampleRateHz as real, modulationHz, n, periods, modulation);
    FmRecovered(s, arg, gain, f, amplitude, deviationHz, modulationHz, x, n, carrier, modulation);
  }

  lemma PeriodAngle(pi: real, rate: real, modulationHz: real, n: nat, periods: real, a: real)
    requires rate > 0.0 && n as real * modulationHz == periods * rate
    requires a == n as real * (2.0 * pi * modulationHz / rate)
    ensures a == periods * (2.0 * pi)
  {
    var q := 2.0 * pi * modulationHz / rate;
    assert q * rate == 2.0 * pi * modulationHz;
    assert a * rate == 2.0 * pi * (n as real * modulationHz);
    assert (a - periods * (2.0 * pi)) * rate == 0.0;
    ZeroProduct(a - periods * (2.0 * pi), rate);
  }

  lemma {:induction false} WholeTurns(t: Trig, m: nat, a: real)
    requires t.Lawful()
    ensures t.Cis(m as real * (2.0 * t.pi) + a) == t.Cis(a)
  {
    hide Trig.Cis, Trig.Lawful;
    if m == 0 {
      t.CisSame(m as real * (2.0 * t.pi) + a, a);
    } else {
      WholeTurns(t, m - 1, a);
      OneMoreTurn(m, 2.0 * t.pi);
      t.CisTurn((m - 1) as real * (2.0 * t.pi) + a);
      t.CisSame((m - 1) as real * (2.0 * t.pi) + a + 2.0 * t.pi, m as real * (2.0 * t.pi) + a);
    }
  }

  lemma OneMoreTurn(m: nat, turn: real)
    requires m > 0
    ensures (m - 1) as real * turn + turn == m as real * turn
  {
    assert m as real == (m - 1) as real + 1.0;
  }

  lemma SineAtPeriods(t: Trig, rate: real, modulationHz: real, n: nat, periods: nat, a: real)
    requires t.Lawful() && rate > 0.0 && n as real * modulationHz == periods as real * rate
    requires a == n as real * (2.0 * t.pi * modulationHz / rate)
    ensures t.sin(a) == 0.0
  {
    hide Trig.Lawful;
    PeriodAngle(t.pi, rate, modulationHz, n, periods as real, a);
    WholeTurns(t, periods, 0.0);
    t.CisSame(a, periods as real * (2.0 * t.pi) + 0.0);
    t.CisZero();
  }

  /** And a quarter period later the modulation has added its index. */
  lemma FmQuarterPeriod(s: Scene, arg: Complex -> real, gain: real, f: real, amplitude: real, deviationHz: real,
                        modulationHz: real, x: seq<Complex>, n: nat, periods: nat, carrier: real)
    requires s.trig.Lawful() && s.trig.QuarterIsI() && ArgLaw(s.trig, arg) && n < |x|
    requires FmSamples(s, f, amplitude, deviationHz, modulationHz, x)
    requires SlowFm(s.trig, s.sampleRateHz as real, f - s.centreHz, deviationHz, modulationHz, |x|)
    requires n as real * modulationHz == (periods as real + 0.25) * s.sampleRateHz as real
    requires carrier == n as real * (2.0 * s.trig.pi * (f - s.centreHz) / s.sampleRateHz as real)
    ensures Total(Demodulated(arg, gain, ONE, x)[..n + 1]) == gain * (carrier + deviationHz / modulationHz)
  {
    hide Trig.Lawful, Trig.QuarterIsI, Demodulated, ArgLaw, FmSamples, Total, SlowFm;
    FmRates(s, f, amplitude, deviationHz, modulationHz, x);
    var modulation := n as real * (2.0 * s.trig.pi * modulationHz / s.sampleRateHz as real);
    SineAtQuarter(s.trig, s.sampleRateHz as real, modulationHz, n, periods, modulation);
    FmRecovered(s, arg, gain, f, amplitude, deviationHz, modulationHz, x, n, carrier, modulation);
  }

  lemma SineAtQuarter(t: Trig, rate: real, modulationHz: real, n: nat, periods: nat, a: real)
    requires t.Lawful() && t.QuarterIsI() && rate > 0.0
    requires n as real * modulationHz == (periods as real + 0.25) * rate
    requires a == n as real * (2.0 * t.pi * modulationHz / rate)
    ensures t.sin(a) == 1.0
  {
    hide Trig.Lawful;
    PeriodAngle(t.pi, rate, modulationHz, n, periods as real + 0.25, a);
    WholeTurns(t, periods, t.pi / 2.0);
    t.CisSame(a, periods as real * (2.0 * t.pi) + t.pi / 2.0);
  }

  // ---- a block of one signal ----

  /** A unit vector scaled within 16 bits keeps within them. */
  lemma ComponentsFit(u: Complex, amplitude: real, z: Complex)
    requires u.NormSq() == 1.0 && 0.0 <= amplitude <= 32767.0 && z == u.Scaled(amplitude)
    ensures -32767.0 <= z.re <= 32767.0 && -32767.0 <= z.im <= 32767.0
  {
    SquareSign(u.re, u.re * u.re);
    SquareSign(u.im, u.im * u.im);
    ComponentFits(u.re, amplitude, z.re);
    ComponentFits(u.im, amplitude, z.im);
  }

  lemma ComponentFits(c: real, amplitude: real, x: real)
    requires c * c <= 1.0 && 0.0 <= amplitude <= 32767.0 && x == c * amplitude
    ensures -32767.0 <= x <= 32767.0
  {
    Positive(c - 1.0, c + 1.0, (c - 1.0) * (c + 1.0));
    Positive(-1.0 - c, 1.0 - c, (-1.0 - c) * (1.0 - c));
    Positive(amplitude, 1.0 - c, amplitude * (1.0 - c));
    Positive(amplitude, 1.0 + c, amplitude * (1.0 + c));
  }

  lemma LowBitsFit(v: int, x: real)
    requires -32767.0 <= x <= 32767.0 && LowBits(v, Truncate(x))
    ensures v == Truncate(x)
  {}

  lemma OneSignalBlock(s: Scene, g: Signal, block: nat, i: nat, z: Complex)
    requires s.trig.Lawful() && ValidScene(s) && s.signals == [g] && !g.Noise? && i < 65536
    requires ValidSignal(g) && 0.0 <= g.amplitude <= 32767.0 && z == Exact(s, g, block * 65536 + i)
    ensures var p := BlockPayload(s, block);
      p[2 * i] == Truncate(z.re) && p[2 * i + 1] == Truncate(z.im)
  {
    hide Trig.Lawful, PhaseAt, Mixture, Layer, Truncate, LowBits, Complex.NormSq, Complex.Scaled;
    var n := block * 65536 + i;
    LayerAt(s, block * 65536, 65536, 1, i);
    SignalsAddUp(s, n, 1);
    FirstSignal(s, n);
    s.trig.CisUnit(PhaseAt(s, g, n));
    ComponentsFit(s.trig.Cis(PhaseAt(s, g, n)), g.amplitude, z);
    LowBitsFit(Mixture(s, n, 1).0, z.re);
    LowBitsFit(Mixture(s, n, 1).1, z.im);
  }

  lemma FirstSignal(s: Scene, n: nat)
    requires ValidScene(s) && |s.signals| >= 1 && !s.signals[0].Noise?
    ensures var z := Exact(s, s.signals[0], n); TruncatedSum(s, n, 1) == (Truncate(z.re), Truncate(z.im))
  {
    hide Truncate, Exact;
    assert TruncatedSum(s, n, 0) == (0, 0);
  }

  /** A block of a scene with one FM signal, sample by sample. */
  lemma FmBlock(s: Scene, f: real, amplitude: real, deviationHz: real, modulationHz: real, block: nat, i: nat,
                carrier: real, modulation: real, phase: real)
    requires s.trig.Lawful() && ValidScene(s) && s.signals == [Fm(f, amplitude, deviationHz, modulationHz)]
    requires 0.0 <= amplitude <= 32767.0 && modulationHz != 0.0 && i < 65536
    requires var n := (block * 65536 + i) as real;
      && carrier == n * (2.0 * s.trig.pi * (f - s.centreHz) / s.sampleRateHz as real)
      && modulation == n * (2.0 * s.trig.pi * modulationHz / s.sampleRateHz as real)
    requires phase == carrier + deviationHz / modulationHz * s.trig.sin(modulation)
    ensures var p, z := BlockPayload(s, block), s.trig.Cis(phase).Scaled(amplitude);
      p[2 * i] == Truncate(z.re) && p[2 * i + 1] == Truncate(z.im)
  {
    hide Trig.Lawful, Complex.Scaled, Trig.Cis, Exact, BlockPayload, FmPhase, Truncate;
    var n := block * 65536 + i;
    ExactFm(s, f, amplitude, deviationHz, modulationHz, n);
    PhaseIs(s.trig, s.sampleRateHz as real, f - s.centreHz, deviationHz, modulationHz, n, carrier, modulation);
    s.trig.CisSame(FmPhase(s.trig, s.sampleRateHz as real, f - s.centreHz, deviationHz, modulationHz, n), phase);
    OneSignalBlock(s, s.signals[0], block, i, s.trig.Cis(phase).Scaled(amplitude));
  }

  /** And of a scene with one tone. */
  lemma ToneBlock(s: Scene, f: real, amplitude: real, block: nat, i: nat, carrier: real)
    requires s.trig.Lawful() && ValidScene(s) && s.signals == [Tone(f, amplitude)]
    requires 0.0 <= amplitude <= 32767.0 && i < 65536
    requires carrier == (block * 65536 + i) as real * (2.0 * s.trig.pi * (f - s.centreHz) / s.sampleRateHz as real)
    ensures var p, z := BlockPayload(s, block), s.trig.Cis(carrier).Scaled(amplitude);
      p[2 * i] == Truncate(z.re) && p[2 * i + 1] == Truncate(z.im)
  {
    hide Trig.Lawful, Complex.Scaled, Trig.Cis, Exact, BlockPayload, Truncate, Advance, PhasePerSample, Steps;
    var n := block * 65536 + i;
    StepsAre(s.trig.pi, s.sampleRateHz as real, f - s.centreHz, n, carrier);
    ExactTone(s, f, amplitude, n);
    OneSignalBlock(s, s.signals[0], block, i, s.trig.Cis(carrier).Scaled(amplitude));
  }

  lemma ExactTone(s: Scene, f: real, amplitude: real, n: nat)
    requires s.sampleRateHz > 0
    ensures Exact(s, Tone(f, amplitude), n)
         == s.trig.Cis(Steps(s.trig.pi, s.sampleRateHz as real, f - s.centreHz, n)).Scaled(amplitude)
  {
    hide Complex.Scaled, Advance, PhasePerSample, Steps;
    SamePhase(s.trig.pi, s.sampleRateHz, f - s.centreHz, n);
  }
}
