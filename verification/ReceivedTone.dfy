/** A tone of the emulator on the waterfall. */
module ReceivedTones {
  import opened ComplexNumbers
  import opened Trigonometry
  import opened BitReversal
  import opened Samples
  import opened Packets
  import opened Division
  import opened PowerSpectrum
  import opened RobustTones
  import opened HannWindows
  import opened KernelBounds
  import S = SpectralLaws
  import E = Emulation

  /**
   * A scene with one tone, on bin `m` of `n`: above the centre for the lower
   * half of the bins as they come out of the transform, or below it.
   */
  ghost predicate OneTone(s: E.Scene, n: nat, m: nat, amplitude: real) {
    && E.ValidScene(s) && |s.signals| == 1 && s.signals[0].Tone?
    && s.signals[0].amplitude == amplitude && 0.0 <= amplitude <= 32767.0
    && var cycles := (s.signals[0].centreHz - s.centreHz) * n as real;
       cycles == m as real * s.sampleRateHz as real || cycles == (m as real - n as real) * s.sampleRateHz as real
  }

  /** The phase step of the tone. */
  function ToneStep(s: E.Scene): real
    requires E.ValidScene(s) && |s.signals| == 1 && s.signals[0].Tone?
  {
    E.PhasePerSample(s.trig.pi, s.sampleRateHz, s.signals[0].centreHz - s.centreHz)
  }

  /** It turns by the same angle per sample as the exponential on bin m. */
  lemma StepOnBin(s: E.Scene, n: nat, m: nat, amplitude: real)
    requires s.trig.Lawful() && n > 0 && OneTone(s, n, m, amplitude)
    ensures s.trig.Cis(ToneStep(s)) == Pow(S.Step(s.trig, n), m)
  {
    hide Complex.Times, Trig.Cis, Trig.Lawful, Pow;
    var t, q := s.trig, 2.0 * s.trig.pi / n as real;
    t.CisMultiple(q, m, m as real * q);
    t.CisTurn(m as real * q);
    var hz, rate := s.signals[0].centreHz - s.centreHz, s.sampleRateHz as real;
    if hz * n as real == m as real * rate {
      StepAngle(t.pi, hz, rate, n as real, m as real);
      t.CisSame(ToneStep(s), m as real * q);
    } else {
      StepAngle(t.pi, hz, rate, n as real, m as real - n as real);
      TurnLess(t.pi, m as real, n as real);
      t.CisSame(ToneStep(s), m as real * q - 2.0 * t.pi);
    }
  }

  lemma StepAngle(pi: real, hz: real, rate: real, n: real, m: real)
    requires rate > 0.0 && n > 0.0 && hz * n == m * rate
    ensures 2.0 * pi * hz / rate == m * (2.0 * pi / n)
  {
    var u, q := 2.0 * pi * hz / rate, 2.0 * pi / n;
    assert u * rate == 2.0 * pi * hz && q * n == 2.0 * pi;
    assert u * rate * n == 2.0 * pi * (hz * n);
    assert m * q * rate * n == (q * n) * (m * rate);
    SameProduct(u, m * q, rate, n);
  }

  lemma SameProduct(u: real, v: real, a: real, b: real)
    requires a > 0.0 && b > 0.0 && u * a * b == v * a * b
    ensures u == v
  {
    Positive(a, b, a * b);
    assert (u - v) * (a * b) == 0.0;
    ZeroProduct(u - v, a * b);
  }

  lemma TurnLess(pi: real, m: real, n: real)
    requires n > 0.0
    ensures (m - n) * (2.0 * pi / n) == m * (2.0 * pi / n) - 2.0 * pi
  {
    var q := 2.0 * pi / n;
    assert q * n == 2.0 * pi;
  }

  /** The complex amplitude of the tone in a block that starts at sample `from`. */
  function Amplitude(s: E.Scene, from: nat): Complex
    requires E.ValidScene(s) && |s.signals| == 1 && s.signals[0].Tone?
  {
    s.trig.Cis(E.Advance(ToneStep(s), from)).Scaled(s.signals[0].amplitude / FULL_SCALE)
  }

  /** Sample `i` of that block is a sample of the exponential, scaled. */
  lemma SampleOnBin(s: E.Scene, n: nat, m: nat, amplitude: real, from: nat, i: nat)
    requires s.trig.Lawful() && OneTone(s, n, m, amplitude) && i < n
    ensures var phase := E.Advance(ToneStep(s), from + i);
      S.Tone(s.trig, n, m, Amplitude(s, from))[i] == s.trig.Cis(phase).Scaled(amplitude / FULL_SCALE)
  {
    hide Complex.Times, Complex.Scaled, Trig.Cis, Trig.Lawful, Pow, ToneStep, S.Tone, E.Advance;
    var t, step, r := s.trig, ToneStep(s), amplitude / FULL_SCALE;
    var base, turn := E.Advance(step, from), E.Advance(step, i);
    S.ToneSample(t, n, m, Amplitude(s, from), i);
    StepOnBin(s, n, m, amplitude);
    PowMul(S.Step(t, n), m, i);
    AdvanceIs(step, i);
    t.CisMultiple(step, i, turn);
    E.SplitPhase(step, from, i);
    t.CisPlus(base, turn);
    ScaledTimes(t.Cis(base), t.Cis(turn), r);
  }

  lemma AdvanceIs(step: real, i: nat)
    ensures E.Advance(step, i) == i as real * step
  {}

  /** The emulator's sample is that one, truncated. */
  lemma MixtureIsTruncated(s: E.Scene, n: nat, m: nat, amplitude: real, at: nat)
    requires s.trig.Lawful() && OneTone(s, n, m, amplitude)
    ensures var z := s.trig.Cis(E.Advance(ToneStep(s), at)).Scaled(amplitude / FULL_SCALE);
      var v := E.Mixture(s, at, 1);
      TruncatedSample(v.0, v.1, z)
  {
    hide Trig.Lawful, TruncatedSample, E.Advance, E.PhasePerSample, E.AddTurn, Trig.Cis, Complex.Scaled;
    assert E.Mixture(s, at, 0) == (0, 0);
    assert E.Mixture(s, at, 1) == E.AddTurn(s.trig, amplitude, E.Advance(ToneStep(s), at), (0, 0));
    TurnIsTruncated(s.trig, amplitude, E.Advance(ToneStep(s), at));
  }

  lemma TurnIsTruncated(t: Trig, amplitude: real, phase: real)
    requires t.Lawful() && 0.0 <= amplitude <= 32767.0
    ensures var v := E.AddTurn(t, amplitude, phase, (0, 0));
      TruncatedSample(v.0, v.1, t.Cis(phase).Scaled(amplitude / FULL_SCALE))
  {
    hide Trig.Lawful, Complex.NormSq, E.Accumulate, Truncate;
    t.CisUnit(phase);
    UnitCosine(t.Cis(phase));
    UnitSine(t.Cis(phase));
    var z := t.Cis(phase).Scaled(amplitude / FULL_SCALE);
    Fits(amplitude, t.cos(phase), z.re);
    Fits(amplitude, t.sin(phase), z.im);
  }

  /** A component in range is converted without wrapping. */
  lemma Fits(amplitude: real, c: real, x: real)
    requires 0.0 <= amplitude <= 32767.0 && -1.0 <= c <= 1.0 && x == c * (amplitude / FULL_SCALE)
    ensures E.Accumulate(0, amplitude, c) == Truncate(FULL_SCALE * x)
  {
    hide E.ToSample, Truncate;
    var v := amplitude * c;
    Component(amplitude, c, v, x);
    InRange(v);
  }

  lemma InRange(v: real)
    requires -32767.0 <= v <= 32767.0
    ensures E.ToSample(v) == Truncate(v) && E.Wrap16(0 + E.ToSample(v)) == Truncate(v)
  {}

  lemma Component(amplitude: real, c: real, v: real, x: real)
    requires 0.0 <= amplitude <= 32767.0 && -1.0 <= c <= 1.0
    requires v == amplitude * c && x == c * (amplitude / FULL_SCALE)
    ensures FULL_SCALE * x == v && -32767.0 <= v <= 32767.0
  {
    Positive(amplitude, 1.0 - c, amplitude * (1.0 - c));
    Positive(amplitude, 1.0 + c, amplitude * (1.0 + c));
  }

  lemma UnitSine(c: Complex)
    requires c.NormSq() == 1.0
    ensures -1.0 <= c.im <= 1.0
  {
    SquareSign(c.re, c.re * c.re);
    Positive(c.im - 1.0, c.im + 1.0, (c.im - 1.0) * (c.im + 1.0));
    Positive(-1.0 - c.im, 1.0 - c.im, (-1.0 - c.im) * (1.0 - c.im));
  }

  lemma AmplitudeSize(s: E.Scene, from: nat)
    requires s.trig.Lawful() && E.ValidScene(s) && |s.signals| == 1 && s.signals[0].Tone?
    ensures var r := s.signals[0].amplitude / FULL_SCALE; r * r == Amplitude(s, from).NormSq()
  {
    hide Trig.Lawful, Complex.NormSq, Complex.Scaled, Trig.Cis;
    var r, u := s.signals[0].amplitude / FULL_SCALE, s.trig.Cis(E.Advance(ToneStep(s), from));
    s.trig.CisUnit(E.Advance(ToneStep(s), from));
    UnitScaled(u, r);
  }

  /** Every block of a scene with one tone on bin `m` peaks in the column of that bin. */
  lemma EmulatedBinPeaks(s: E.Scene, p: nat, log10: real -> real, m: nat, amplitude: real, c: nat, i: nat)
    requires s.trig.Lawful() && s.trig.TurnsOnce() && LogLaw(log10)
    requires 4 <= p && Pow2(p) <= IQ_BLOCK_SAMPLES && m < Pow2(p) && i < Pow2(p)
    requires OneTone(s, Pow2(p), m, amplitude) && amplitude > 15.0
    ensures Pow2(p) >= 16
    ensures var n := Pow2(p);
      var line, column := Decibels(s.trig, n, log10, E.BlockPayload(s, c)), (m + n / 2) % n;
      i != column ==> line[i] < line[column]
  {
    hide Trig.Lawful, Trig.TurnsOnce, LogLaw, Decibels, S.Tone, E.Mixture, E.Layer, Amplitude, TruncatedSample,
      Complex.NormSq, Complex.Scaled;
    var n, from := Pow2(p), c * IQ_BLOCK_SAMPLES;
    SixteenOrMore(p);
    var iq := E.BlockPayload(s, c);
    forall j | 0 <= j < n
      ensures TruncatedSample(iq[2 * j], iq[2 * j + 1], S.Tone(s.trig, n, m, Amplitude(s, from))[j])
    {
      E.LayerAt(s, from, IQ_BLOCK_SAMPLES, 1, j);
      SampleOnBin(s, n, m, amplitude, from, j);
      MixtureIsTruncated(s, n, m, amplitude, from + j);
    }
    AmplitudeSize(s, from);
    TruncatedColumn(s.trig, p, log10, iq, m, Amplitude(s, from), amplitude / FULL_SCALE, i);
  }

  /**
   * From the emulator to the waterfall: columns run in rising frequency, n / 2
   * of them below the centre. Every block of a scene with one tone of more
   * than 15 steps, at the frequency of a column, has its peak in that column
   * and in no other.
   */
  lemma EmulatedTonePeaks(s: E.Scene, p: nat, log10: real -> real, toneHz: real, amplitude: real, column: nat,
                          block: nat, i: nat)
    requires s.trig.Lawful() && s.trig.TurnsOnce() && LogLaw(log10)
    requires E.ValidScene(s) && s.signals == [E.Tone(toneHz, amplitude)] && 15.0 < amplitude <= 32767.0
    requires 4 <= p && Pow2(p) <= 65536 && column < Pow2(p) && i < Pow2(p)
    requires (toneHz - s.centreHz) * Pow2(p) as real == (column as int - Pow2(p) / 2) as real * s.sampleRateHz as real
    ensures Pow2(p) >= 16
    ensures var line := Decibels(s.trig, Pow2(p), log10, E.BlockPayload(s, block));
      i != column ==> line[i] < line[column]
  {
    hide Trig.Lawful, Trig.TurnsOnce, LogLaw, Decibels, E.BlockPayload, OneTone, Pow2, E.ValidScene;
    SixteenOrMore(p);
    EvenPower(p);
    var m, offset := BinOfColumn(Pow2(p), column);
    SceneOnBin(s, Pow2(p), m, toneHz, amplitude, offset, (column as int - Pow2(p) / 2) as real);
    EmulatedBinPeaks(s, p, log10, m, amplitude, block, i);
  }

  lemma EvenPower(p: nat)
    requires p >= 1
    ensures Pow2(p) % 2 == 0
  {}

  /** The raw bin a column shows, and its distance from the centre in bins. */
  lemma BinOfColumn(n: nat, column: nat) returns (m: nat, offset: real)
    requires n % 2 == 0 && column < n
    ensures m < n && (m + n / 2) % n == column
    ensures offset == (column as int - n / 2) as real && (offset == m as real || offset == m as real - n as real)
  {
    m := if column < n / 2 then column + n / 2 else column - n / 2;
    offset := (column as int - n / 2) as real;
    ModOnce(m + n / 2, n);
  }

  lemma SceneOnBin(s: E.Scene, n: nat, m: nat, toneHz: real, amplitude: real, offset: real, d: real)
    requires E.ValidScene(s) && s.signals == [E.Tone(toneHz, amplitude)] && 0.0 <= amplitude <= 32767.0
    requires d == offset && (toneHz - s.centreHz) * n as real == d * s.sampleRateHz as real
    requires offset == m as real || offset == m as real - n as real
    ensures OneTone(s, n, m, amplitude)
  {}
}
