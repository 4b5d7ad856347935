/** The frequency discriminator. */
module FmDemodulation {
  import opened ComplexNumbers
  import opened Trigonometry
  import opened Samples

  /** What is assumed of the argument function: it reads back an angle short of half a turn. */
  ghost predicate ReadsAngle(t: Trig, arg: Complex -> real, r: real, phi: real) {
    r > 0.0 && -t.pi < phi < t.pi ==> arg(t.Cis(phi).Scaled(r)) == phi
  }

  ghost predicate ArgLaw(t: Trig, arg: Complex -> real) {
    forall r, phi {:trigger ReadsAngle(t, arg, r, phi)} :: ReadsAngle(t, arg, r, phi)
  }

  /** The sample before position `i`. */
  function Before(prev: Complex, x: seq<Complex>, i: nat): Complex
    requires i <= |x|
  {
    if i == 0 then prev else x[i - 1]
  }

  function Discriminate(arg: Complex -> real, gain: real, prev: Complex, sample: Complex): real {
    arg(sample.Times(prev.Conj())) * gain
  }

  /** Each output is the turn from the previous sample to this one, scaled. */
  function Demodulated(arg: Complex -> real, gain: real, prev: Complex, x: seq<Complex>): (audio: seq<real>)
    ensures |audio| == |x|
  {
    seq(|x|, i requires 0 <= i < |x| => Discriminate(arg, gain, Before(prev, x, i), x[i]))
  }

  /** Cutting the stream anywhere changes nothing: the last sample is carried over. */
  lemma DemodulatedConcat(arg: Complex -> real, gain: real, prev: Complex, a: seq<Complex>, b: seq<Complex>)
    ensures Demodulated(arg, gain, prev, a + b)
         == Demodulated(arg, gain, prev, a) + Demodulated(arg, gain, Before(prev, a, |a|), b)
  {
    hide Discriminate;
    var l, r := Demodulated(arg, gain, prev, a + b), Demodulated(arg, gain, Before(prev, a, |a|), b);
    forall i | 0 <= i < |a + b|
      ensures l[i] == (Demodulated(arg, gain, prev, a) + r)[i]
    {
      if i >= |a| {
        assert Before(prev, a + b, i) == Before(Before(prev, a, |a|), b, i - |a|);
      }
    }
  }

  lemma NonZeroProduct(a: real, b: real)
    requires a > 0.0 && b != 0.0
    ensures a * b != 0.0
  {
    if a * b == 0.0 {
      ZeroProduct(a, b);
    }
  }

  /** The factor from phase steps to audio: one output unit is a step of the full deviation. */
  function Gain(pi: real, deviationHz: real, sampleRateHz: real): (g: real)
    requires pi > 0.0 && deviationHz != 0.0
    ensures g * (2.0 * pi * deviationHz) == sampleRateHz
  {
    NonZeroProduct(2.0 * pi, deviationHz);
    sampleRateHz / (2.0 * pi * deviationHz)
  }

  lemma DemodulatedAt(arg: Complex -> real, gain: real, prev: Complex, iq: seq<real>, i: nat)
    requires i < |iq| / 2
    ensures var x := Deinterleave(iq);
      && x[i] == Complex(iq[2 * i], iq[2 * i + 1])
      && Demodulated(arg, gain, prev, x)[i] == Discriminate(arg, gain, Before(prev, x, i), x[i])
  {
    hide Discriminate;
  }

  class FMDemodulator {
    const arg: Complex -> real
    const gain: real
    var prevSample: Complex

    constructor (deviationHz: real, sampleRateHz: real, t: Trig, arg: Complex -> real)
      requires t.pi > 0.0 && deviationHz != 0.0
      ensures prevSample == ONE && this.arg == arg
      ensures gain == Gain(t.pi, deviationHz, sampleRateHz)
    {
      hide Gain;
      this.arg := arg;
      gain := Gain(t.pi, deviationHz, sampleRateHz);
      prevSample := ONE;
    }

    method Demodulate(iq: seq<real>) returns (audio: seq<real>)
      modifies this
      ensures audio == Demodulated(arg, gain, old(prevSample), Deinterleave(iq))
      ensures prevSample == Before(old(prevSample), Deinterleave(iq), |iq| / 2)
    {
      hide Discriminate, Demodulated, Deinterleave;
      var n := |iq| / 2;
      ghost var x := Deinterleave(iq);
      ghost var all := Demodulated(arg, gain, prevSample, x);
      ghost var prev := prevSample;
      audio := [];
      var i := 0;
      while i < n
        invariant 0 <= i <= n && audio == all[..i]
        invariant prevSample == Before(prev, x, i)
      {
        var sample := Complex(iq[2 * i], iq[2 * i + 1]);
        DemodulatedAt(arg, gain, prev, iq, i);
        audio := audio + [Discriminate(arg, gain, prevSample, sample)];
        prevSample := sample;
        i := i + 1;
      }
    }
  }

  // ---- what the discriminator recovers ----

  lemma ConjProduct(t: Trig, a: real, p: real, b: real, q: real)
    requires t.Lawful()
    ensures t.Cis(p).Scaled(a).Times(t.Cis(q).Scaled(b).Conj()) == t.Cis(p - q).Scaled(a * b)
  {
    hide Complex.Times, Complex.Scaled, Complex.Conj, Trig.Cis;
    assert t.Reflects(q);
    t.CisPlus(p, -q);
    t.CisSame(p + -q, p - q);
    ConjScaled(t.Cis(q), b);
    var u, v := t.Cis(p), t.Cis(-q);
    ScaledTimes(u, v.Scaled(b), a);
    ScaledTimes(u, v, b);
    ScaledTwice(u.Times(v), b, a);
  }

  lemma ConjScaled(a: Complex, r: real)
    ensures a.Scaled(r).Conj() == a.Conj().Scaled(r)
  {}

  lemma ScaledTwice(a: Complex, r: real, s: real)
    ensures a.Scaled(r).Scaled(s) == a.Scaled(s * r)
  {}

  /** An FM signal: sample n has positive amplitude amp(n) and phase phi(n). */
  ghost predicate HasPhases(t: Trig, x: seq<Complex>, amp: int -> real, phi: int -> real) {
    forall n :: 0 <= n < |x| ==> amp(n) > 0.0 && x[n] == t.Cis(phi(n)).Scaled(amp(n))
  }

  /** Consecutive phases differ by less than half a turn, starting from phase 0. */
  ghost predicate SlowPhases(t: Trig, n: nat, phi: int -> real) {
    phi(-1) == 0.0 && forall k {:trigger SlowStep(t, phi, k)} :: 0 <= k < n ==> SlowStep(t, phi, k)
  }

  ghost predicate SlowStep(t: Trig, phi: int -> real, k: int) {
    -t.pi < phi(k) - phi(k - 1) < t.pi
  }

  /** FM round trip: demodulation from the initial state returns the scaled phase step at every sample. */
  lemma FmRoundTrip(t: Trig, arg: Complex -> real, gain: real, x: seq<Complex>,
                    amp: int -> real, phi: int -> real, n: nat)
    requires t.Lawful() && ArgLaw(t, arg) && n < |x|
    requires HasPhases(t, x, amp, phi) && SlowPhases(t, |x|, phi)
    ensures Demodulated(arg, gain, ONE, x)[n] == gain * (phi(n) - phi(n - 1))
  {
    hide Complex.Scaled, Demodulated, Trig.Cis, Trig.Lawful, ArgLaw;
    assert SlowStep(t, phi, n);
    var b := if n == 0 then 1.0 else amp(n - 1);
    UnitStart(t);
    t.CisSame(phi(-1), 0.0);
    RecoversStep(t, arg, gain, ONE, x, n, amp(n), phi(n), b, phi(n - 1));
  }

  lemma RecoversStep(t: Trig, arg: Complex -> real, gain: real, prev: Complex, x: seq<Complex>, n: nat,
                     a: real, p: real, b: real, q: real)
    requires t.Lawful() && ArgLaw(t, arg) && n < |x| && a > 0.0 && b > 0.0 && -t.pi < p - q < t.pi
    requires x[n] == t.Cis(p).Scaled(a) && Before(prev, x, n) == t.Cis(q).Scaled(b)
    ensures Demodulated(arg, gain, prev, x)[n] == gain * (p - q)
  {
    hide Complex.Scaled, Discriminate, Trig.Cis, Trig.Lawful, ArgLaw;
    ReadsStep(t, arg, gain, a, p, b, q);
  }

  lemma ReadsStep(t: Trig, arg: Complex -> real, gain: real, a: real, p: real, b: real, q: real)
    requires t.Lawful() && ArgLaw(t, arg) && a > 0.0 && b > 0.0 && -t.pi < p - q < t.pi
    ensures Discriminate(arg, gain, t.Cis(q).Scaled(b), t.Cis(p).Scaled(a)) == gain * (p - q)
  {
    hide Complex.Times, Complex.Scaled, Complex.Conj, Trig.Cis, Trig.Lawful;
    ConjProduct(t, a, p, b, q);
    Positive(a, b, a * b);
    assert ReadsAngle(t, arg, a * b, p - q);
  }

  lemma UnitStart(t: Trig)
    requires t.Lawful()
    ensures ONE == t.Cis(0.0).Scaled(1.0)
  {}

  // ---- the range of the audio ----

  /** And its values are principal angles. */
  ghost predicate ArgRange(t: Trig, arg: Complex -> real) {
    forall z {:trigger arg(z)} :: -t.pi <= arg(z) <= t.pi
  }

  predicate InRange(audio: seq<real>) {
    forall i :: 0 <= i < |audio| ==> -1.0 <= audio[i] <= 1.0
  }

  /** The audio keeps within [-1, 1] for every stream exactly when the rate is at most twice the deviation. */
  lemma AudioRangeExactly(t: Trig, arg: Complex -> real, deviationHz: real, sampleRateHz: real)
    requires t.Lawful() && ArgLaw(t, arg) && ArgRange(t, arg) && deviationHz > 0.0 && sampleRateHz > 0.0
    ensures var gain := Gain(t.pi, deviationHz, sampleRateHz);
      && ((forall prev, x :: InRange(Demodulated(arg, gain, prev, x))) <==> sampleRateHz <= 2.0 * deviationHz)
      && ((forall x :: InRange(Demodulated(arg, gain, ONE, x))) <==> sampleRateHz <= 2.0 * deviationHz)
  {
    hide Demodulated, Gain, Trig.Lawful, ArgLaw, ArgRange;
    PiIsPositive(t);
    var gain := Gain(t.pi, deviationHz, sampleRateHz);
    GainAtHalfTurn(t.pi, deviationHz, sampleRateHz, gain, gain * t.pi);
    if sampleRateHz <= 2.0 * deviationHz {
      forall prev, x ensures InRange(Demodulated(arg, gain, prev, x)) {
        QuietStream(t, arg, gain, prev, x);
      }
    } else {
      LoudSample(t, arg, gain);
    }
  }

  lemma PiIsPositive(t: Trig)
    requires t.Lawful()
    ensures t.pi > 0.0
  {}

  lemma GainAtHalfTurn(pi: real, deviationHz: real, sampleRateHz: real, gain: real, top: real)
    requires pi > 0.0 && deviationHz > 0.0 && sampleRateHz > 0.0
    requires gain * (2.0 * pi * deviationHz) == sampleRateHz && top == gain * pi
    ensures gain > 0.0
    ensures top <= 1.0 <==> sampleRateHz <= 2.0 * deviationHz
  {
    var d := 2.0 * deviationHz;
    Positive(pi, d, pi * d);
    if gain <= 0.0 {
      Positive(-gain, pi * d, -gain * (pi * d));
    }
    assert top * d == sampleRateHz;
    Positive(top - 1.0, d, (top - 1.0) * d);
    Positive(1.0 - top, d, (1.0 - top) * d);
  }

  lemma QuietStream(t: Trig, arg: Complex -> real, gain: real, prev: Complex, x: seq<Complex>)
    requires ArgRange(t, arg) && gain > 0.0 && gain * t.pi <= 1.0
    ensures InRange(Demodulated(arg, gain, prev, x))
  {
    hide Discriminate;
    forall i | 0 <= i < |x| ensures -1.0 <= Discriminate(arg, gain, Before(prev, x, i), x[i]) <= 1.0 {
      QuietSample(t, arg, gain, Before(prev, x, i), x[i]);
    }
  }

  lemma QuietSample(t: Trig, arg: Complex -> real, gain: real, prev: Complex, sample: Complex)
    requires ArgRange(t, arg) && gain > 0.0 && gain * t.pi <= 1.0
    ensures -1.0 <= Discriminate(arg, gain, prev, sample) <= 1.0
  {
    hide Complex.Times, Complex.Conj;
    PartOfHalfTurn(t.pi, arg(sample.Times(prev.Conj())), gain);
  }

  lemma PartOfHalfTurn(pi: real, a: real, gain: real)
    requires -pi <= a <= pi && gain > 0.0 && gain * pi <= 1.0
    ensures -1.0 <= a * gain <= 1.0
  {
    Positive(gain, pi - a, gain * (pi - a));
    Positive(gain, pi + a, gain * (pi + a));
  }

  /** If half a turn is too loud, so is something short of it, right after the start. */
  lemma LoudSample(t: Trig, arg: Complex -> real, gain: real)
    requires t.Lawful() && ArgLaw(t, arg) && t.pi > 0.0 && gain > 0.0 && gain * t.pi > 1.0
    ensures exists x :: !InRange(Demodulated(arg, gain, ONE, x))
  {
    hide Complex.Scaled, Discriminate, Trig.Cis, Trig.Lawful, ArgLaw;
    var phi := Between(t.pi, gain);
    var x := [t.Cis(phi).Scaled(1.0)];
    UnitStart(t);
    ReadsStep(t, arg, gain, 1.0, phi, 1.0, 0.0);
    assert Demodulated(arg, gain, ONE, x)[0] == gain * (phi - 0.0);
    assert !InRange(Demodulated(arg, gain, ONE, x));
  }

  lemma Between(pi: real, gain: real) returns (phi: real)
    requires pi > 0.0 && gain > 0.0 && gain * pi > 1.0
    ensures 0.0 < phi < pi && gain * phi > 1.0
  {
    var r := 1.0 / gain;
    assert r * gain == 1.0;
    phi := (r + pi) / 2.0;
    if r >= pi {
      Positive(r - pi, gain, (r - pi) * gain);
    }
    if r <= 0.0 {
      Positive(-r, gain, -r * gain);
    }
    assert 2.0 * (gain * phi) == 1.0 + gain * pi;
  }

  /** At the default 48,000 Hz and 5,000 Hz a quarter turn gives 2.4. */
  lemma DefaultAudioTooLoud(t: Trig, arg: Complex -> real)
    requires t.Lawful() && ArgLaw(t, arg)
    ensures Demodulated(arg, Gain(t.pi, 5000.0, 48000.0), ONE, [t.Cis(t.pi / 2.0)]) == [2.4]
  {
    hide Complex.Scaled, Discriminate, Trig.Cis, Trig.Lawful, ArgLaw, Gain;
    PiIsPositive(t);
    var gain, phi := Gain(t.pi, 5000.0, 48000.0), t.pi / 2.0;
    assert gain * phi == 2.4;
    UnitStart(t);
    ScaledByOne(t.Cis(phi));
    ReadsStep(t, arg, gain, 1.0, phi, 1.0, 0.0);
    var x := [t.Cis(phi)];
    assert Demodulated(arg, gain, ONE, x)[0] == Discriminate(arg, gain, ONE, x[0]);
  }

  lemma ScaledByOne(a: Complex)
    ensures a.Scaled(1.0) == a
  {}

  /** Successive calls of one object, one block each, put end to end. */
  function DemodulatedRun(arg: Complex -> real, gain: real, prev: Complex, blocks: seq<seq<Complex>>): seq<real>
    decreases |blocks|
  {
    if blocks == [] then [] else
      Demodulated(arg, gain, prev, blocks[0])
      + DemodulatedRun(arg, gain, Before(prev, blocks[0], |blocks[0]|), blocks[1..])
  }

  /** Any split into blocks demodulates to the same audio as the whole stream. */
  lemma {:induction false} DemodulatedSplits(arg: Complex -> real, gain: real, prev: Complex, blocks: seq<seq<Complex>>)
    ensures DemodulatedRun(arg, gain, prev, blocks) == Demodulated(arg, gain, prev, Flatten(blocks))
    decreases |blocks|
  {
    hide Demodulated;
    if blocks == [] {
      assert Demodulated(arg, gain, prev, []) == [];
    } else {
      DemodulatedSplits(arg, gain, Before(prev, blocks[0], |blocks[0]|), blocks[1..]);
      DemodulatedConcat(arg, gain, prev, blocks[0], Flatten(blocks[1..]));
    }
  }
}
