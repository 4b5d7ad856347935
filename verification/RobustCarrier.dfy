/** The audio of a stream that is only close to a carrier, as sixteen bits leave it. */
module RobustCarriers {
  import opened ComplexNumbers
  import opened Trigonometry
  import opened Samples
  import opened Channelising
  import opened FmDemodulation
  import opened ChannelWorkers
  import opened RobustTones
  import opened Division
  import opened Contracts

  // ---- what is assumed of the argument function besides ArgLaw ----

  /** Angles add up as long as their sum is short of half a turn. */
  ghost predicate AddsAngles(t: Trig, arg: Complex -> real, u: Complex, v: Complex) {
    u != ZERO && v != ZERO && -t.pi < arg(u) + arg(v) < t.pi ==> arg(u.Times(v)) == arg(u) + arg(v)
  }

  /** A number within `d` of 1 has an angle of at most d quarter turns. */
  ghost predicate SmallAngle(t: Trig, arg: Complex -> real, w: Complex, d: real) {
    0.0 <= d < 1.0 && w.Minus(ONE).NormSq() <= d * d ==> -(t.pi / 2.0 * d) <= arg(w) <= t.pi / 2.0 * d
  }

  ghost predicate ArgSteady(t: Trig, arg: Complex -> real) {
    && (forall u, v {:trigger AddsAngles(t, arg, u, v)} :: AddsAngles(t, arg, u, v))
    && (forall w, d {:trigger SmallAngle(t, arg, w, d)} :: SmallAngle(t, arg, w, d))
  }

  // ---- the error the filter lets through ----

  /** The absolute values of the first `k` taps together. */
  function AbsTotal(taps: seq<real>, k: nat): (s: real)
    requires k <= |taps|
    ensures s >= 0.0
  {
    if k == 0 then 0.0 else AbsTotal(taps, k - 1) + Abs(taps[k - 1])
  }

  lemma {:induction false} FirNear(taps: seq<real>, m: seq<Complex>, n: seq<Complex>, j: int, k: nat, eps: real)
    requires k <= |taps| && eps >= 0.0
    requires forall i {:trigger At(m, i)} :: At(m, i).Minus(At(n, i)).NormSq() <= eps * eps
    ensures var q := eps * AbsTotal(taps, k);
      FirSum(taps, m, j, k).Minus(FirSum(taps, n, j, k)).NormSq() <= q * q
  {
    hide Complex.NormSq, Complex.Plus, Complex.Minus, Complex.Scaled, At, Abs;
    if k == 0 {
      NothingMinus();
    } else {
      FirNear(taps, m, n, j, k - 1, eps);
      var u, v, r := At(m, j - (k - 1)), At(n, j - (k - 1)), taps[k - 1];
      var a, b := FirSum(taps, m, j, k - 1), FirSum(taps, n, j, k - 1);
      DifferenceOfSums(a, u.Scaled(r), b, v.Scaled(r));
      ScaledDifference(u, v, r);
      ScaledSize(u.Minus(v), r, eps, eps * Abs(r));
      NotNegative(eps, AbsTotal(taps, k - 1));
      NotNegative(eps, Abs(r));
      SumAtMost(a.Minus(b), u.Minus(v).Scaled(r), eps * AbsTotal(taps, k - 1), eps * Abs(r));
      assert eps * AbsTotal(taps, k) == eps * AbsTotal(taps, k - 1) + eps * Abs(r);
    }
  }

  lemma NothingMinus()
    ensures ZERO.Minus(ZERO).NormSq() == 0.0
  {}

  lemma NotNegative(a: real, b: real)
    requires a >= 0.0 && b >= 0.0
    ensures a * b >= 0.0
  {
    Positive(a, b, a * b);
  }

  lemma DifferenceOfSums(a: Complex, u: Complex, b: Complex, v: Complex)
    ensures a.Plus(u).Minus(b.Plus(v)) == a.Minus(b).Plus(u.Minus(v))
  {}

  lemma ScaledDifference(u: Complex, v: Complex, r: real)
    ensures u.Scaled(r).Minus(v.Scaled(r)) == u.Minus(v).Scaled(r)
  {}

  lemma ScaledSize(z: Complex, r: real, eps: real, q: real)
    requires z.NormSq() <= eps * eps && q == eps * Abs(r)
    ensures z.Scaled(r).NormSq() <= q * q
  {
    hide Complex.NormSq, Abs;
    var rr := r * r;
    SquareSign(r, rr);
    ScaledNormSq(z, r, rr);
    var nn, ee := z.NormSq(), eps * eps;
    Positive(rr, ee - nn, rr * (ee - nn));
    assert q * q == ee * rr by { FourFactors(eps, Abs(r), q, ee, rr); }
  }

  lemma FourFactors(a: real, b: real, q: real, aa: real, bb: real)
    requires q == a * b && aa == a * a && bb == b * b
    ensures q * q == aa * bb
  {}

  lemma ScaledNormSq(z: Complex, r: real, rr: real)
    requires rr == r * r
    ensures z.Scaled(r).NormSq() == rr * z.NormSq()
  {
    var p, q := z.re * z.re, z.im * z.im;
    assert z.re * r * (z.re * r) == rr * p && z.im * r * (z.im * r) == rr * q;
    assert rr * (p + q) == rr * p + rr * q;
  }

  /** Mixing turns samples and errors alike. */
  lemma MixNear(t: Trig, inc: real, x: seq<Complex>, y: seq<Complex>, eps: real, i: int)
    requires t.Lawful() && Near(x, y, eps)
    ensures At(Mix(t, inc, x), i).Minus(At(Mix(t, inc, y), i)).NormSq() <= eps * eps
  {
    hide Complex.NormSq, Complex.Times, Complex.Minus, Trig.Lawful, Mixer;
    if 0 <= i < |x| {
      MixerUnit(t, inc, i);
      MinusTimes(x[i], y[i], Mixer(t, inc, i));
      NormSqTimes(x[i].Minus(y[i]), Mixer(t, inc, i));
    } else {
      NothingMinus();
      SquareSign(eps, eps * eps);
    }
  }

  lemma MinusTimes(a: Complex, b: Complex, c: Complex)
    ensures a.Times(c).Minus(b.Times(c)) == a.Minus(b).Times(c)
  {}

  /** So every output is near that of the exact stream. */
  lemma OutputNear(t: Trig, inc: real, taps: seq<real>, d: nat, x: seq<Complex>, y: seq<Complex>, eps: real, k: nat)
    requires t.Lawful() && d > 0 && Near(x, y, eps) && eps >= 0.0 && k * d < |x|
    ensures var u, v := Received(t, inc, taps, d, [], x), Received(t, inc, taps, d, [], y);
      var q := eps * AbsTotal(taps, |taps|);
      k < |u| && k < |v| && u[k].Minus(v[k]).NormSq() <= q * q
  {
    hide Complex.NormSq, Complex.Minus, Trig.Lawful, BlockOutput, FirSum, Mix, At, AbsTotal;
    assert [] + x == x && [] + y == y;
    BlockOutputAt(taps, d, Mix(t, inc, x), 0, |x|);
    BlockOutputAt(taps, d, Mix(t, inc, y), 0, |x|);
    OutputExists(k, |x|, d);
    forall i ensures At(Mix(t, inc, x), i).Minus(At(Mix(t, inc, y), i)).NormSq() <= eps * eps {
      MixNear(t, inc, x, y, eps, i);
    }
    FirNear(taps, Mix(t, inc, x), Mix(t, inc, y), k * d, |taps|, eps);
  }

  // ---- the error of an angle ----

  /** A number near another is that one times a number near 1. */
  lemma NearOne(y: Complex, b: Complex, size: real, q: real, share: real) returns (w: Complex)
    requires size > 0.0 && size * size == b.NormSq() && y.Minus(b).NormSq() <= q * q && share * size == q
    ensures y == b.Times(w) && w.Minus(ONE).NormSq() <= share * share
  {
    hide Complex.NormSq, Complex.Times, Complex.Minus, Complex.Scaled;
    var s := size * size;
    Positive(size, size, s);
    var e := y.Minus(b);
    var g := e.Times(b.Conj()).Scaled(1.0 / s);
    w := ONE.Plus(g);
    assert 1.0 / s * s == 1.0;
    TimesQuotient(b, e, 1.0 / s);
    TimesDistributes(b, ONE, g);
    OneTimes(b);
    MinusBack(y, b, g);
    NormSqTimes(b, g);
    var n := g.NormSq();
    assert s * n <= q * q;
    FourFactors(share, size, q, share * share, s);
    if n > share * share {
      Positive(n - share * share, s, (n - share * share) * s);
    }
  }

  lemma TimesQuotient(b: Complex, e: Complex, r: real)
    requires r * b.NormSq() == 1.0
    ensures b.Times(e.Times(b.Conj()).Scaled(r)) == e
  {
    hide Complex.Times, Complex.NormSq, Complex.Scaled, Complex.Conj;
    ScaledTimes(b, e.Times(b.Conj()), r);
    TimesCommutes(e, b.Conj());
    TimesAssoc(b, b.Conj(), e);
    TimesConj(b);
    TimesReal(e, b.NormSq());
    TimesCommutes(Complex(b.NormSq(), 0.0), e);
    ScaledTwice(e, b.NormSq(), r);
    ScaledByOne(e);
  }

  lemma MinusBack(y: Complex, b: Complex, g: Complex)
    ensures b.Plus(y.Minus(b)) == y && ONE.Plus(g).Minus(ONE) == g
  {}

  lemma ConjTimes(a: Complex, b: Complex)
    ensures a.Times(b).Conj() == a.Conj().Times(b.Conj())
    ensures a.Conj().Minus(ONE).NormSq() == a.Minus(ONE).NormSq()
  {}

  lemma NotZero(w: Complex, d: real)
    requires 0.0 <= d < 1.0 && w.Minus(ONE).NormSq() <= d * d
    ensures w != ZERO
  {
    hide Complex.NormSq, Complex.Minus;
    ZeroFromOne();
    Positive(1.0 - d, 1.0 + d, (1.0 - d) * (1.0 + d));
    assert (1.0 - d) * (1.0 + d) == 1.0 - d * d;
  }

  lemma ZeroFromOne()
    ensures ZERO.Minus(ONE).NormSq() == 1.0
  {}

  /** Two factors near 1 move an angle by at most `d` half turns. */
  lemma AngleNear(t: Trig, arg: Complex -> real, r: real, turn: real, u: Complex, v: Complex, d: real, p: Complex)
    requires t.Lawful() && ArgLaw(t, arg) && ArgSteady(t, arg) && r > 0.0 && 0.0 <= d < 1.0
    requires -t.pi + t.pi * d < turn < t.pi - t.pi * d
    requires u.Minus(ONE).NormSq() <= d * d && v.Minus(ONE).NormSq() <= d * d
    requires p == t.Cis(turn).Scaled(r).Times(u).Times(v)
    ensures turn - t.pi * d <= arg(p) <= turn + t.pi * d
  {
    hide Complex.Times, Complex.Minus, Complex.NormSq, Trig.Cis, Trig.Lawful, ArgLaw;
    var base := t.Cis(turn).Scaled(r);
    PiIsPositive(t);
    Positive(t.pi, d, t.pi * d);
    assert t.pi / 2.0 * d + t.pi / 2.0 * d == t.pi * d;
    ArgOfTurn(t, arg, r, turn);
    assert SmallAngle(t, arg, u, d) && SmallAngle(t, arg, v, d);
    NotZero(u, d);
    NotZero(v, d);
    BaseNotZero(t, turn, r);
    assert AddsAngles(t, arg, base, u);
    ProductNotZero(base, u);
    assert AddsAngles(t, arg, base.Times(u), v);
  }

  lemma BaseNotZero(t: Trig, turn: real, r: real)
    requires t.Lawful() && r > 0.0
    ensures t.Cis(turn).Scaled(r) != ZERO
  {
    hide Trig.Lawful, Trig.Cis;
    t.CisUnit(turn);
    if t.Cis(turn) == ZERO {
      NormSqSign(t.Cis(turn));
    } else {
      ScaledNotZero(t.Cis(turn), r);
    }
  }

  lemma ProductNotZero(a: Complex, b: Complex)
    requires a != ZERO && b != ZERO
    ensures a.Times(b) != ZERO
  {
    hide Complex.Times;
    if a.Times(b) == ZERO {
      TimesZero(a, b);
    }
  }

  // ---- the audio ----

  /** A stream near a carrier in the channel; `level` is what the filter leaves of the carrier. */
  ghost predicate NearCarrier(t: Trig, c: Config, taps: seq<real>, f: real, a: Complex, y: seq<Complex>,
                              x: seq<Complex>, eps: real, level: real) {
    && CarrierInChannel(t, c, taps, f, a) && IsCarrier(t, c, f, a, y) && Near(x, y, eps) && eps >= 0.0
    && level > 0.0
    && level * level == a.Times(Response(t, taps, CarrierStep(t.pi, c, f) + Increment(t.pi, c), |taps|)).NormSq()
  }

  /** Output `k`, and how far it is from that of the exact carrier. */
  lemma NearOutput(t: Trig, c: Config, taps: seq<real>, f: real, a: Complex, y: seq<Complex>, x: seq<Complex>,
                   eps: real, level: real, share: real, k: nat) returns (w: Complex)
    requires t.Lawful() && NearCarrier(t, c, taps, f, a, y, x, eps, level)
    requires share * level == eps * AbsTotal(taps, |taps|)
    requires |taps| - 1 <= k * Decimation(c) < |x|
    ensures var theta := CarrierStep(t.pi, c, f) + Increment(t.pi, c);
      var out := Received(t, Increment(t.pi, c), taps, Decimation(c), [], x);
      && k < |out| && w.Minus(ONE).NormSq() <= share * share
      && out[k] == a.Times(Mixer(t, theta, k * Decimation(c))).Times(Response(t, taps, theta, |taps|)).Times(w)
  {
    hide Complex.Times, Complex.NormSq, Complex.Minus, Trig.Lawful, Increment, CarrierStep, BlockOutput, Response,
      Mixer, Received, Near, AbsTotal, Decimation;
    var d := Decimation(c);
    var theta, inc := CarrierStep(t.pi, c, f) + Increment(t.pi, c), Increment(t.pi, c);
    var h := Response(t, taps, theta, |taps|);
    NearLength(x, y, eps);
    CarrierOutput(t, c, taps, d, f, a, y, k);
    OutputNear(t, inc, taps, d, x, y, eps, k);
    var b := a.Times(Mixer(t, theta, k * d)).Times(h);
    SwapLast(a, Mixer(t, theta, k * d), h);
    NormSqTimes(a.Times(h), Mixer(t, theta, k * d));
    MixerUnit(t, theta, k * d);
    w := NearOne(Received(t, inc, taps, d, [], x)[k], b, level, eps * AbsTotal(taps, |taps|), share);
  }

  lemma FourTimes(b: Complex, u: Complex, c: Complex, v: Complex)
    ensures b.Times(u).Times(c.Times(v).Conj()) == b.Times(c.Conj()).Times(u).Times(v.Conj())
  {
    hide Complex.Times, Complex.Conj;
    ConjTimes(c, v);
    TimesAssoc(b.Times(u), c.Conj(), v.Conj());
    SwapLast(b, u, c.Conj());
  }

  lemma TurnWithin(turn: real, o: real, pi: real, offset: real, share: real, errorHz: real)
    requires o > 0.0 && pi > 0.0 && turn * o == 2.0 * pi * offset && 2.0 * errorHz == share * o
    requires -o < 2.0 * (offset - errorHz) && 2.0 * (offset + errorHz) < o
    ensures -pi + pi * share < turn < pi - pi * share
  {
    var lim := pi - pi * share;
    var low, high := 2.0 * offset + o - 2.0 * errorHz, o - 2.0 * errorHz - 2.0 * offset;
    Positive(pi, high, pi * high);
    Positive(pi, low, pi * low);
    assert pi * share * o == 2.0 * pi * errorHz;
    assert (lim - turn) * o == pi * high;
    assert (lim + turn) * o == pi * low;
    Positive(turn - lim, o, (turn - lim) * o);
    Positive(-lim - turn, o, (-lim - turn) * o);
  }

  lemma ErrorScale(e: real, gain: real, o: real, pi: real, dev: real, share: real, errorHz: real)
    requires pi > 0.0 && o > 0.0 && gain * (2.0 * pi * dev) == o && 2.0 * errorHz == share * o
    requires -(pi * share) <= e <= pi * share
    ensures -errorHz <= e * gain * dev <= errorHz
  {
    var v, z := e * gain * dev, 2.0 * pi;
    assert z * v == e * (gain * (2.0 * pi * dev));
    Positive(o, pi * share - e, o * (pi * share - e));
    Positive(o, pi * share + e, o * (pi * share + e));
    assert z * errorHz == pi * share * o;
    assert z * (errorHz - v) >= 0.0 && z * (errorHz + v) >= 0.0;
    Positive(z, v - errorHz, z * (v - errorHz));
    Positive(z, -errorHz - v, z * (-errorHz - v));
  }

  /** A level of audio stands for an offset, give or take. */
  predicate WithinHz(heard: real, deviationHz: real, offsetHz: real, errorHz: real) {
    -errorHz <= heard * deviationHz - offsetHz <= errorHz
  }

  lemma AudioError(heard: real, p: real, turn: real, gain: real, o: real, pi: real, dev: real, offset: real,
                   share: real, errorHz: real)
    requires pi > 0.0 && o > 0.0 && gain * (2.0 * pi * dev) == o && turn * o == 2.0 * pi * offset
    requires turn - pi * share <= p <= turn + pi * share && heard == p * gain && 2.0 * errorHz == share * o
    ensures WithinHz(heard, dev, offset, errorHz)
  {
    AudioScale(turn, gain, o, pi, dev, offset);
    ErrorScale(p - turn, gain, o, pi, dev, share, errorHz);
    assert heard * dev == turn * gain * dev + (p - turn) * gain * dev;
  }

  /** The share of the filtered error in the filtered carrier, as an offset of half the audio rate. */
  ghost predicate ErrorIs(taps: seq<real>, eps: real, level: real, o: real, share: real, errorHz: real) {
    share * level == eps * AbsTotal(taps, |taps|) && 2.0 * errorHz == share * o
  }

  /**
   * With samples within `eps` of a carrier f Hz high, the audio stays within
   * `errorHz` of the carrier's offset, as long as that leaves it short of half
   * the audio rate.
   */
  lemma NearCarrierAudio(mode: Mode, t: Trig, arg: Complex -> real, deviationHz: real, c: Config, taps: seq<real>,
                         f: real, a: Complex, y: seq<Complex>, x: seq<Complex>, eps: real, level: real, share: real,
                         errorHz: real, k: nat)
    requires mode in {FM, NFM}
    requires t.Lawful() && ArgLaw(t, arg) && ArgSteady(t, arg) && NearCarrier(t, c, taps, f, a, y, x, eps, level)
    requires deviationHz != 0.0 && ErrorIs(taps, eps, level, c.outputSampleRateHz as real, share, errorHz)
    requires 1 <= k && |taps| - 1 <= (k - 1) * Decimation(c) && k * Decimation(c) < |x|
    requires var offset := f - c.channelCentreHz as real;
      -(c.outputSampleRateHz as real) < 2.0 * (offset - errorHz)
      && 2.0 * (offset + errorHz) < c.outputSampleRateHz as real
    ensures t.pi > 0.0
    ensures var audio := Audio(mode, arg, Gain(t.pi, deviationHz, c.outputSampleRateHz as real),
                               Received(t, Increment(t.pi, c), taps, Decimation(c), [], x));
      k < |audio| && WithinHz(audio[k], deviationHz, f - c.channelCentreHz as real, errorHz)
  {
    hide Complex.Times, Complex.Conj, Complex.NormSq, Complex.Minus, Trig.Cis, Trig.Lawful, Increment, CarrierStep,
      Response, ArgLaw, ArgSteady, Received, Gain, Decimation, AbsTotal, Near, WithinHz, NearCarrier, ErrorIs, Audio;
    PiIsPositive(t);
    var o, offset := c.outputSampleRateHz as real, f - c.channelCentreHz as real;
    var turn := NearCarrierAngle(t, arg, c, taps, f, a, y, x, eps, level, share, errorHz, k);
    var out := Received(t, Increment(t.pi, c), taps, Decimation(c), [], x);
    var gain := Gain(t.pi, deviationHz, o);
    AudioAt(mode, arg, gain, out, k);
    ErrorParts(taps, eps, level, o, share, errorHz);
    AudioError(Audio(mode, arg, gain, out)[k], arg(out[k].Times(out[k - 1].Conj())), turn, gain, o, t.pi, deviationHz,
               offset, share, errorHz);
  }

  lemma ErrorParts(taps: seq<real>, eps: real, level: real, o: real, share: real, errorHz: real)
    requires ErrorIs(taps, eps, level, o, share, errorHz)
    ensures share * level == eps * AbsTotal(taps, |taps|) && 2.0 * errorHz == share * o
  {}

  lemma OneOutputOn(k: nat, d: nat)
    requires k >= 1
    ensures k * d == (k - 1) * d + d
  {}

  lemma CarrierTurn(t: Trig, c: Config, d: nat, f: real, theta: real, share: real, errorHz: real) returns (turn: real)
    requires t.pi > 0.0 && c.windowSampleRateHz > 0 && c.outputSampleRateHz > 0 && share >= 0.0
    requires d * c.outputSampleRateHz == c.windowSampleRateHz && 2.0 * errorHz == share * c.outputSampleRateHz as real
    requires theta == CarrierStep(t.pi, c, f) + Increment(t.pi, c)
    requires var o, offset := c.outputSampleRateHz as real, f - c.channelCentreHz as real;
      -o < 2.0 * offset < o && -o < 2.0 * (offset - errorHz) && 2.0 * (offset + errorHz) < o
    ensures turn == d as real * theta
    ensures turn * c.outputSampleRateHz as real == 2.0 * t.pi * (f - c.channelCentreHz as real)
    ensures -t.pi + t.pi * share < turn < t.pi - t.pi * share
  {
    hide CarrierStep, Increment;
    TurnPerOutput(t, c, d, f);
    turn := d as real * theta;
    TurnWithin(turn, c.outputSampleRateHz as real, t.pi, f - c.channelCentreHz as real, share, errorHz);
  }

  /** The angle the discriminator reads, around the carrier's turn per output. */
  lemma NearCarrierAngle(t: Trig, arg: Complex -> real, c: Config, taps: seq<real>, f: real, a: Complex,
                         y: seq<Complex>, x: seq<Complex>, eps: real, level: real, share: real, errorHz: real, k: nat)
    returns (turn: real)
    requires t.Lawful() && ArgLaw(t, arg) && ArgSteady(t, arg) && NearCarrier(t, c, taps, f, a, y, x, eps, level)
    requires ErrorIs(taps, eps, level, c.outputSampleRateHz as real, share, errorHz)
    requires 1 <= k && |taps| - 1 <= (k - 1) * Decimation(c) && k * Decimation(c) < |x|
    requires var offset := f - c.channelCentreHz as real;
      -(c.outputSampleRateHz as real) < 2.0 * (offset - errorHz)
      && 2.0 * (offset + errorHz) < c.outputSampleRateHz as real
    ensures c.windowSampleRateHz > 0 && c.outputSampleRateHz > 0 && Decimation(c) > 0
    ensures turn * c.outputSampleRateHz as real == 2.0 * t.pi * (f - c.channelCentreHz as real)
    ensures var out := Received(t, Increment(t.pi, c), taps, Decimation(c), [], x);
      && k < |out|
      && turn - t.pi * share <= arg(out[k].Times(out[k - 1].Conj())) <= turn + t.pi * share
  {
    hide Complex.Times, Complex.Conj, Complex.NormSq, Complex.Minus, Trig.Cis, Trig.Lawful, Increment, CarrierStep,
      Response, Mixer, ArgLaw, ArgSteady, Received, Decimation, AbsTotal, Near;
    PiIsPositive(t);
    var d, o, offset := Decimation(c), c.outputSampleRateHz as real, f - c.channelCentreHz as real;
    var theta := CarrierStep(t.pi, c, f) + Increment(t.pi, c);
    var out := Received(t, Increment(t.pi, c), taps, d, [], x);
    OneOutputOn(k, d);
    var u := NearOutput(t, c, taps, f, a, y, x, eps, level, share, k);
    var v := NearOutput(t, c, taps, f, a, y, x, eps, level, share, k - 1);
    ShareSign(share, level, eps, AbsTotal(taps, |taps|), o, offset, errorHz);
    turn := CarrierTurn(t, c, d, f, theta, share, errorHz);
    StepAngleNear(t, arg, theta, a, Response(t, taps, theta, |taps|), level, (k - 1) * d, d, turn, u, v, share,
                  out[k - 1], out[k]);
  }

  /** The angle between two outputs near the carrier's. */
  lemma StepAngleNear(t: Trig, arg: Complex -> real, theta: real, a: Complex, h: Complex, level: real, j: nat, d: nat,
                      turn: real, u: Complex, v: Complex, share: real, before: Complex, now: Complex)
    requires t.Lawful() && ArgLaw(t, arg) && ArgSteady(t, arg) && 0.0 <= share < 1.0
    requires turn == d as real * theta && -t.pi + t.pi * share < turn < t.pi - t.pi * share
    requires level > 0.0 && level * level == a.Times(h).NormSq()
    requires u.Minus(ONE).NormSq() <= share * share && v.Minus(ONE).NormSq() <= share * share
    requires before == a.Times(Mixer(t, theta, j)).Times(h).Times(v)
    requires now == a.Times(Mixer(t, theta, j + d)).Times(h).Times(u)
    ensures turn - t.pi * share <= arg(now.Times(before.Conj())) <= turn + t.pi * share
  {
    hide Complex.Times, Complex.Conj, Complex.Scaled, Complex.NormSq, Complex.Minus, Trig.Cis, Trig.Lawful, Mixer,
      ArgLaw, ArgSteady;
    SteadyStep(t, theta, a, h, j, d, turn);
    FourTimes(a.Times(Mixer(t, theta, j + d)).Times(h), u, a.Times(Mixer(t, theta, j)).Times(h), v);
    Positive(level, level, level * level);
    ConjTimes(v, ONE);
    AngleNear(t, arg, level * level, turn, u, v.Conj(), share, now.Times(before.Conj()));
  }

  lemma ShareSign(share: real, level: real, eps: real, total: real, o: real, offset: real, errorHz: real)
    requires level > 0.0 && eps >= 0.0 && total >= 0.0 && share * level == eps * total && o > 0.0
    requires 2.0 * errorHz == share * o && -o < 2.0 * (offset - errorHz) && 2.0 * (offset + errorHz) < o
    ensures 0.0 <= share < 1.0
  {
    NotNegative(eps, total);
    if share < 0.0 {
      Positive(-share, level, -share * level);
    }
    if share >= 1.0 {
      Positive(share - 1.0, o, (share - 1.0) * o);
    }
  }

  /** A stream of 16-bit samples is within a step and a half of the one it was truncated from. */
  lemma TruncatedStream(iq: seq<int16>, y: seq<Complex>)
    requires |iq| / 2 == |y|
    requires forall i :: 0 <= i < |y| ==> TruncatedSample(iq[2 * i], iq[2 * i + 1], y[i])
    ensures Near(Scaled(iq), y, STEP_AND_HALF)
  {
    hide Complex.NormSq, Complex.Minus, TruncatedSample, SampleAt;
    forall i | 0 <= i < |y| ensures Scaled(iq)[i].Minus(y[i]).NormSq() <= STEP_AND_HALF * STEP_AND_HALF {
      ScaledAt(iq, i);
      TruncatedNear(iq, i, y[i]);
    }
  }
}
