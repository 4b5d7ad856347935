/** The shape of the designed taps, in terms of the cutoff and the Kaiser parameter. */
module TapShapes {
  import opened ComplexNumbers
  import opened Trigonometry
  import opened RealSums
  import opened Fourier
  import opened SpectralLaws
  import opened WindowedTones
  import opened FirDesign
  import opened Channelising

  // ---- one tap ----

  lemma OffsetAt(h: nat, j: nat, x: real)
    requires 1 <= j <= h && x * h as real == j as real
    ensures Offset(2 * h, h + j) == j as real && Fraction(2 * h, h + j) == x
  {
    var m := (2 * h) as real;
    assert m == 2.0 * h as real && (h + j) as real == h as real + j as real;
    ExactRatio(x + 1.0, m, 2.0 * (h + j) as real);
  }

  lemma SineOfPower(g: Design, j: nat, w: real)
    requires g.trig.Lawful() && g.rateHz > 0.0 && w * g.rateHz == 2.0 * g.trig.pi * g.cutoffHz
    ensures g.trig.sin(SincAngle(g, j as real)) == Pow(g.trig.Cis(w), j).im
  {
    hide Pow, Trig.Lawful;
    ExactRatio(w, g.rateHz, 2.0 * g.trig.pi * g.cutoffHz);
    g.trig.CisMultiple(w, j, j as real * w);
    g.trig.CisSame(SincAngle(g, j as real), j as real * w);
  }

  /**
   * Tap h + j of 2h + 1, and tap h - j, is sin(2 pi j cutoff / rate) / (pi j)
   * times I0(beta sqrt(1 - (j/h)^2)) / I0(beta).
   */
  lemma TapFormula(g: Design, h: nat, j: nat, w: real, x: real, arg: real)
    requires g.trig.Lawful() && g.rateHz > 0.0 && 1 <= j <= h
    requires w * g.rateHz == 2.0 * g.trig.pi * g.cutoffHz && x * h as real == j as real
    requires arg == g.beta * g.sqrt(1.0 - x * x)
    ensures RawTap(g, 2 * h, h + j) * (g.trig.pi * j as real * BesselI0(g.beta))
         == Pow(g.trig.Cis(w), j).im * BesselI0(arg)
    ensures RawTap(g, 2 * h, h - j) == RawTap(g, 2 * h, h + j)
  {
    hide BesselI0, Quotient, Trig.Cis, Trig.Lawful, SincAngle, Pow, Offset, Fraction, PiTimes, Kaiser;
    LawfulPi(g.trig);
    OffsetAt(h, j, x);
    SineOfPower(g, j, w);
    BesselPositive(g.beta);
    RawTapSymmetric(g, 2 * h, h + j);
    KaiserIs(g, x, arg);
    PiTimesIs(g, j as real);
    var sine, pj := g.trig.sin(SincAngle(g, j as real)), PiTimes(g, j as real);
    QuotientTimes(sine, pj);
    QuotientTimes(BesselI0(arg), BesselI0(g.beta));
    Regrouped(RawTap(g, 2 * h, h + j), Quotient(sine, pj), Kaiser(g, x), pj, g.trig.pi * j as real, BesselI0(g.beta),
              sine, BesselI0(arg));
  }

  lemma KaiserIs(g: Design, x: real, arg: real)
    requires arg == g.beta * g.sqrt(1.0 - x * x)
    ensures BesselI0(g.beta) >= 1.0 && Kaiser(g, x) == Quotient(BesselI0(arg), BesselI0(g.beta))
  {
    hide BesselI0, Quotient;
    BesselPositive(g.beta);
    assert KaiserArgument(g, Circle(x)) == arg;
  }

  lemma PiTimesIs(g: Design, t: real)
    requires g.trig.pi > 0.0 && t > 0.0
    ensures PiTimes(g, t) == g.trig.pi * t && PiTimes(g, t) != 0.0
  {}

  lemma Regrouped(tap: real, a: real, b: real, p: real, pj: real, q: real, u: real, v: real)
    requires tap == a * b && p == pj && a * p == u && b * q == v
    ensures tap * (pj * q) == u * v
  {
    assert a * b * (p * q) == a * p * (b * q);
  }

  lemma ZeroTap(tap: real, pi: real, j: nat, under: real)
    requires pi > 0.0 && j >= 1 && under >= 1.0 && tap * (pi * j as real * under) == 0.0
    ensures tap == 0.0
  {
    Positive(pi, j as real, pi * j as real);
    Positive(pi * j as real, under, pi * j as real * under);
    ZeroProduct(tap, pi * j as real * under);
  }

  // ---- special bands ----

  /** A band as wide as the rate: every tap but the centre is zero. */
  lemma WholeBand(g: Design, h: nat, j: nat)
    requires g.trig.Lawful() && g.rateHz > 0.0 && 1 <= j <= h && 2.0 * g.cutoffHz == g.rateHz
    ensures RawTap(g, 2 * h, h + j) == 0.0 && RawTap(g, 2 * h, h - j) == 0.0
  {
    hide BesselI0, RawTap, Trig.Cis, Pow;
    var x := Ratio(j, h);
    LawfulPi(g.trig);
    assert g.trig.pi * g.rateHz == 2.0 * g.trig.pi * g.cutoffHz;
    TapFormula(g, h, j, g.trig.pi, x, g.beta * g.sqrt(1.0 - x * x));
    HalfTurn(g.trig);
    PowMinusOne(MINUS_ONE, j);
    BesselPositive(g.beta);
    ZeroTap(RawTap(g, 2 * h, h + j), g.trig.pi, j, BesselI0(g.beta));
  }

  lemma HalfTurn(t: Trig)
    requires t.Lawful()
    ensures t.Cis(t.pi) == MINUS_ONE
  {}

  lemma Ratio(j: nat, h: nat) returns (x: real)
    requires h >= 1
    ensures x * h as real == j as real
  {
    x := j as real / h as real;
  }

  /** So the designed filter is the identity. */
  lemma WholeBandPasses(g: Design, h: nat, n: nat)
    requires g.trig.Lawful() && g.rateHz > 0.0 && g.sqrt(1.0) == 1.0 && h >= 1 && n <= 2 * h
    requires 2.0 * g.cutoffHz == g.rateHz
    ensures Normalised(RawTaps(g, 2 * h))[n] == if n == h then 1.0 else 0.0
  {
    hide RawTap, Total, Quotient;
    LawfulPi(g.trig);
    var s := RawTaps(g, 2 * h);
    forall i | 0 <= i <= 2 * h ensures s[i] == if i == h then 1.0 else 0.0 {
      if i > h {
        WholeBand(g, h, i - h);
      } else if i < h {
        WholeBand(g, h, h - i);
      } else {
        CentreTap(g, h);
      }
    }
    TotalOfOne(s, h);
    QuotientSum(s[n], 0.0, 1.0);
    QuotientSum(0.0, 0.0, 1.0);
  }

  lemma {:induction false} TotalOfOne(s: seq<real>, h: nat)
    requires h < |s| && forall i :: 0 <= i < |s| ==> s[i] == if i == h then 1.0 else 0.0
    ensures Total(s) == 1.0
  {
    if h == 0 {
      TotalOfNone(s[1..]);
    } else {
      TotalOfOne(s[1..], h - 1);
    }
  }

  lemma {:induction false} TotalOfNone(s: seq<real>)
    requires forall i :: 0 <= i < |s| ==> s[i] == 0.0
    ensures Total(s) == 0.0
  {
    if s != [] {
      TotalOfNone(s[1..]);
    }
  }

  /** A band half as wide: every second tap from the centre is zero. */
  lemma HalfBand(g: Design, h: nat, j: nat)
    requires g.trig.Lawful() && g.trig.QuarterIsI() && g.rateHz > 0.0 && 1 <= j <= h && j % 2 == 0
    requires 4.0 * g.cutoffHz == g.rateHz
    ensures RawTap(g, 2 * h, h + j) == 0.0 && RawTap(g, 2 * h, h - j) == 0.0
  {
    hide BesselI0, RawTap, Trig.Cis, Pow;
    var x := Ratio(j, h);
    LawfulPi(g.trig);
    QuarterStep(g);
    TapFormula(g, h, j, g.trig.pi / 2.0, x, g.beta * g.sqrt(1.0 - x * x));
    QuarterPowers(g.trig.Cis(g.trig.pi / 2.0), j);
    BesselPositive(g.beta);
    ZeroTap(RawTap(g, 2 * h, h + j), g.trig.pi, j, BesselI0(g.beta));
  }

  /** And those beside the centre are the Kaiser weight over pi. */
  lemma HalfBandBeside(g: Design, h: nat, x: real, arg: real)
    requires g.trig.Lawful() && g.trig.QuarterIsI() && g.rateHz > 0.0 && h >= 1 && 4.0 * g.cutoffHz == g.rateHz
    requires x * h as real == 1.0 && arg == g.beta * g.sqrt(1.0 - x * x)
    ensures RawTap(g, 2 * h, h + 1) * (g.trig.pi * BesselI0(g.beta)) == BesselI0(arg)
    ensures RawTap(g, 2 * h, h - 1) == RawTap(g, 2 * h, h + 1)
  {
    hide BesselI0, RawTap, Trig.Cis, Pow;
    LawfulPi(g.trig);
    QuarterStep(g);
    TapFormula(g, h, 1, g.trig.pi / 2.0, x, arg);
    PowOneStep(g.trig.Cis(g.trig.pi / 2.0));
    UnitFactors(g.trig.pi, BesselI0(g.beta), BesselI0(arg));
  }

  lemma QuarterStep(g: Design)
    requires 4.0 * g.cutoffHz == g.rateHz
    ensures g.trig.pi / 2.0 * g.rateHz == 2.0 * g.trig.pi * g.cutoffHz
  {}

  lemma UnitFactors(a: real, b: real, c: real)
    ensures a * 1 as real * b == a * b && 1.0 * c == c
  {}

  /** Even powers of i are real. */
  lemma QuarterPowers(i: Complex, j: nat)
    requires i == Complex(0.0, 1.0) && j % 2 == 0
    ensures Pow(i, j).im == 0.0
  {
    hide Pow;
    PowMul(i, 2, j / 2);
    PowTwo(i);
    assert i.Times(i) == MINUS_ONE;
    PowMinusOne(MINUS_ONE, j / 2);
  }

  // ---- the ends ----

  /** At both ends the Kaiser weight is 1 / I0(beta). */
  lemma EndTaps(g: Design, h: nat, w: real)
    requires g.trig.Lawful() && g.rateHz > 0.0 && h >= 1 && g.sqrt(0.0) == 0.0
    requires w * g.rateHz == 2.0 * g.trig.pi * g.cutoffHz
    ensures RawTap(g, 2 * h, 2 * h) * (g.trig.pi * h as real * BesselI0(g.beta)) == Pow(g.trig.Cis(w), h).im
    ensures RawTap(g, 2 * h, 0) == RawTap(g, 2 * h, 2 * h)
  {
    hide BesselI0, RawTap, Trig.Cis, Pow;
    assert g.beta * g.sqrt(1.0 - 1.0 * 1.0) == 0.0;
    TapFormula(g, h, h, w, 1.0, 0.0);
    BesselAtZero();
  }

  /** The taps of a worker: 127 of them, beta 8, and half the channel's bandwidth as cutoff. */
  lemma ConfiguredEnds(t: Trig, sqrt: real -> real, c: Config, w: real)
    requires t.Lawful() && sqrt(0.0) == 0.0 && c.windowSampleRateHz > 0
    requires w * c.windowSampleRateHz as real == t.pi * c.channelBandwidthHz as real
    ensures t.pi > 0.0 && |ConfiguredTaps(t, sqrt, c)| == 127
    ensures RawTap(TapDesign(t, sqrt, c), 126, 126) * (t.pi * 63.0 * BesselI0(8.0)) == Pow(t.Cis(w), 63).im
    ensures ConfiguredTaps(t, sqrt, c) == Normalised(RawTaps(TapDesign(t, sqrt, c), 126))
  {
    hide BesselI0, RawTap, Trig.Cis, Pow, Normalised, RawTaps;
    LawfulPi(t);
    EndTaps(TapDesign(t, sqrt, c), 63, w);
  }
}
