/** How far the designed taps are from the low-pass they are meant to be. */
module LowPass {
  import opened ComplexNumbers
  import opened Trigonometry
  import opened RealSums
  import opened FirDesign
  import opened Channelising

  // ---- the ideal taps ----

  /** The limit of sin(w t) / (pi t) at the centre, where the source has 1. */
  function IdealCentre(g: Design): real
    requires g.rateHz > 0.0
  {
    Quotient(2.0 * g.cutoffHz, g.rateHz)
  }

  /** The windowed sinc with its limit at the centre. */
  function IdealTap(g: Design, m: nat, n: nat): real
    requires g.rateHz > 0.0 && g.trig.pi > 0.0 && m > 0
  {
    if Offset(m, n) == 0.0 then IdealCentre(g) * Kaiser(g, Fraction(m, n)) else RawTap(g, m, n)
  }

  function IdealTaps(g: Design, m: nat): (s: seq<real>)
    requires g.rateHz > 0.0 && g.trig.pi > 0.0 && m > 0
    ensures |s| == m + 1
    ensures forall n :: 0 <= n <= m ==> s[n] == IdealTap(g, m, n)
  {
    seq(m + 1, n requires 0 <= n <= m => IdealTap(g, m, n))
  }

  /** The two differ at the centre only, where they are the limit and 1. */
  lemma CentreApart(g: Design, h: nat, n: nat)
    requires g.rateHz > 0.0 && g.trig.pi > 0.0 && h > 0 && g.sqrt(1.0) == 1.0 && n <= 2 * h
    ensures n != h ==> IdealTap(g, 2 * h, n) == RawTap(g, 2 * h, n)
    ensures n == h ==> IdealTap(g, 2 * h, n) == IdealCentre(g) && RawTap(g, 2 * h, n) == 1.0
  {
    hide Kaiser, IdealCentre, Fraction;
    CentreTap(g, h);
    HalfFraction(h);
    assert Offset(2 * h, n) == 0.0 <==> n == h;
  }

  /** The taps are those of the ideal low-pass exactly when its whole band is the whole rate. */
  lemma IdealExactly(g: Design, h: nat)
    requires g.rateHz > 0.0 && g.trig.pi > 0.0 && h > 0 && g.sqrt(1.0) == 1.0
    ensures RawTaps(g, 2 * h) == IdealTaps(g, 2 * h) <==> 2.0 * g.cutoffHz == g.rateHz
  {
    hide RawTap, IdealTap, IdealCentre;
    forall n | 0 <= n <= 2 * h
      ensures n != h ==> IdealTap(g, 2 * h, n) == RawTap(g, 2 * h, n)
    {
      CentreApart(g, h, n);
    }
    CentreApart(g, h, h);
    CentreIsOne(g);
    assert RawTaps(g, 2 * h)[h] == 1.0 && IdealTaps(g, 2 * h)[h] == IdealCentre(g);
  }

  lemma CentreIsOne(g: Design)
    requires g.rateHz > 0.0
    ensures IdealCentre(g) == 1.0 <==> 2.0 * g.cutoffHz == g.rateHz
  {
    var q := 2.0 * g.cutoffHz / g.rateHz;
    assert q * g.rateHz == 2.0 * g.cutoffHz;
    SelfQuotient(g.rateHz);
  }

  // ---- what it does to the response ----

  /** Taps that differ in one place have responses that differ by that tap's rotation. */
  lemma {:induction false} ResponsesApart(t: Trig, a: seq<real>, b: seq<real>, theta: real, p: nat, k: nat)
    requires p < |a| == |b| && k <= |a| && forall i :: 0 <= i < |a| && i != p ==> a[i] == b[i]
    ensures Response(t, a, theta, k) ==
      if p < k then Response(t, b, theta, k).Plus(t.Cis(-(p as real * theta)).Scaled(a[p] - b[p]))
      else Response(t, b, theta, k)
  {
    hide Trig.Cis, Complex.Plus, Complex.Scaled;
    if k > 0 {
      ResponsesApart(t, a, b, theta, p, k - 1);
      var r := t.Cis(-((k - 1) as real * theta));
      if k - 1 == p {
        t.CisSame(-((k - 1) as real * theta), -(p as real * theta));
        assert Response(t, a, theta, k) == Response(t, a, theta, p).Plus(r.Scaled(a[p]));
        assert Response(t, b, theta, k) == Response(t, b, theta, p).Plus(r.Scaled(b[p]));
        ScaledSplit(Response(t, b, theta, k - 1), r, a[p], b[p]);
      } else if k - 1 > p {
        PlusSwap(Response(t, b, theta, k - 1), t.Cis(-(p as real * theta)).Scaled(a[p] - b[p]), r.Scaled(b[k - 1]));
      }
    }
  }

  lemma PlusSwap(a: Complex, b: Complex, c: Complex)
    ensures a.Plus(b).Plus(c) == a.Plus(c).Plus(b)
  {}

  lemma ScaledSplit(s: Complex, r: Complex, x: real, y: real)
    ensures s.Plus(r.Scaled(x)) == s.Plus(r.Scaled(y)).Plus(r.Scaled(x - y))
  {}

  /** At every frequency the taps pass the ideal response and, on top of it, this share of the input. */
  lemma EveryFrequencyPasses(g: Design, h: nat, theta: real)
    requires g.rateHz > 0.0 && g.trig.pi > 0.0 && h > 0 && g.sqrt(1.0) == 1.0
    ensures Response(g.trig, RawTaps(g, 2 * h), theta, 2 * h + 1)
         == Response(g.trig, IdealTaps(g, 2 * h), theta, 2 * h + 1)
              .Plus(g.trig.Cis(-(h as real * theta)).Scaled(1.0 - IdealCentre(g)))
  {
    hide RawTap, IdealTap, IdealCentre, Trig.Cis, Response;
    var a, b := RawTaps(g, 2 * h), IdealTaps(g, 2 * h);
    forall n | 0 <= n <= 2 * h ensures n != h ==> a[n] == b[n] {
      CentreApart(g, h, n);
    }
    CentreApart(g, h, h);
    ResponsesApart(g.trig, a, b, theta, h, 2 * h + 1);
  }

  // ---- after normalisation ----

  lemma {:induction false} ResponseScales(t: Trig, r: seq<real>, s: seq<real>, gain: real, theta: real, k: nat)
    requires |r| == |s| && k <= |r| && forall i :: 0 <= i < |r| ==> r[i] * gain == s[i]
    ensures Response(t, r, theta, k).Scaled(gain) == Response(t, s, theta, k)
  {
    hide Trig.Cis;
    if k > 0 {
      ResponseScales(t, r, s, gain, theta, k - 1);
      ScaledSum(Response(t, r, theta, k - 1), t.Cis(-((k - 1) as real * theta)), r[k - 1], gain, s[k - 1]);
    }
  }

  lemma ScaledSum(a: Complex, c: Complex, x: real, gain: real, y: real)
    requires x * gain == y
    ensures a.Plus(c.Scaled(x)).Scaled(gain) == a.Scaled(gain).Plus(c.Scaled(y))
  {}

  /** The designed filter, where its taps have been normalised, passes 1 / gain of both. */
  lemma DesignedResponse(g: Design, h: nat, theta: real)
    requires g.rateHz > 0.0 && g.trig.pi > 0.0 && h > 0 && g.sqrt(1.0) == 1.0
    requires Total(RawTaps(g, 2 * h)) > 0.0
    ensures Response(g.trig, Normalised(RawTaps(g, 2 * h)), theta, 2 * h + 1).Scaled(Total(RawTaps(g, 2 * h)))
         == Response(g.trig, IdealTaps(g, 2 * h), theta, 2 * h + 1)
              .Plus(g.trig.Cis(-(h as real * theta)).Scaled(1.0 - IdealCentre(g)))
  {
    hide RawTap, IdealTap, IdealCentre, Trig.Cis, Response, Total;
    var raw := RawTaps(g, 2 * h);
    EveryFrequencyPasses(g, h, theta);
    forall i | 0 <= i < |raw| ensures Normalised(raw)[i] * Total(raw) == raw[i] {
      QuotientTimes(raw[i], Total(raw));
    }
    ResponseScales(g.trig, Normalised(raw), raw, Total(raw), theta, 2 * h + 1);
  }

  /** A channel of 12,500 Hz in a window of 2,048,000 Hz: more than 99 hundredths of every frequency. */
  lemma DefaultShare(t: Trig, sqrt: real -> real, c: Config)
    requires c.windowSampleRateHz == 2048000 && c.channelBandwidthHz == 12500
    ensures 1.0 - IdealCentre(TapDesign(t, sqrt, c)) == 4071.0 / 4096.0 > 0.99
  {}
}
