/** Mixing, filtering and decimating one channel out of the wideband stream. */
module Channelising {
  import opened ComplexNumbers
  import opened Trigonometry
  import opened Samples
  import opened RealSums
  import opened FirDesign
  import opened Division
  import opened Results

  // ---- the wrapped phase ----

  /** One wrap of the accumulator, at most a single turn either way. */
  function Wrap(pi: real, p: real): real {
    var q := if p > pi then p - 2.0 * pi else p;
    if q < -pi then q + 2.0 * pi else q
  }

  /** The accumulator after `k` samples. */
  function Phase(pi: real, inc: real, k: nat): real {
    if k == 0 then 0.0 else Wrap(pi, Phase(pi, inc, k - 1) + inc)
  }

  /** Wrapping never changes the mixer: after `k` samples it stands at k increments. */
  lemma {:induction false} PhaseCongruent(t: Trig, inc: real, k: nat, a: real)
    requires t.Lawful() && a == k as real * inc
    ensures t.Cis(Phase(t.pi, inc, k)) == t.Cis(a)
  {
    hide Complex.Times, Trig.Cis, Trig.Lawful;
    if k > 0 {
      var p := Phase(t.pi, inc, k - 1);
      PhaseCongruent(t, inc, k - 1, a - inc);
      t.CisPlus(p, inc);
      t.CisPlus(a - inc, inc);
      t.CisSame(a - inc + inc, a);
      WrapCongruent(t, p + inc);
    }
  }

  lemma WrapCongruent(t: Trig, p: real)
    requires t.Lawful()
    ensures t.Cis(Wrap(t.pi, p)) == t.Cis(p)
  {
    hide Complex.Times, Trig.Cis, Trig.Lawful;
    t.CisTurn(p);
    t.CisTurn(p - 2.0 * t.pi);
    if p > t.pi && p - 2.0 * t.pi < -t.pi {
      t.CisSame(p - 2.0 * t.pi + 2.0 * t.pi, p);
    }
  }

  /** An accumulator in range is left alone, and no other. */
  lemma WrapExactly(pi: real, p: real)
    requires pi > 0.0
    ensures Wrap(pi, p) == p <==> -pi <= p <= pi
  {}

  /** A single wrap keeps the accumulator in range exactly when the increment is at most one turn. */
  lemma PhaseBounded(pi: real, inc: real)
    requires pi > 0.0
    ensures (forall k: nat :: -pi <= Phase(pi, inc, k) <= pi) <==> -2.0 * pi <= inc <= 2.0 * pi
  {
    if -2.0 * pi <= inc <= 2.0 * pi {
      forall k: nat ensures -pi <= Phase(pi, inc, k) <= pi {
        PhaseInRange(pi, inc, k);
      }
    } else {
      var excess := if inc > 0.0 then inc - 2.0 * pi else -inc - 2.0 * pi;
      var k := Archimedes(excess, pi);
      PhaseRunsAway(pi, inc, excess, k, k as real * excess);
      assert !(-pi <= Phase(pi, inc, k) <= pi);
    }
  }

  lemma {:induction false} PhaseInRange(pi: real, inc: real, k: nat)
    requires pi > 0.0 && -2.0 * pi <= inc <= 2.0 * pi
    ensures -pi <= Phase(pi, inc, k) <= pi
  {
    if k > 0 {
      PhaseInRange(pi, inc, k - 1);
    }
  }

  lemma {:induction false} PhaseRunsAway(pi: real, inc: real, excess: real, k: nat, bound: real)
    requires pi > 0.0 && excess > 0.0 && bound == k as real * excess
    requires inc == 2.0 * pi + excess || inc == -2.0 * pi - excess
    ensures if inc > 0.0 then Phase(pi, inc, k) >= bound else Phase(pi, inc, k) <= -bound
  {
    if k > 0 {
      PhaseRunsAway(pi, inc, excess, k - 1, bound - excess);
      Steps(excess, k - 1);
    }
  }

  lemma Steps(excess: real, k: nat)
    requires excess > 0.0
    ensures k as real * excess >= 0.0
  {
    Positive(k as real, excess, k as real * excess);
  }

  lemma Archimedes(step: real, target: real) returns (k: nat)
    requires step > 0.0 && target > 0.0
    ensures k as real * step > target
  {
    var q := target / step;
    k := q.Floor + 1;
    assert q * step == target;
    Positive(k as real - q, step, (k as real - q) * step);
  }

  // ---- the definition: mix, convolve, keep every D-th ----

  /** The mixer at sample `i`. */
  function Mixer(t: Trig, inc: real, i: int): Complex {
    t.Cis(i as real * inc)
  }

  /** The stream shifted in frequency: sample i turned by i increments. */
  function Mix(t: Trig, inc: real, x: seq<Complex>): (m: seq<Complex>)
    ensures |m| == |x|
  {
    seq(|x|, i requires 0 <= i < |x| => x[i].Times(Mixer(t, inc, i)))
  }

  /** Sample `j` of a stream that is silent before its start. */
  function At(m: seq<Complex>, j: int): Complex {
    if 0 <= j < |m| then m[j] else ZERO
  }

  /** The first `k` products of the convolution at position `j`. */
  function FirSum(taps: seq<real>, m: seq<Complex>, j: int, k: nat): Complex
    requires k <= |taps|
  {
    if k == 0 then ZERO
    else FirSum(taps, m, j, k - 1).Plus(At(m, j - (k - 1)).Scaled(taps[k - 1]))
  }

  function Convolve(taps: seq<real>, m: seq<Complex>, j: int): Complex {
    FirSum(taps, m, j, |taps|)
  }

  /** What a block of `n` samples starting at position `start` of the stream yields. */
  function BlockOutput(taps: seq<real>, d: nat, m: seq<Complex>, start: nat, n: nat): (y: seq<Complex>)
    requires d > 0
  {
    if n == 0 then [] else
      var y := BlockOutput(taps, d, m, start, n - 1);
      if (n - 1) % d == 0 then y + [Convolve(taps, m, start + n - 1)] else y
  }

  lemma BlockOutputStep(taps: seq<real>, d: nat, m: seq<Complex>, start: nat, i: nat)
    requires d > 0
    ensures BlockOutput(taps, d, m, start, 0) == []
    ensures BlockOutput(taps, d, m, start, i + 1)
         == BlockOutput(taps, d, m, start, i) + if i % d == 0 then [Convolve(taps, m, start + i)] else []
  {
    hide Convolve;
  }

  /** The output of a block `b` that arrives after the samples `h`. */
  function Received(t: Trig, inc: real, taps: seq<real>, d: nat, h: seq<Complex>, b: seq<Complex>): seq<Complex>
    requires d > 0
  {
    BlockOutput(taps, d, Mix(t, inc, h + b), |h|, |b|)
  }

  /** Every d-th convolution, ceil(n / d) of them. */
  lemma {:induction false} BlockOutputAt(taps: seq<real>, d: nat, m: seq<Complex>, start: nat, n: nat)
    requires d > 0
    ensures |BlockOutput(taps, d, m, start, n)| == (n + d - 1) / d
    ensures forall i :: 0 <= i < |BlockOutput(taps, d, m, start, n)| ==>
      BlockOutput(taps, d, m, start, n)[i] == Convolve(taps, m, start + i * d)
  {
    hide Convolve;
    if n == 0 {
      SmallQuotient(d - 1, d);
    } else {
      BlockOutputAt(taps, d, m, start, n - 1);
      CeilStep(n - 1, d);
    }
  }

  // ---- splitting the stream into blocks ----

  /** A first part that is a whole number of groups can be processed on its own. */
  lemma {:induction false} BlockOutputSplits(taps: seq<real>, d: nat, m: seq<Complex>, start: nat, a: nat, b: nat)
    requires d > 0 && a % d == 0
    ensures BlockOutput(taps, d, m, start, a + b)
         == BlockOutput(taps, d, m, start, a) + BlockOutput(taps, d, m, start + a, b)
  {
    hide Convolve;
    if b > 0 {
      BlockOutputSplits(taps, d, m, start, a, b - 1);
      ModAdd(a, b - 1, d);
    }
  }

  /** Later samples do not change earlier convolutions. */
  lemma {:induction false} FirCausal(taps: seq<real>, m: seq<Complex>, n: seq<Complex>, j: int, k: nat)
    requires k <= |taps| && j < |m| && m <= n
    ensures FirSum(taps, m, j, k) == FirSum(taps, n, j, k)
  {
    hide Complex.Scaled;
    if k > 0 {
      FirCausal(taps, m, n, j, k - 1);
    }
  }

  lemma {:induction false} BlockOutputCausal(taps: seq<real>, d: nat, m: seq<Complex>, n: seq<Complex>,
                                             start: nat, k: nat)
    requires d > 0 && start + k <= |m| && m <= n
    ensures BlockOutput(taps, d, m, start, k) == BlockOutput(taps, d, n, start, k)
  {
    hide FirSum;
    if k > 0 {
      BlockOutputCausal(taps, d, m, n, start, k - 1);
      FirCausal(taps, m, n, start + k - 1, |taps|);
    }
  }

  lemma MixerUnit(t: Trig, inc: real, i: int)
    requires t.Lawful()
    ensures Mixer(t, inc, i).NormSq() == 1.0
  {
    t.CisUnit(i as real * inc);
  }

  lemma MixPrefix(t: Trig, inc: real, x: seq<Complex>, y: seq<Complex>)
    ensures Mix(t, inc, x) <= Mix(t, inc, x + y)
  {
    hide Complex.Times, Mixer;
  }

  /** Two calls agree with one when the first block is a whole number of groups. */
  lemma ReceivedSplits(t: Trig, inc: real, taps: seq<real>, d: nat, h: seq<Complex>, a: seq<Complex>, b: seq<Complex>)
    requires d > 0 && |a| % d == 0
    ensures Received(t, inc, taps, d, h, a + b)
         == Received(t, inc, taps, d, h, a) + Received(t, inc, taps, d, h + a, b)
  {
    hide Mix, BlockOutput;
    assert h + (a + b) == h + a + b;
    var m := Mix(t, inc, h + a + b);
    BlockOutputSplits(taps, d, m, |h|, |a|, |b|);
    MixPrefix(t, inc, h + a, b);
    BlockOutputCausal(taps, d, Mix(t, inc, h + a), m, |h|, |a|);
  }

  /** The outputs of successive calls, one block each, put end to end. */
  function RunOutput(t: Trig, inc: real, taps: seq<real>, d: nat, h: seq<Complex>,
                     blocks: seq<seq<Complex>>): seq<Complex>
    requires d > 0
    decreases |blocks|
  {
    if blocks == [] then []
    else Received(t, inc, taps, d, h, blocks[0]) + RunOutput(t, inc, taps, d, h + blocks[0], blocks[1..])
  }

  /** All blocks but the last are whole numbers of groups. */
  predicate Aligned(d: nat, blocks: seq<seq<Complex>>)
    requires d > 0
  {
    forall i :: 0 <= i < |blocks| - 1 ==> |blocks[i]| % d == 0
  }

  /** Any run of aligned blocks gives the same output as one call on the whole stream. */
  lemma {:induction false} RunIsOneCall(t: Trig, inc: real, taps: seq<real>, d: nat, h: seq<Complex>,
                                        blocks: seq<seq<Complex>>)
    requires d > 0 && Aligned(d, blocks)
    ensures RunOutput(t, inc, taps, d, h, blocks) == Received(t, inc, taps, d, h, Flatten(blocks))
    decreases |blocks|
  {
    hide Received;
    if |blocks| <= 1 {
      ReceivedNothing(t, inc, taps, d, if blocks == [] then h else h + blocks[0]);
      if |blocks| == 1 {
        assert Flatten(blocks[1..]) == [];
        assert Flatten(blocks) == blocks[0];
      }
    } else {
      RunIsOneCall(t, inc, taps, d, h + blocks[0], blocks[1..]);
      ReceivedSplits(t, inc, taps, d, h, blocks[0], Flatten(blocks[1..]));
    }
  }

  lemma ReceivedNothing(t: Trig, inc: real, taps: seq<real>, d: nat, h: seq<Complex>)
    requires d > 0
    ensures Received(t, inc, taps, d, h, []) == []
  {}

  // ---- exactly when a split is harmless ----

  /** Cutting `na + nb` samples after the first `na` makes no difference, whatever the samples and the history. */
  ghost predicate SplitInvariant(t: Trig, inc: real, taps: seq<real>, d: nat, na: nat, nb: nat)
    requires d > 0
  {
    forall h: seq<int16>, a: seq<int16>, b: seq<int16> ::
      |h| % 2 == 0 && |a| == 2 * na && |b| == 2 * nb ==> SplitAgrees(t, inc, taps, d, Scaled(h), Scaled(a), Scaled(b))
  }

  ghost predicate SplitAgrees(t: Trig, inc: real, taps: seq<real>, d: nat, h: seq<Complex>,
                              a: seq<Complex>, b: seq<Complex>)
    requires d > 0
  {
    Received(t, inc, taps, d, h, a) + Received(t, inc, taps, d, h + a, b) == Received(t, inc, taps, d, h, a + b)
  }

  /** The first index from `a` on that is kept, or `n` if there is none before it. */
  lemma {:induction false} NextKept(a: nat, n: nat, d: nat) returns (c: nat)
    requires d > 0 && a <= n
    ensures a <= c <= n
    ensures c < n ==> c % d == 0
    ensures forall i :: a <= i < c ==> i % d != 0
    decreases n - a
  {
    if a == n || a % d == 0 {
      c := a;
    } else {
      c := NextKept(a + 1, n, d);
    }
  }

  lemma {:induction false} OutputResumes(taps: seq<real>, d: nat, m: seq<Complex>, start: nat, a: nat, c: nat, n: nat)
    requires d > 0 && a <= c <= n
    requires c < n ==> c % d == 0
    requires forall i :: a <= i < c ==> i % d != 0
    ensures BlockOutput(taps, d, m, start, a) <= BlockOutput(taps, d, m, start, n)
    ensures c == n ==> BlockOutput(taps, d, m, start, n) == BlockOutput(taps, d, m, start, a)
    ensures c < n ==>
      && |BlockOutput(taps, d, m, start, n)| > |BlockOutput(taps, d, m, start, a)|
      && BlockOutput(taps, d, m, start, n)[|BlockOutput(taps, d, m, start, a)|] == Convolve(taps, m, start + c)
    decreases n
  {
    hide Convolve;
    if n > a {
      OutputResumes(taps, d, m, start, a, if c == n then n - 1 else c, n - 1);
    }
  }

  lemma {:induction false} FirstOutput(taps: seq<real>, d: nat, m: seq<Complex>, start: nat, n: nat)
    requires d > 0 && n > 0
    ensures |BlockOutput(taps, d, m, start, n)| > 0 && BlockOutput(taps, d, m, start, n)[0] == Convolve(taps, m, start)
  {
    hide Convolve;
    assert BlockOutput(taps, d, m, start, 0) == [];
    assert 0 % d == 0 by { QuotientUnique(0, d, 0, 0); }
    OutputResumes(taps, d, m, start, 0, 0, n);
  }

  /** The response to a stream that is silent except at `p`. */
  lemma {:induction false} ImpulseResponse(taps: seq<real>, m: seq<Complex>, p: nat, j: int, k: nat)
    requires k <= |taps| && p < |m| && forall i :: 0 <= i < |m| && i != p ==> m[i] == ZERO
    ensures FirSum(taps, m, j, k) == if 0 <= j - p < k then m[p].Scaled(taps[j - p]) else ZERO
  {
    hide Complex.Scaled, Complex.Plus;
    if k > 0 {
      ImpulseResponse(taps, m, p, j, k - 1);
      ScaledZero(taps[k - 1]);
      PlusZero(m[p].Scaled(taps[k - 1]));
      PlusZero(FirSum(taps, m, j, k - 1));
    }
  }

  lemma ScaledZero(r: real)
    ensures ZERO.Scaled(r) == ZERO
  {}

  lemma PlusZero(a: Complex)
    ensures a.Plus(ZERO) == a && ZERO.Plus(a) == a
  {}

  function Impulse(n: nat, p: nat): (x: seq<int16>)
    ensures |x| == 2 * n
  {
    seq(2 * n, i => if i == 2 * p then 0x4000 else 0)
  }

  lemma ImpulseSamples(n: nat, p: nat)
    ensures forall i :: 0 <= i < n ==> Scaled(Impulse(n, p))[i] == if i == p then Complex(0.5, 0.0) else ZERO
  {}

  /** A mixed impulse is still an impulse. */
  lemma MixedImpulse(t: Trig, inc: real, n: nat, p: nat)
    requires t.Lawful() && p < n
    ensures var m := Mix(t, inc, Scaled(Impulse(n, p)));
      m[p] != ZERO && forall i :: 0 <= i < n && i != p ==> m[i] == ZERO
  {
    hide Complex.Times, Complex.NormSq, Trig.Cis, Trig.Lawful, Scaled, Mixer;
    ImpulseSamples(n, p);
    forall i | 0 <= i < n && i != p ensures Mix(t, inc, Scaled(Impulse(n, p)))[i] == ZERO {
      TimesZeroRight(Mixer(t, inc, i));
    }
    var u := Mixer(t, inc, p);
    MixerUnit(t, inc, p);
    NormSqSign(u);
    HalfNotZero();
    if Complex(0.5, 0.0).Times(u) == ZERO {
      TimesZero(Complex(0.5, 0.0), u);
    }
  }

  lemma HalfNotZero()
    ensures Complex(0.5, 0.0) != ZERO
  {}

  /**
   * Cutting a block is harmless for all inputs exactly when the first part is
   * a whole number of groups or the second part is empty.
   */
  lemma SplitInvariantExactly(t: Trig, inc: real, taps: seq<real>, d: nat, na: nat, nb: nat)
    requires t.Lawful() && d > 0
    requires exists i :: 0 <= i < |taps| && taps[i] != 0.0
    ensures SplitInvariant(t, inc, taps, d, na, nb) <==> na % d == 0 || nb == 0
  {
    hide Received, Scaled, Complex.Times, Trig.Lawful;
    if na % d == 0 || nb == 0 {
      forall h: seq<int16>, a: seq<int16>, b: seq<int16> | |h| % 2 == 0 && |a| == 2 * na && |b| == 2 * nb
        ensures SplitAgrees(t, inc, taps, d, Scaled(h), Scaled(a), Scaled(b))
      {
        if na % d == 0 {
          ReceivedSplits(t, inc, taps, d, Scaled(h), Scaled(a), Scaled(b));
        } else {
          ReceivedNothing(t, inc, taps, d, Scaled(h) + Scaled(a));
          assert Scaled(b) == [] && Scaled(a) + Scaled(b) == Scaled(a);
        }
      }
    } else {
      var h, a, b := SplitCounterexample(t, inc, taps, d, na, nb);
      assert !SplitAgrees(t, inc, taps, d, Scaled(h), Scaled(a), Scaled(b));
    }
  }

  lemma {:induction false} LeastTap(taps: seq<real>) returns (k: nat)
    requires exists i :: 0 <= i < |taps| && taps[i] != 0.0
    ensures k < |taps| && taps[k] != 0.0 && forall i :: 0 <= i < k ==> taps[i] == 0.0
  {
    if taps[0] != 0.0 {
      k := 0;
    } else {
      var i :| 0 <= i < |taps| && taps[i] != 0.0;
      assert taps[1..][i - 1] == taps[i];
      var r := LeastTap(taps[1..]);
      k := r + 1;
      assert forall j :: 0 < j < k ==> taps[j] == taps[1..][j - 1];
    }
  }

  /** An impulse placed so that only the output the cut loses would see it. */
  lemma SplitCounterexample(t: Trig, inc: real, taps: seq<real>, d: nat, na: nat, nb: nat)
    returns (h: seq<int16>, a: seq<int16>, b: seq<int16>)
    requires t.Lawful() && d > 0 && na % d != 0 && nb > 0
    requires exists i :: 0 <= i < |taps| && taps[i] != 0.0
    ensures |h| % 2 == 0 && |a| == 2 * na && |b| == 2 * nb
    ensures !SplitAgrees(t, inc, taps, d, Scaled(h), Scaled(a), Scaled(b))
  {
    hide Complex.Times, Trig.Lawful, Mix, BlockOutput, Convolve, Scaled, Impulse;
    var least := LeastTap(taps);
    var c := NextKept(na, na + nb, d);
    var s := |taps|;
    var n := s + na + nb;
    var p := s + c - least;
    var x := Impulse(n, if c == na + nb then 0 else p);
    h, a, b := x[..2 * s], x[2 * s..2 * (s + na)], x[2 * (s + na)..];
    ScaledConcat(h, a);
    ScaledConcat(h + a, b);
    assert x == h + a + b;
    var m := Mix(t, inc, Scaled(x));
    assert Scaled(h) + (Scaled(a) + Scaled(b)) == Scaled(x);
    MixPrefix(t, inc, Scaled(h) + Scaled(a), Scaled(b));
    BlockOutputCausal(taps, d, Mix(t, inc, Scaled(h) + Scaled(a)), m, s, na);
    OutputResumes(taps, d, m, s, na, c, na + nb);
    FirstOutput(taps, d, m, s + na, nb);
    if c < na + nb {
      DifferentOutputs(t, inc, taps, n, p, least, s + c, s + na);
    }
  }

  lemma DifferentOutputs(t: Trig, inc: real, taps: seq<real>, n: nat, p: nat, least: nat, j: nat, i: nat)
    requires t.Lawful() && least < |taps| && taps[least] != 0.0 && forall k :: 0 <= k < least ==> taps[k] == 0.0
    requires p < n && j == p + least && i < j
    ensures var m := Mix(t, inc, Scaled(Impulse(n, p))); Convolve(taps, m, j) != Convolve(taps, m, i)
  {
    hide Complex.Scaled, Trig.Lawful, Mix, FirSum, Scaled, Impulse;
    var m := Mix(t, inc, Scaled(Impulse(n, p)));
    MixedImpulse(t, inc, n, p);
    ImpulseResponse(taps, m, p, j, |taps|);
    ImpulseResponse(taps, m, p, i, |taps|);
    ScaledNotZero(m[p], taps[least]);
    if i >= p {
      ScaledByZero(m[p], taps[i - p]);
    }
  }

  lemma ScaledNotZero(a: Complex, r: real)
    requires a != ZERO && r != 0.0
    ensures a.Scaled(r) != ZERO
  {
    if a.Scaled(r) == ZERO {
      ZeroProduct(a.re, r);
      ZeroProduct(a.im, r);
    }
  }

  lemma ScaledByZero(a: Complex, r: real)
    requires r == 0.0
    ensures a.Scaled(r) == ZERO
  {}

  // ---- steady state ----

  /** The response of the taps to a rotation by `theta` per sample. */
  function Response(t: Trig, taps: seq<real>, theta: real, k: nat): Complex
    requires k <= |taps|
  {
    if k == 0 then ZERO
    else Response(t, taps, theta, k - 1).Plus(t.Cis(-((k - 1) as real * theta)).Scaled(taps[k - 1]))
  }

  /** At zero frequency the response is the sum of the taps. */
  lemma {:induction false} ResponseAtZero(t: Trig, taps: seq<real>, k: nat)
    requires t.Lawful() && k <= |taps|
    ensures Response(t, taps, 0.0, k) == Complex(Total(taps[..k]), 0.0)
  {
    if k > 0 {
      ResponseAtZero(t, taps, k - 1);
      TotalSnoc(taps[..k - 1], taps[k - 1]);
      assert taps[..k] == taps[..k - 1] + [taps[k - 1]];
      t.CisSame(-((k - 1) as real * 0.0), 0.0);
    }
  }

  /** The stream turns by `theta` per sample from position `from` up to position `to`. */
  ghost predicate Rotates(t: Trig, m: seq<Complex>, a: Complex, theta: real, from: int, to: int) {
    forall j :: from <= j <= to ==> At(m, j) == a.Times(Mixer(t, theta, j))
  }

  /** Once a steady rotation fills the delay line the filter only scales it. */
  lemma {:induction false} FirOfRotation(t: Trig, taps: seq<real>, m: seq<Complex>, a: Complex, theta: real,
                                         j: int, k: nat)
    requires t.Lawful() && k <= |taps| && Rotates(t, m, a, theta, j - |taps| + 1, j)
    ensures FirSum(taps, m, j, k) == a.Times(Mixer(t, theta, j)).Times(Response(t, taps, theta, k))
  {
    hide Complex.Times, Complex.Scaled, Complex.Plus, Trig.Cis, Trig.Lawful, At;
    var y := a.Times(Mixer(t, theta, j));
    if k == 0 {
      TimesZeroRight(y);
    } else {
      FirOfRotation(t, taps, m, a, theta, j, k - 1);
      var l := -((k - 1) as real * theta);
      LagAngle(j, k - 1, theta);
      t.CisPlus(j as real * theta, l);
      t.CisSame((j - (k - 1)) as real * theta, j as real * theta + l);
      TimesAssoc(a, t.Cis(j as real * theta), t.Cis(l));
      ScaledTimes(y, t.Cis(l), taps[k - 1]);
      TimesDistributes(y, Response(t, taps, theta, k - 1), t.Cis(l).Scaled(taps[k - 1]));
    }
  }

  lemma LagAngle(j: int, k: nat, theta: real)
    ensures (j - k) as real * theta == j as real * theta + -(k as real * theta)
  {
    assert (j - k) as real == j as real - k as real;
  }

  /** A constant input of one delay line's length comes out unchanged when the taps sum to 1. */
  lemma ConstantPasses(t: Trig, taps: seq<real>, m: seq<Complex>, a: Complex, j: int)
    requires t.Lawful() && Total(taps) == 1.0
    requires forall i :: j - |taps| < i <= j ==> At(m, i) == a
    ensures Convolve(taps, m, j) == a
  {
    hide Complex.Times, Trig.Lawful, At, Total, Trig.Cis;
    forall i | j - |taps| + 1 <= i <= j ensures At(m, i) == a.Times(Mixer(t, 0.0, i)) {
      t.CisSame(i as real * 0.0, 0.0);
      t.CisZero();
      OneTimes(a);
    }
    FirOfRotation(t, taps, m, a, 0.0, j, |taps|);
    ResponseAtZero(t, taps, |taps|);
    assert taps[..|taps|] == taps;
    t.CisSame(j as real * 0.0, 0.0);
    t.CisZero();
    OneTimes(a);
  }

  // ---- the object ----

  datatype Config = Config(windowCentreHz: nat, windowSampleRateHz: nat, channelCentreHz: nat,
                           channelBandwidthHz: nat, outputSampleRateHz: nat)

  const NUM_TAPS: nat := 127
  const KAISER_BETA: real := 8.0

  /** The phase step that moves the channel centre to zero frequency. */
  function Increment(pi: real, c: Config): real
    requires c.windowSampleRateHz > 0
  {
    -(2.0 * pi) * (c.channelCentreHz as real - c.windowCentreHz as real) / c.windowSampleRateHz as real
  }

  /** Input samples per output sample. */
  function Decimation(c: Config): (d: nat)
    requires c.outputSampleRateHz > 0
    ensures c.windowSampleRateHz > 0 && c.windowSampleRateHz % c.outputSampleRateHz == 0 ==>
      d > 0 && d * c.outputSampleRateHz == c.windowSampleRateHz
  {
    assert c.windowSampleRateHz > 0 && c.windowSampleRateHz % c.outputSampleRateHz == 0 ==>
      var q := c.windowSampleRateHz / c.outputSampleRateHz; q > 0 && q * c.outputSampleRateHz == c.windowSampleRateHz by
    {
      if c.windowSampleRateHz > 0 && c.windowSampleRateHz % c.outputSampleRateHz == 0 {
        ExactQuotient(c.windowSampleRateHz, c.outputSampleRateHz);
      }
    }
    c.windowSampleRateHz / c.outputSampleRateHz
  }

  function TapDesign(t: Trig, sqrt: real -> real, c: Config): Design {
    Design(t, sqrt, c.channelBandwidthHz as real / 2.0, c.windowSampleRateHz as real, KAISER_BETA)
  }

  function ConfiguredTaps(t: Trig, sqrt: real -> real, c: Config): seq<real>
    requires c.windowSampleRateHz > 0 && t.Lawful()
  {
    Normalised(RawTaps(TapDesign(t, sqrt, c), Order(NUM_TAPS)))
  }

  /** What the delay line holds once `count` samples of `m` have been shifted in. */
  function DelayLine(m: seq<Complex>, count: nat, n: nat): (s: seq<Complex>)
    ensures |s| == n
    ensures forall k :: 0 <= k < n ==> s[k] == At(m, count - 1 - k)
  {
    seq(n, k requires 0 <= k < n => At(m, count - 1 - k))
  }

  class Channeliser {
    const trig: Trig
    const firTaps: seq<real>
    const decimationFactor: nat
    const phaseIncrement: real
    const delayLine: array<Complex>
    var phaseAccumulator: real
    /** Every scaled sample processed so far. */
    ghost var history: seq<Complex>

    ghost predicate Valid()
      reads this, delayLine
    {
      && trig.Lawful()
      && decimationFactor > 0 && |firTaps| > 0
      && phaseAccumulator == Phase(trig.pi, phaseIncrement, |history|)
      && delayLine[..] == DelayLine(Mix(trig, phaseIncrement, history), |history|, |firTaps|)
    }

    constructor (c: Config, t: Trig, sqrt: real -> real)
      requires t.Lawful() && sqrt(1.0) == 1.0
      requires c.windowSampleRateHz > 0 && c.outputSampleRateHz > 0
      requires c.windowSampleRateHz % c.outputSampleRateHz == 0
      ensures Valid() && fresh(delayLine) && history == []
      ensures trig == t && firTaps == ConfiguredTaps(t, sqrt, c)
      ensures decimationFactor == Decimation(c)
      ensures phaseIncrement == Increment(t.pi, c)
    {
      hide Increment, Decimation, Normalised, RawTaps, Mix, Phase, Symmetric, Total, Trig.Lawful;
      var design := DesignFirLowpass(NUM_TAPS, TapDesign(t, sqrt, c));
      var taps := design.value;
      trig := t;
      firTaps := taps;
      decimationFactor := Decimation(c);
      phaseIncrement := Increment(t.pi, c);
      phaseAccumulator := 0.0;
      delayLine := new Complex[|taps|](_ => ZERO);
      history := [];
      new;
      FreshState(t, phaseIncrement, delayLine[..]);
    }

    /** The constructor's argument check. */
    static method Create(c: Config, t: Trig, sqrt: real -> real) returns (r: Result<Channeliser>)
      requires t.Lawful() && sqrt(1.0) == 1.0
      requires c.windowSampleRateHz > 0 && c.outputSampleRateHz > 0
      ensures r.Ok? <==> c.windowSampleRateHz % c.outputSampleRateHz == 0
      ensures r.Ok? ==> r.value.Valid() && fresh(r.value) && fresh(r.value.delayLine) && r.value.history == []
    {
      if c.windowSampleRateHz % c.outputSampleRateHz != 0 {
        return Thrown("output_sample_rate_hz must evenly divide window_sample_rate_hz");
      }
      var ch := new Channeliser(c, t, sqrt);
      return Ok(ch);
    }

    /** The delay line moves up by one and takes the new sample at its head. */
    method ShiftIn(sample: Complex)
      requires delayLine.Length > 0
      modifies delayLine
      ensures delayLine[..] == [sample] + old(delayLine[..delayLine.Length - 1])
    {
      ghost var was := delayLine[..];
      var k := delayLine.Length - 1;
      while k > 0
        invariant 0 <= k < delayLine.Length
        invariant delayLine[..k + 1] == was[..k + 1]
        invariant delayLine[k + 1..] == was[k..|was| - 1]
      {
        delayLine[k] := delayLine[k - 1];
        k := k - 1;
      }
      delayLine[0] := sample;
    }

    method Filter(ghost m: seq<Complex>, ghost count: nat) returns (acc: Complex)
      requires count > 0 && delayLine[..] == DelayLine(m, count, |firTaps|)
      ensures acc == Convolve(firTaps, m, count - 1)
    {
      hide Complex.Scaled;
      acc := ZERO;
      var k := 0;
      while k < |firTaps|
        invariant 0 <= k <= |firTaps| == delayLine.Length
        invariant acc == FirSum(firTaps, m, count - 1, k)
      {
        assert delayLine[..][k] == delayLine[k];
        acc := acc.Plus(delayLine[k].Scaled(firTaps[k]));
        k := k + 1;
      }
    }

    /**
     * One block: the output is every d-th sample of the mixed stream convolved
     * with the taps, counted from the start of the block.
     */
    method Process(wideIq: seq<int16>) returns (narrowIq: seq<real>)
      requires Valid()
      modifies this`phaseAccumulator, this`history, delayLine
      ensures Valid()
      ensures history == old(history) + Scaled(wideIq)
      ensures narrowIq ==
        Interleave(Received(trig, phaseIncrement, firTaps, decimationFactor, old(history), Scaled(wideIq)))
    {
      hide Complex.Times, Trig.Cis, Trig.Lawful, Scaled, Convolve, DelayLine, Mix, Phase, BlockOutput, Interleave,
        SampleAt;
      var n := |wideIq| / 2;
      ghost var x := history + Scaled(wideIq);
      ghost var m := Mix(trig, phaseIncrement, x);
      ghost var start := |history|;
      DelayLineExtends(trig, phaseIncrement, history, Scaled(wideIq), |firTaps|);
      BlockOutputStep(firTaps, decimationFactor, m, start, 0);
      InterleaveNone();
      narrowIq := [];
      ghost var out: seq<Complex> := [];
      var i := 0;
      while i < n
        invariant 0 <= i <= n
        invariant history == x[..start + i]
        invariant phaseAccumulator == Phase(trig.pi, phaseIncrement, start + i)
        invariant delayLine[..] == DelayLine(m, start + i, |firTaps|)
        invariant out == BlockOutput(firTaps, decimationFactor, m, start, i)
        invariant narrowIq == Interleave(out)
      {
        ScaledAt(wideIq, i);
        var shifted := MixNext(wideIq, i, x, start + i);
        ShiftIn(shifted);
        DelayLineStep(m, start + i, |firTaps|);
        history := x[..start + i + 1];
        BlockOutputStep(firTaps, decimationFactor, m, start, i);
        if i % decimationFactor == 0 {
          var acc := Filter(m, start + i + 1);
          narrowIq := narrowIq + [acc.re, acc.im];
          InterleaveSnoc(out, acc);
          out := out + [acc];
        }
        i := i + 1;
      }
      assert x[..start + n] == x;
    }

    /** Scale, mix and advance the accumulator for input sample `i`, which is sample `pos` of the stream. */
    method MixNext(wideIq: seq<int16>, i: nat, ghost x: seq<Complex>, ghost pos: nat) returns (shifted: Complex)
      requires trig.Lawful() && 2 * i + 1 < |wideIq| && pos < |x| && x[pos] == SampleAt(wideIq, i)
      requires phaseAccumulator == Phase(trig.pi, phaseIncrement, pos)
      modifies this`phaseAccumulator
      ensures shifted == Mix(trig, phaseIncrement, x)[pos]
      ensures phaseAccumulator == Phase(trig.pi, phaseIncrement, pos + 1)
    {
      hide Complex.Times, Trig.Lawful;
      var sample := SampleAt(wideIq, i);
      var mixer := Complex(trig.cos(phaseAccumulator), trig.sin(phaseAccumulator));
      shifted := sample.Times(mixer);
      PhaseCongruent(trig, phaseIncrement, pos, pos as real * phaseIncrement);
      phaseAccumulator := phaseAccumulator + phaseIncrement;
      if phaseAccumulator > trig.pi { phaseAccumulator := phaseAccumulator - 2.0 * trig.pi; }
      if phaseAccumulator < -trig.pi { phaseAccumulator := phaseAccumulator + 2.0 * trig.pi; }
    }
  }

  lemma FreshState(t: Trig, inc: real, line: seq<Complex>)
    requires forall k :: 0 <= k < |line| ==> line[k] == ZERO
    ensures Phase(t.pi, inc, 0) == 0.0
    ensures line == DelayLine(Mix(t, inc, []), 0, |line|)
  {}

  lemma InterleaveNone()
    ensures Interleave([]) == []
  {}

  lemma InterleaveSnoc(x: seq<Complex>, a: Complex)
    ensures Interleave(x + [a]) == Interleave(x) + [a.re, a.im]
  {
    assert (x + [a])[..|x|] == x;
  }

  lemma DelayLineStep(m: seq<Complex>, count: nat, n: nat)
    requires n > 0 && count < |m|
    ensures DelayLine(m, count + 1, n) == [m[count]] + DelayLine(m, count, n)[..n - 1]
  {}

  lemma DelayLineExtends(t: Trig, inc: real, h: seq<Complex>, b: seq<Complex>, n: nat)
    ensures DelayLine(Mix(t, inc, h), |h|, n) == DelayLine(Mix(t, inc, h + b), |h|, n)
  {
    hide Mix;
    MixPrefix(t, inc, h, b);
  }
}
