/** The transform a spectrum is defined by, and how it splits into halves. */
module Fourier {
  import opened ComplexNumbers
  import opened Trigonometry
  import opened BitReversal

  /** The primitive root the butterflies of size `len` turn by. */
  function Twiddle(t: Trig, len: nat): Complex
    requires len > 0
  {
    t.Cis(-(2.0 * t.pi) / len as real)
  }

  /** The first `n` terms of the defining sum of bin `k`. */
  function DftSum(x: seq<Complex>, w: Complex, k: nat, n: nat): Complex
    requires n <= |x|
  {
    if n == 0 then ZERO
    else DftSum(x, w, k, n - 1).Plus(x[n - 1].Times(Pow(w, (n - 1) * k)))
  }

  /** X[k] = sum over n of x[n] W^(n k). */
  function Dft(t: Trig, x: seq<Complex>): (y: seq<Complex>)
    ensures |y| == |x|
  {
    seq(|x|, k requires 0 <= k < |x| => DftSum(x, Twiddle(t, |x|), k, |x|))
  }

  // ---- the sum as a polynomial in W^k ----

  lemma {:induction false} EvalSnoc(x: seq<Complex>, a: Complex, z: Complex)
    ensures Eval(x + [a], z) == Eval(x, z).Plus(a.Times(Pow(z, |x|)))
  {
    hide Complex.Times;
    if x == [] {
      TimesZeroRight(z);
      OneTimes(a);
      assert Eval([a], z) == a.Plus(z.Times(Eval([], z)));
    } else {
      assert (x + [a])[1..] == x[1..] + [a];
      EvalSnoc(x[1..], a, z);
      var p := Pow(z, |x| - 1);
      TimesDistributes(z, Eval(x[1..], z), a.Times(p));
      TimesSwap(z, a, p);
      assert Eval(x + [a], z) == x[0].Plus(z.Times(Eval(x[1..] + [a], z)));
    }
  }

  lemma {:induction false} DftSumIsEval(x: seq<Complex>, w: Complex, k: nat, n: nat)
    requires n <= |x|
    ensures DftSum(x, w, k, n) == Eval(x[..n], Pow(w, k))
  {
    if n > 0 {
      hide Complex.Times, Complex.Plus, Pow;
      DftSumIsEval(x, w, k, n - 1);
      PowMul(w, k, n - 1);
      assert k * (n - 1) == (n - 1) * k;
      EvalSnoc(x[..n - 1], x[n - 1], Pow(w, k));
      assert x[..n - 1] + [x[n - 1]] == x[..n];
    }
  }

  lemma DftBin(t: Trig, x: seq<Complex>, k: nat)
    requires k < |x|
    ensures Dft(t, x)[k] == Eval(x, Pow(Twiddle(t, |x|), k))
  {
    DftSumIsEval(x, Twiddle(t, |x|), k, |x|);
    assert x[..|x|] == x;
  }

  // ---- halving ----

  function Evens<T>(x: seq<T>): (y: seq<T>)
    requires |x| % 2 == 0
    ensures |y| == |x| / 2
    ensures forall k :: 0 <= k < |y| ==> y[k] == x[2 * k]
  {
    seq(|x| / 2, k requires 0 <= k < |x| / 2 => x[2 * k])
  }

  function Odds<T>(x: seq<T>): (y: seq<T>)
    requires |x| % 2 == 0
    ensures |y| == |x| / 2
    ensures forall k :: 0 <= k < |y| ==> y[k] == x[2 * k + 1]
  {
    seq(|x| / 2, k requires 0 <= k < |x| / 2 => x[2 * k + 1])
  }

  /** One polynomial is two of half the length, at the square. */
  lemma {:induction false} EvalSplit(x: seq<Complex>, z: Complex)
    requires |x| % 2 == 0
    ensures Eval(x, z) == Eval(Evens(x), z.Times(z)).Plus(z.Times(Eval(Odds(x), z.Times(z))))
  {
    if x == [] {
      TimesZeroRight(z);
    } else {
      hide Complex.Times, Complex.Plus;
      var r := x[2..];
      EvalSplit(r, z);
      assert Evens(x)[1..] == Evens(r) && Odds(x)[1..] == Odds(r);
      assert x[1..][1..] == r;
      assert Eval(x, z) == x[0].Plus(z.Times(x[1].Plus(z.Times(Eval(r, z)))));
      SplitStep(x[0], x[1], z, Eval(Evens(r), z.Times(z)), Eval(Odds(r), z.Times(z)));
    }
  }

  lemma SplitStep(a: Complex, b: Complex, z: Complex, e: Complex, o: Complex)
    ensures a.Plus(z.Times(b.Plus(z.Times(e.Plus(z.Times(o))))))
         == a.Plus(z.Times(z).Times(e)).Plus(z.Times(b.Plus(z.Times(z).Times(o))))
  {
    hide Complex.Times;
    TimesDistributes(z, e, z.Times(o));
    TimesAssoc(z, z, o);
    var q := z.Times(z).Times(o);
    TimesDistributes(z, b, z.Times(e).Plus(q));
    TimesDistributes(z, z.Times(e), q);
    TimesAssoc(z, z, e);
    TimesDistributes(z, b, q);
  }

  lemma TimesSwap(z: Complex, a: Complex, p: Complex)
    ensures z.Times(a.Times(p)) == a.Times(z.Times(p))
  {
    hide Complex.Times;
    TimesAssoc(z, a, p);
    TimesCommutes(z, a);
    TimesAssoc(a, z, p);
  }

  // ---- the laws of the roots ----

  lemma TwiddleSquare(t: Trig, m: nat)
    requires t.Lawful() && m > 0
    ensures Twiddle(t, 2 * m).Times(Twiddle(t, 2 * m)) == Twiddle(t, m)
  {
    hide Complex.Times, Trig.Cis;
    var a := -(2.0 * t.pi) / (2 * m) as real;
    HalfAngle(t.pi, m, a);
    t.CisPlus(a, a);
    t.CisSame(a + a, -(2.0 * t.pi) / m as real);
  }

  lemma HalfAngle(pi: real, m: nat, a: real)
    requires m > 0 && a == -(2.0 * pi) / (2 * m) as real
    ensures a + a == -(2.0 * pi) / m as real
  {
    assert (2 * m) as real == 2.0 * m as real;
  }

  lemma TwiddleTwo(t: Trig)
    requires t.Lawful()
    ensures Twiddle(t, 2) == MINUS_ONE
  {
    assert t.Reflects(t.pi);
    MinusOneConj(t);
    hide Trig.Cis, Complex.Conj;
    t.CisSame(-(2.0 * t.pi) / 2 as real, -t.pi);
  }

  lemma MinusOneConj(t: Trig)
    ensures MINUS_ONE.Conj() == MINUS_ONE
  {}

  lemma TwiddleUnit(t: Trig, len: nat)
    requires t.Lawful() && len > 0
    ensures Twiddle(t, len).NormSq() == 1.0
  {
    t.CisUnit(-(2.0 * t.pi) / len as real);
  }

  /** Half a turn of a power-of-two root is -1. */
  lemma {:induction false} TwiddleHalfTurn(t: Trig, q: nat)
    requires t.Lawful()
    ensures Pow(Twiddle(t, 2 * Pow2(q)), Pow2(q)) == MINUS_ONE
  {
    hide Complex.Times, Twiddle;
    var w := Twiddle(t, 2 * Pow2(q));
    if q == 0 {
      TwiddleTwo(t);
      assert Pow(w, 0) == ONE;
      OneTimes(w);
    } else {
      TwiddleSquare(t, Pow2(q));
      TwiddleHalfTurn(t, q - 1);
      PowMul(w, 2, Pow2(q - 1));
      PowTwo(w);
    }
  }

  lemma PowTwo(w: Complex)
    ensures Pow(w, 2) == w.Times(w)
  {
    hide Complex.Times;
    assert Pow(w, 0) == ONE;
    assert Pow(w, 1) == w.Times(ONE);
    OneTimes(w);
  }
}
