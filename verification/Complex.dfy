/** Exact complex arithmetic: the source's complex samples over the reals. */
module ComplexNumbers {

  datatype Complex = Complex(re: real, im: real) {
    function Plus(b: Complex): Complex {
      Complex(re + b.re, im + b.im)
    }

    function Minus(b: Complex): Complex {
      Complex(re - b.re, im - b.im)
    }

    function Times(b: Complex): Complex {
      Complex(re * b.re - im * b.im, re * b.im + im * b.re)
    }

    function Scaled(r: real): Complex {
      Complex(re * r, im * r)
    }

    function Conj(): Complex {
      Complex(re, -im)
    }

    function NormSq(): real {
      re * re + im * im
    }
  }

  const ZERO := Complex(0.0, 0.0)
  const ONE := Complex(1.0, 0.0)
  const MINUS_ONE := Complex(-1.0, 0.0)

  lemma TimesAssoc(a: Complex, b: Complex, c: Complex)
    ensures a.Times(b).Times(c) == a.Times(b.Times(c))
  {}

  lemma OneTimes(a: Complex)
    ensures ONE.Times(a) == a && a.Times(ONE) == a
  {}

  lemma TimesZeroRight(a: Complex)
    ensures a.Times(ZERO) == ZERO && ZERO.Times(a) == ZERO
  {}

  lemma TimesReal(a: Complex, r: real)
    ensures a.Times(Complex(r, 0.0)) == a.Scaled(r)
  {}

  lemma TimesCommutes(a: Complex, b: Complex)
    ensures a.Times(b) == b.Times(a)
  {}

  lemma TimesDistributes(a: Complex, b: Complex, c: Complex)
    ensures a.Times(b.Plus(c)) == a.Times(b).Plus(a.Times(c))
    ensures b.Plus(c).Times(a) == b.Times(a).Plus(c.Times(a))
  {}

  lemma ScaledTimes(a: Complex, b: Complex, r: real)
    ensures a.Scaled(r).Times(b) == a.Times(b).Scaled(r)
    ensures a.Times(b.Scaled(r)) == a.Times(b).Scaled(r)
  {
    hide Complex.Times, Complex.Scaled;
    ScaledTimesLeft(a, b, r);
    ScaledTimesLeft(b, a, r);
    TimesCommutes(a, b.Scaled(r));
    TimesCommutes(a, b);
  }

  lemma ScaledTimesLeft(a: Complex, b: Complex, r: real)
    ensures a.Scaled(r).Times(b) == a.Times(b).Scaled(r)
  {
    FactorOut(a.re, b.re, a.im, b.im, r);
    FactorOut(a.re, b.im, a.im, b.re, r);
  }

  lemma FactorOut(p: real, q: real, u: real, v: real, r: real)
    ensures (p * r) * q - (u * r) * v == (p * q - u * v) * r
    ensures (p * r) * q + (u * r) * v == (p * q + u * v) * r
  {}

  /** The modulus is multiplicative. */
  lemma NormSqTimes(a: Complex, b: Complex)
    ensures a.Times(b).NormSq() == a.NormSq() * b.NormSq()
  {
    TwoSquares(a.re, a.im, b.re, b.im);
  }

  lemma TwoSquares(p: real, q: real, r: real, s: real)
    ensures (p * r - q * s) * (p * r - q * s) + (p * s + q * r) * (p * s + q * r)
         == (p * p + q * q) * (r * r + s * s)
  {}

  /** The parallelogram law: what one butterfly does to energy. */
  lemma Parallelogram(a: Complex, b: Complex)
    ensures a.Plus(b).NormSq() + a.Minus(b).NormSq() == 2.0 * (a.NormSq() + b.NormSq())
  {
    BinomialSquares(a.re, b.re);
    BinomialSquares(a.im, b.im);
  }

  lemma BinomialSquares(p: real, q: real)
    ensures (p + q) * (p + q) + (p - q) * (p - q) == 2.0 * (p * p) + 2.0 * (q * q)
  {}

  function Abs(r: real): (s: real)
    ensures s >= 0.0 && s * s == r * r
  {
    if r < 0.0 then -r else r
  }

  lemma Positive(a: real, b: real, p: real)
    requires p == a * b
    ensures a > 0.0 && b > 0.0 ==> p > 0.0
    ensures a >= 0.0 && b >= 0.0 ==> p >= 0.0
  {}

  lemma SquareSign(x: real, p: real)
    requires p == x * x
    ensures p >= 0.0
    ensures p == 0.0 ==> x == 0.0
  {
    Positive(x, x, p);
    Positive(-x, -x, p);
  }

  lemma NormSqSign(a: Complex)
    ensures a.NormSq() >= 0.0
    ensures a.NormSq() == 0.0 <==> a == ZERO
  {
    SquareSign(a.re, a.re * a.re);
    SquareSign(a.im, a.im * a.im);
  }

  lemma ZeroProduct(p: real, q: real)
    requires p * q == 0.0
    ensures p == 0.0 || q == 0.0
  {}

  /** No zero divisors. */
  lemma TimesZero(a: Complex, b: Complex)
    requires a.Times(b) == ZERO
    ensures a == ZERO || b == ZERO
  {
    hide Complex.Times, Complex.NormSq;
    NormSqTimes(a, b);
    NormSqSign(a.Times(b));
    ZeroProduct(a.NormSq(), b.NormSq());
    NormSqSign(a);
    NormSqSign(b);
  }

  // ---- powers ----

  function Pow(w: Complex, n: nat): Complex {
    if n == 0 then ONE else w.Times(Pow(w, n - 1))
  }

  lemma PowNext(w: Complex, n: nat)
    ensures Pow(w, 0) == ONE && Pow(w, n + 1) == Pow(w, n).Times(w)
  {
    hide Complex.Times;
    TimesCommutes(w, Pow(w, n));
  }

  lemma {:induction false} PowAdd(w: Complex, a: nat, b: nat)
    ensures Pow(w, a + b) == Pow(w, a).Times(Pow(w, b))
  {
    hide Complex.Times;
    if a == 0 {
      OneTimes(Pow(w, b));
    } else {
      PowAdd(w, a - 1, b);
      TimesAssoc(w, Pow(w, a - 1), Pow(w, b));
    }
  }

  lemma {:induction false} PowMul(w: Complex, a: nat, b: nat)
    ensures Pow(w, a * b) == Pow(Pow(w, a), b)
  {
    hide Complex.Times;
    if b == 0 {
      assert a * b == 0;
    } else {
      PowMul(w, a, b - 1);
      PowAdd(w, a, a * (b - 1));
      assert a * b == a + a * (b - 1);
    }
  }

  lemma {:induction false} PowOne(w: Complex, n: nat)
    requires w == ONE
    ensures Pow(w, n) == ONE
  {
    hide Complex.Times;
    if n > 0 {
      PowOne(w, n - 1);
      OneTimes(w);
    }
  }

  lemma {:induction false} PowNorm(w: Complex, n: nat)
    requires w.NormSq() == 1.0
    ensures Pow(w, n).NormSq() == 1.0
  {
    if n > 0 {
      hide Complex.Times, Complex.NormSq;
      PowNorm(w, n - 1);
      NormSqTimes(w, Pow(w, n - 1));
    }
  }

  // ---- polynomials ----

  /** x[0] + x[1] z + x[2] z^2 + ... */
  function Eval(x: seq<Complex>, z: Complex): Complex {
    if x == [] then ZERO else x[0].Plus(z.Times(Eval(x[1..], z)))
  }

  /** Sum of squared moduli. */
  function Energy(x: seq<Complex>): real {
    if x == [] then 0.0 else x[0].NormSq() + Energy(x[1..])
  }

  lemma {:induction false} EnergyConcat(a: seq<Complex>, b: seq<Complex>)
    ensures Energy(a + b) == Energy(a) + Energy(b)
  {
    if a == [] {
      assert a + b == b;
    } else {
      assert (a + b)[1..] == a[1..] + b;
      EnergyConcat(a[1..], b);
    }
  }
}
