/**
 * The trigonometric functions the source calls, taken as parameters. What is
 * assumed of them is `Lawful`: four values, parity and the addition formulas.
 */
module Trigonometry {
  import opened ComplexNumbers

  datatype Trig = Trig(cos: real -> real, sin: real -> real, pi: real) {

    /** The point of the unit circle at angle `a`. */
    function Cis(a: real): Complex {
      Complex(cos(a), sin(a))
    }

    ghost predicate Adds(a: real, b: real) {
      Cis(a + b) == Cis(a).Times(Cis(b))
    }

    ghost predicate Reflects(a: real) {
      Cis(-a) == Cis(a).Conj()
    }

    ghost predicate Lawful() {
      && pi > 0.0
      && Cis(0.0) == ONE
      && Cis(pi) == MINUS_ONE
      && (forall a, b {:trigger Adds(a, b)} :: Adds(a, b))
      && (forall a {:trigger Reflects(a)} :: Reflects(a))
    }

    /** No angle strictly between 0 and a full turn comes back to 1. */
    ghost predicate TurnsOnce() {
      forall a {:trigger ShortOfTurn(a)} :: ShortOfTurn(a)
    }

    ghost predicate ShortOfTurn(a: real) {
      0.0 < a < 2.0 * pi ==> Cis(a) != ONE
    }

    /** A quarter turn is i. The other laws hold of clockwise angles as well. */
    ghost predicate QuarterIsI() {
      Cis(pi / 2.0) == Complex(0.0, 1.0)
    }

    lemma CisZero()
      requires Lawful()
      ensures Cis(0.0) == ONE
    {}

    lemma CisUnit(a: real)
      requires Lawful()
      ensures Cis(a).NormSq() == 1.0
    {
      assert Adds(a, -a) && Reflects(a);
      CisSame(a + -a, 0.0);
    }

    lemma CisPlus(a: real, b: real)
      requires Lawful()
      ensures Cis(a + b) == Cis(a).Times(Cis(b))
    {
      assert Adds(a, b);
    }

    lemma CisTurn(a: real)
      requires Lawful()
      ensures Cis(a + 2.0 * pi) == Cis(a)
      ensures Cis(a - 2.0 * pi) == Cis(a)
    {
      assert MINUS_ONE.Times(MINUS_ONE) == ONE;
      hide Complex.Times;
      OneTimes(Cis(a));
      OneTimes(Cis(a - 2.0 * pi));
      assert Adds(pi, pi);
      assert Adds(a, 2.0 * pi) && Adds(a - 2.0 * pi, 2.0 * pi);
      CisSame(a - 2.0 * pi + 2.0 * pi, a);
      CisSame(pi + pi, 2.0 * pi);
    }

    lemma CisSame(a: real, b: real)
      requires a == b
      ensures Cis(a) == Cis(b)
    {}

    /** De Moivre. */
    lemma {:induction false} CisMultiple(a: real, n: nat, na: real)
      requires Lawful()
      requires na == n as real * a
      ensures Cis(na) == Pow(Cis(a), n)
    {
      hide Complex.Times, Trig.Cis;
      if n > 0 {
        CisMultiple(a, n - 1, na - a);
        CisPlus(a, na - a);
      }
    }
  }
}
