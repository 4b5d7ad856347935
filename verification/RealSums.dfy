/** Sums of real sequences. */
module RealSums {

  function Total(s: seq<real>): real {
    if s == [] then 0.0 else s[0] + Total(s[1..])
  }

  lemma {:induction false} TotalSnoc(s: seq<real>, a: real)
    ensures Total(s + [a]) == Total(s) + a
  {
    if s == [] {
      assert Total([a]) == a + Total([a][1..]);
    } else {
      assert (s + [a])[1..] == s[1..] + [a];
      TotalSnoc(s[1..], a);
    }
  }
}
