/**
 * The in-place radix-2 transform: bit reversal, then butterfly stages of
 * doubling length. It computes the defining sum of `Fourier.Dft`.
 */
module FastFourier {
  import opened ComplexNumbers
  import opened Trigonometry
  import opened BitReversal
  import opened Fourier

  // ---- one stage, on sequences ----

  function Sums(u: seq<Complex>, v: seq<Complex>, w: Complex): (r: seq<Complex>)
    requires |u| == |v|
    ensures |r| == |u|
    ensures forall k :: 0 <= k < |u| ==> r[k] == u[k].Plus(v[k].Times(Pow(w, k)))
  {
    seq(|u|, k requires 0 <= k < |u| => u[k].Plus(v[k].Times(Pow(w, k))))
  }

  function Differences(u: seq<Complex>, v: seq<Complex>, w: Complex): (r: seq<Complex>)
    requires |u| == |v|
    ensures |r| == |u|
    ensures forall k :: 0 <= k < |u| ==> r[k] == u[k].Minus(v[k].Times(Pow(w, k)))
  {
    seq(|u|, k requires 0 <= k < |u| => u[k].Minus(v[k].Times(Pow(w, k))))
  }

  /** One block of a stage: element k of the first half meets element k of the second. */
  function Butterfly(d: seq<Complex>, w: Complex): (r: seq<Complex>)
    requires |d| % 2 == 0
    ensures |r| == |d|
  {
    var h := |d| / 2;
    Sums(d[..h], d[h..], w) + Differences(d[..h], d[h..], w)
  }

  /** A whole stage: every block of `len` elements. */
  function Stage(d: seq<Complex>, len: nat, w: Complex): (r: seq<Complex>)
    requires len > 0 && len % 2 == 0
    ensures |r| == |d|
    decreases |d|
  {
    if |d| < len then d else Butterfly(d[..len], w) + Stage(d[len..], len, w)
  }

  /** The contents once `q` stages remain: a transform of each residue class, in bit-reversed order. */
  function Blocks(t: Trig, q: nat, s: nat, x: seq<Complex>): (r: seq<Complex>)
    requires |x| == Pow2(q + s)
    ensures |r| == |x|
  {
    if q == 0 then Dft(t, x)
    else Blocks(t, q - 1, s, Evens(x)) + Blocks(t, q - 1, s, Odds(x))
  }

  /** `n` is a whole number of blocks of `len`. */
  ghost predicate Tiles(n: nat, len: nat) {
    n == 0 || (0 < len <= n && Tiles(n - len, len))
  }

  lemma {:induction false} TilesAdd(m: nat, n: nat, len: nat)
    requires Tiles(m, len) && Tiles(n, len)
    ensures Tiles(m + n, len)
  {
    if m > 0 {
      TilesAdd(m - len, n, len);
    }
  }

  lemma {:induction false} Pow2Tiles(a: nat, b: nat)
    ensures Tiles(Pow2(a + b), Pow2(a))
  {
    if b == 0 {
      assert Tiles(0, Pow2(a));
    } else {
      Pow2Tiles(a, b - 1);
      TilesAdd(Pow2(a + b - 1), Pow2(a + b - 1), Pow2(a));
    }
  }

  // ---- what a stage achieves ----

  /** A butterfly over the transforms of the even and odd samples is the transform of all of them. */
  lemma ButterflyJoins(t: Trig, q: nat, x: seq<Complex>)
    requires t.Lawful() && |x| == 2 * Pow2(q)
    ensures Butterfly(Dft(t, Evens(x)) + Dft(t, Odds(x)), Twiddle(t, |x|)) == Dft(t, x)
  {
    hide Complex.Times, Complex.Plus, Complex.Minus, Twiddle, Pow, Pow2, Dft, Evens, Odds, Sums, Differences, Butterfly,
      Trig.Lawful;
    var h := Pow2(q);
    var w := Twiddle(t, |x|);
    var e, o, y := Dft(t, Evens(x)), Dft(t, Odds(x)), Dft(t, x);
    forall k | 0 <= k < h
      ensures Sums(e, o, w)[k] == y[..h][k] && Differences(e, o, w)[k] == y[h..][k]
    {
      ButterflyBin(t, q, x, k);
    }
    assert Sums(e, o, w) == y[..h] && Differences(e, o, w) == y[h..];
    ButterflyOfHalves(e, o, w);
  }

  lemma ButterflyOfHalves(u: seq<Complex>, v: seq<Complex>, w: Complex)
    requires |u| == |v|
    ensures Butterfly(u + v, w) == Sums(u, v, w) + Differences(u, v, w)
  {
    hide Sums, Differences, Complex.Times, Complex.Plus, Complex.Minus, Pow;
    assert (u + v)[..|u|] == u && (u + v)[|u|..] == v;
  }

  lemma ButterflyBin(t: Trig, q: nat, x: seq<Complex>, k: nat)
    requires t.Lawful() && |x| == 2 * Pow2(q) && k < Pow2(q)
    ensures var v := Dft(t, Odds(x))[k].Times(Pow(Twiddle(t, |x|), k));
      Dft(t, x)[k] == Dft(t, Evens(x))[k].Plus(v) && Dft(t, x)[k + Pow2(q)] == Dft(t, Evens(x))[k].Minus(v)
  {
    hide Complex.Times, Complex.Plus, Complex.Minus, Twiddle, Pow, Eval, Dft;
    var h := Pow2(q);
    var w := Twiddle(t, 2 * h);
    var z := Pow(w, k);
    // the squares of both arguments are the k-th power of the half-length root
    TwiddleSquare(t, h);
    PowTwo(w);
    SquareOfPow(w, k);
    TwiddleHalfTurn(t, q);
    PowAdd(w, k, h);
    NegatedSquare(z);
    DftBin(t, x, k);
    DftBin(t, x, k + h);
    DftBin(t, Evens(x), k);
    DftBin(t, Odds(x), k);
    EvalSplit(x, z);
    EvalSplit(x, z.Times(MINUS_ONE));
    SubtractProduct(Eval(Evens(x), z.Times(z)), Eval(Odds(x), z.Times(z)), z);
  }

  lemma SquareOfPow(w: Complex, k: nat)
    ensures Pow(w, k).Times(Pow(w, k)) == Pow(w.Times(w), k)
  {
    hide Complex.Times, Pow;
    PowAdd(w, k, k);
    PowMul(w, 2, k);
    PowTwo(w);
  }

  lemma NegatedSquare(z: Complex)
    ensures z.Times(MINUS_ONE).Times(z.Times(MINUS_ONE)) == z.Times(z)
  {}

  lemma SubtractProduct(e: Complex, o: Complex, z: Complex)
    ensures e.Plus(z.Times(MINUS_ONE).Times(o)) == e.Minus(o.Times(z))
    ensures e.Plus(z.Times(o)) == e.Plus(o.Times(z))
  {}

  lemma StageUnfolds(d: seq<Complex>, len: nat, w: Complex)
    requires len > 0 && len % 2 == 0
    ensures Stage(d, len, w) == if |d| < len then d else Butterfly(d[..len], w) + Stage(d[len..], len, w)
  {
    hide Butterfly;
  }

  lemma {:induction false} StageConcat(a: seq<Complex>, b: seq<Complex>, len: nat, w: Complex)
    requires len > 0 && len % 2 == 0 && Tiles(|a|, len)
    ensures Stage(a + b, len, w) == Stage(a, len, w) + Stage(b, len, w)
    decreases |a|
  {
    hide Butterfly, Stage;
    StageUnfolds(a, len, w);
    if a == [] {
      assert a + b == b;
    } else {
      StageConcat(a[len..], b, len, w);
      assert (a + b)[..len] == a[..len] && (a + b)[len..] == a[len..] + b;
      StageUnfolds(a + b, len, w);
    }
  }

  lemma StageOfOneBlock(d: seq<Complex>, len: nat, w: Complex)
    requires len % 2 == 0 && |d| == len > 0
    ensures Stage(d, len, w) == Butterfly(d, w)
  {
    hide Butterfly;
    assert d[..len] == d && d[len..] == [];
    assert Stage([], len, w) == [];
  }

  /** One stage takes the contents with `q` stages left to the contents with `q - 1` left. */
  lemma {:induction false} StageAdvances(t: Trig, q: nat, s: nat, x: seq<Complex>)
    requires t.Lawful() && q > 0 && |x| == Pow2(q + s)
    ensures Stage(Blocks(t, q, s, x), Pow2(s + 1), Twiddle(t, Pow2(s + 1))) == Blocks(t, q - 1, s + 1, x)
    decreases q
  {
    hide Twiddle, Dft, Butterfly, Stage, Evens, Odds, Trig.Lawful;
    var len := Pow2(s + 1);
    var w := Twiddle(t, len);
    var e, o := Evens(x), Odds(x);
    if q == 1 {
      ButterflyJoins(t, s, x);
      StageOfOneBlock(Dft(t, e) + Dft(t, o), len, w);
    } else {
      StageAdvances(t, q - 1, s, e);
      StageAdvances(t, q - 1, s, o);
      Pow2Tiles(s + 1, q - 2);
      StageConcat(Blocks(t, q - 1, s, e), Blocks(t, q - 1, s, o), len, w);
    }
  }

  /** Before the first stage every block is a single sample: the bit-reversed input. */
  lemma {:induction false} ReversedIsBlocks(t: Trig, p: nat, x: seq<Complex>)
    requires |x| == Pow2(p)
    ensures Reversed(p, x) == Blocks(t, p, 0, x)
  {
    if p == 0 {
      DftOfOne(t, x);
      assert BitRev(0, 0) == 0;
    } else {
      ReversedIsBlocks(t, p - 1, Evens(x));
      ReversedIsBlocks(t, p - 1, Odds(x));
      ReversedSplit(p, x);
    }
  }

  lemma DftOfOne(t: Trig, x: seq<Complex>)
    requires |x| == 1
    ensures Dft(t, x) == x
  {
    hide Complex.Times, Twiddle, Pow, Dft;
    var z := Pow(Twiddle(t, 1), 0);
    DftBin(t, x, 0);
    TimesZeroRight(z);
    assert Eval(x, z) == x[0].Plus(z.Times(Eval([], z)));
  }

  lemma ReversedSplit<T>(p: nat, x: seq<T>)
    requires p > 0 && |x| == Pow2(p)
    ensures Reversed(p, x) == Reversed(p - 1, Evens(x)) + Reversed(p - 1, Odds(x))
  {
    hide BitRev;
    var h := Pow2(p - 1);
    forall k | 0 <= k < |x|
      ensures Reversed(p, x)[k] == (Reversed(p - 1, Evens(x)) + Reversed(p - 1, Odds(x)))[k]
    {
      BitRevTop(p, k >= h, if k >= h then k - h else k);
    }
  }

  // ---- the loops ----

  /** The data while the block `u + v` is being processed: its first `j` pairs have met. */
  ghost function InProgress(before: seq<Complex>, u: seq<Complex>, v: seq<Complex>, after: seq<Complex>,
                            w: Complex, j: nat): seq<Complex>
    requires j <= |u| == |v|
  {
    before + (Sums(u, v, w)[..j] + u[j..]) + (Differences(u, v, w)[..j] + v[j..]) + after
  }

  lemma PairMeets(before: seq<Complex>, u: seq<Complex>, v: seq<Complex>, after: seq<Complex>, w: Complex,
                  j: nat, now: seq<Complex>)
    requires j < |u| == |v| && now == InProgress(before, u, v, after, w, j)
    ensures var lo, hi := |before| + j, |before| + j + |u|; var b := v[j].Times(Pow(w, j));
      && hi < |now| && now[lo] == u[j] && now[hi] == v[j]
      && now[lo := u[j].Plus(b)][hi := u[j].Minus(b)] == InProgress(before, u, v, after, w, j + 1)
  {
    hide Complex.Times, Complex.Plus, Complex.Minus, Pow, Sums, Differences;
  }

  lemma AllMet(before: seq<Complex>, u: seq<Complex>, v: seq<Complex>, after: seq<Complex>, w: Complex)
    requires |u| == |v|
    ensures InProgress(before, u, v, after, w, 0) == before + (u + v) + after
    ensures InProgress(before, u, v, after, w, |u|) == before + Butterfly(u + v, w) + after
  {
    hide Complex.Times, Complex.Plus, Complex.Minus, Pow, Sums, Differences;
    var h := |u|;
    ButterflyOfHalves(u, v, w);
    var s, d := Sums(u, v, w), Differences(u, v, w);
    assert s[..h] + u[h..] == s && d[..h] + v[h..] == d;
  }

  /** One butterfly of the block `u + v` that starts at `i`. */
  method Meet(data: array<Complex>, i: nat, j: nat, h: nat, w: Complex, ghost before: seq<Complex>,
              ghost u: seq<Complex>, ghost v: seq<Complex>, ghost after: seq<Complex>, ghost wlen: Complex)
    requires |before| == i && j < h == |u| == |v| && w == Pow(wlen, j)
    requires data[..] == InProgress(before, u, v, after, wlen, j)
    modifies data
    ensures data[..] == InProgress(before, u, v, after, wlen, j + 1)
  {
    hide Complex.Times, Complex.Plus, Complex.Minus, InProgress, Pow;
    ghost var now := data[..];
    PairMeets(before, u, v, after, wlen, j, now);
    assert now[i + j] == data[i + j] && now[i + j + h] == data[i + j + h];
    var a := data[i + j];
    var b := data[i + j + h].Times(w);
    data[i + j] := a.Plus(b);
    data[i + j + h] := a.Minus(b);
    assert data[..] == now[i + j := a.Plus(b)][i + j + h := a.Minus(b)];
  }

  /** The innermost loop: one block, with the running product `w`. */
  method ButterflyBlock(data: array<Complex>, i: nat, len: nat, wlen: Complex)
    requires len % 2 == 0 && i + len <= data.Length
    modifies data
    ensures data[..] == old(data[..i]) + Butterfly(old(data[i..i + len]), wlen) + old(data[i + len..])
  {
    hide Complex.Times, Complex.Plus, Complex.Minus, Butterfly, InProgress, Pow;
    var h := len / 2;
    ghost var before, after := data[..i], data[i + len..];
    ghost var u, v := data[i..i + h], data[i + h..i + len];
    assert data[i..i + len] == u + v;
    AllMet(before, u, v, after, wlen);
    assert data[..] == before + (u + v) + after;
    var w := ONE;
    PowNext(wlen, 0);
    var j := 0;
    while j < h
      invariant 0 <= j <= h == |u| == |v|
      invariant w == Pow(wlen, j)
      invariant data[..] == InProgress(before, u, v, after, wlen, j)
    {
      Meet(data, i, j, h, w, before, u, v, after, wlen);
      PowNext(wlen, j);
      w := w.Times(wlen);
      j := j + 1;
    }
  }

  /** The data while a stage is running: the blocks before `i` have been transformed. */
  ghost function StageUpTo(was: seq<Complex>, i: nat, len: nat, w: Complex): (r: seq<Complex>)
    requires len > 0 && len % 2 == 0 && i <= |was|
    ensures |r| == |was|
  {
    Stage(was[..i], len, w) + was[i..]
  }

  lemma StageStep(was: seq<Complex>, i: nat, len: nat, w: Complex, now: seq<Complex>)
    requires len > 0 && len % 2 == 0 && i + len <= |was| && Tiles(i, len)
    requires now == StageUpTo(was, i, len, w)
    ensures now[..i] + Butterfly(now[i..i + len], w) + now[i + len..] == StageUpTo(was, i + len, len, w)
  {
    hide Butterfly, Stage;
    var block := was[i..i + len];
    assert now[..i] == Stage(was[..i], len, w);
    assert now[i..i + len] == block && now[i + len..] == was[i + len..];
    StageOfOneBlock(block, len, w);
    StageConcat(was[..i], block, len, w);
    assert was[..i + len] == was[..i] + block;
  }

  /** The middle loop: every block of one stage. */
  method RunStage(data: array<Complex>, len: nat, wlen: Complex)
    requires len > 0 && len % 2 == 0 && Tiles(data.Length, len)
    modifies data
    ensures data[..] == Stage(old(data[..]), len, wlen)
  {
    hide Butterfly, Stage, StageUpTo;
    ghost var was := data[..];
    var n := data.Length;
    StageEnds(was, len, wlen);
    var i := 0;
    while i < n
      invariant 0 <= i <= n && Tiles(i, len) && Tiles(n - i, len)
      invariant data[..] == StageUpTo(was, i, len, wlen)
    {
      StageStep(was, i, len, wlen, data[..]);
      ButterflyBlock(data, i, len, wlen);
      TilesAdd(i, len, len);
      i := i + len;
    }
  }

  lemma StageEnds(was: seq<Complex>, len: nat, w: Complex)
    requires len > 0 && len % 2 == 0
    ensures StageUpTo(was, 0, len, w) == was
    ensures StageUpTo(was, |was|, len, w) == Stage(was, len, w)
  {
    hide Butterfly;
    assert Stage([], len, w) == [];
    assert was[..|was|] == was;
  }

  /** The transform: in place, and equal to the defining sum of every bin. */
  method FftInPlace(data: array<Complex>, t: Trig)
    requires t.Lawful()
    requires data.Length == 0 || IsPow2(data.Length)
    modifies data
    ensures data[..] == Dft(t, old(data[..]))
  {
    hide Dft, Stage, Blocks, Twiddle, Reversed, Trig.Lawful, Pow2, Tiles;
    ghost var was := data[..];
    var n := data.Length;
    if n == 0 {
      NoBins(t);
      return;
    }
    ghost var p: nat :| n == Pow2(p);
    Permute(data, p);
    ReversedIsBlocks(t, p, was);
    StageLength(0, p);
    ghost var s := 0;
    var len := 2;
    while len <= n
      invariant s <= p && len == 2 * Pow2(s)
      invariant data[..] == Blocks(t, p - s, s, was)
      decreases p - s
    {
      StageLength(s, p);
      RunStage(data, len, Twiddle(t, len));
      StageAdvances(t, p - s, s, was);
      len := 2 * len;
      s := s + 1;
    }
    StageLength(s, p);
    BlocksDone(t, p, was);
  }

  lemma NoBins(t: Trig)
    ensures Dft(t, []) == []
  {}

  /** The block length of stage `s`: even, a divisor of the data, and at most its length exactly while stages remain. */
  lemma StageLength(s: nat, p: nat)
    requires s <= p
    ensures Pow2(s + 1) == 2 * Pow2(s) && Pow2(0) == 1
    ensures 2 * Pow2(s) <= Pow2(p) <==> s < p
    ensures s < p ==> Tiles(Pow2(p), 2 * Pow2(s))
  {
    Pow2Grows(s, p);
    if s < p {
      Pow2Tiles(s + 1, p - s - 1);
    }
  }

  lemma BlocksDone(t: Trig, p: nat, x: seq<Complex>)
    requires |x| == Pow2(p)
    ensures Blocks(t, 0, p, x) == Dft(t, x)
  {}

  /** A stage is still to come exactly while the block length has not passed the data. */
  lemma {:induction false} Pow2Grows(s: nat, p: nat)
    requires s <= p
    ensures 2 * Pow2(s) <= Pow2(p) <==> s < p
  {
    if s + 1 < p {
      Pow2Grows(s, p - 1);
    }
  }
}
