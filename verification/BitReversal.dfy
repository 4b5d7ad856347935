/** The reversed-carry permutation at the head of the in-place transform. */
module BitReversal {

  function Pow2(p: nat): (n: nat)
    ensures n >= 1
  {
    if p == 0 then 1 else 2 * Pow2(p - 1)
  }

  lemma FourOrMore(p: nat)
    requires p >= 2
    ensures Pow2(p) >= 4
  {
    assert Pow2(p) == 2 * Pow2(p - 1) && Pow2(p - 1) == 2 * Pow2(p - 2);
  }

  ghost predicate IsPow2(n: nat) {
    exists p: nat :: n == Pow2(p)
  }

  /** The lowest `p` bits of `i`, read in the opposite order. */
  function BitRev(p: nat, i: nat): (r: nat)
    ensures r < Pow2(p)
  {
    if p == 0 then 0
    else (if i % 2 == 1 then Pow2(p - 1) else 0) + BitRev(p - 1, i / 2)
  }

  /** Peeling the top bit of the argument off as the bottom bit of the result. */
  lemma {:induction false} BitRevTop(p: nat, top: bool, x: nat)
    requires p > 0 && x < Pow2(p - 1)
    ensures BitRev(p, (if top then Pow2(p - 1) else 0) + x) == 2 * BitRev(p - 1, x) + if top then 1 else 0
  {
    if p == 1 {
      assert BitRev(0, 0) == 0;
    } else {
      var i := (if top then Pow2(p - 1) else 0) + x;
      assert i % 2 == x % 2 && i / 2 == (if top then Pow2(p - 2) else 0) + x / 2;
      BitRevTop(p - 1, top, x / 2);
    }
  }

  /** Bit reversal undoes itself. */
  lemma {:induction false} BitRevInvolution(p: nat, i: nat)
    requires i < Pow2(p)
    ensures BitRev(p, BitRev(p, i)) == i
  {
    if p > 0 {
      BitRevInvolution(p - 1, i / 2);
      BitRevTop(p, i % 2 == 1, BitRev(p - 1, i / 2));
    }
  }

  /** The sequence read in bit-reversed order. */
  function Reversed<T>(p: nat, x: seq<T>): (y: seq<T>)
    requires |x| == Pow2(p)
    ensures |y| == |x|
    ensures forall k :: 0 <= k < |x| ==> y[k] == x[BitRev(p, k)]
  {
    seq(|x|, k requires 0 <= k < |x| => x[BitRev(p, k)])
  }

  // ---- the carry loop, on indices and single-bit masks ----

  predicate HasBit(j: nat, bit: nat) {
    bit > 0 && j / bit % 2 == 1
  }

  /** `j ^ bit` for a one-bit mask. */
  function Toggle(j: nat, bit: nat): nat
    requires bit > 0
  {
    if HasBit(j, bit) then
      assert j >= bit;
      j - bit
    else j + bit
  }

  lemma DivTop(a: nat, bit: nat, top: bool)
    requires a < bit
    ensures ((if top then bit else 0) + a) / bit == if top then 1 else 0
  {}

  /** One turn of the carry loop: a set top bit is cleared and carries, a clear one absorbs. */
  lemma CarryBit(t: nat, m: nat, bit: nat, j: nat)
    requires bit == Pow2(t) && j == BitRev(t + 1, m)
    ensures HasBit(j, bit) <==> m % 2 == 1
    ensures m % 2 == 1 ==> Toggle(j, bit) == BitRev(t, m / 2) && BitRev(t + 1, m + 1) == BitRev(t, m / 2 + 1)
    ensures m % 2 == 0 ==> Toggle(j, bit) == BitRev(t + 1, m + 1)
  {
    DivTop(BitRev(t, m / 2), bit, m % 2 == 1);
    hide BitRev, Pow2;
    if m % 2 == 1 {
      assert (m + 1) % 2 == 0 && (m + 1) / 2 == m / 2 + 1;
    } else {
      assert (m + 1) % 2 == 1 && (m + 1) / 2 == m / 2;
    }
  }

  /**
   * One reversed increment: from the reversal of `i - 1` the loop reaches the
   * reversal of `i`, and meets a clear bit before the mask runs out.
   */
  method ReverseIncrement(n: nat, i: nat, j0: nat, ghost p: nat) returns (j: nat)
    requires n == Pow2(p) && 0 < i < n
    requires j0 == BitRev(p, i - 1)
    ensures j == BitRev(p, i)
  {
    j := j0;
    var bit := n / 2;
    // the `t + 1` low bits of j still have to be advanced from m to m + 1
    ghost var t: nat := p - 1;
    ghost var m: nat := i - 1;
    CarryBit(t, m, bit, j);
    while HasBit(j, bit)
      invariant bit == Pow2(t) && m + 1 < Pow2(t + 1)
      invariant j == BitRev(t + 1, m)
      invariant BitRev(p, i) == BitRev(t + 1, m + 1)
      decreases t
    {
      CarryBit(t, m, bit, j);
      hide HasBit, BitRev, Toggle;
      j := Toggle(j, bit);
      bit := bit / 2;
      t := t - 1;
      m := m / 2;
    }
    CarryBit(t, m, bit, j);
    j := Toggle(j, bit);
  }

  /** What the permutation has done before index `n`: the pairs met so far are swapped. */
  ghost predicate SwappedUpTo<T>(p: nat, n: nat, was: seq<T>, now: seq<T>)
    requires |was| == |now| == Pow2(p)
  {
    forall k :: 0 <= k < |now| ==>
      now[k] == if k < n || BitRev(p, k) < n then was[BitRev(p, k)] else was[k]
  }

  lemma SwapStep<T>(p: nat, i: nat, j: nat, was: seq<T>, now: seq<T>, next: seq<T>)
    requires |was| == |now| == |next| == Pow2(p)
    requires i < Pow2(p) && j == BitRev(p, i)
    requires SwappedUpTo(p, i, was, now)
    requires next == if i < j then now[i := now[j]][j := now[i]] else now
    ensures SwappedUpTo(p, i + 1, was, next)
  {
    BitRevInvolution(p, i);
    forall k | 0 <= k < |next|
      ensures next[k] == if k < i + 1 || BitRev(p, k) < i + 1 then was[BitRev(p, k)] else was[k]
    {
      BitRevInvolution(p, k);
    }
  }

  lemma SwapEnds<T>(p: nat, was: seq<T>, now: seq<T>)
    requires |was| == |now| == Pow2(p)
    ensures SwappedUpTo(p, 1, was, was)
    ensures SwappedUpTo(p, Pow2(p), was, now) ==> now == Reversed(p, was)
  {
    BitRevZero(p);
    forall k | 0 <= k < |was| && BitRev(p, k) < 1 ensures k == 0 {
      BitRevInvolution(p, k);
    }
  }

  method Permute<T>(data: array<T>, ghost p: nat)
    requires data.Length == Pow2(p)
    modifies data
    ensures data[..] == Reversed(p, old(data[..]))
  {
    hide SwappedUpTo, BitRev, Reversed, Pow2;
    ghost var was := data[..];
    var n := data.Length;
    SwapEnds(p, was, was);
    BitRevZero(p);
    var i, j := 1, 0;
    while i < n
      invariant 1 <= i <= n
      invariant j == BitRev(p, i - 1)
      invariant SwappedUpTo(p, i, was, data[..])
    {
      j := ReverseIncrement(n, i, j, p);
      ghost var now := data[..];
      if i < j {
        data[i], data[j] := data[j], data[i];
      }
      SwapStep(p, i, j, was, now, data[..]);
      i := i + 1;
    }
    SwapEnds(p, was, data[..]);
  }

  lemma {:induction false} BitRevZero(p: nat)
    ensures BitRev(p, 0) == 0
  {
    if p > 0 {
      BitRevZero(p - 1);
    }
  }
}
