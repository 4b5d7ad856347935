/** CS16 samples: interleaved signed 16-bit I and Q. */
module Samples {
  import opened ComplexNumbers

  type int16 = x: int | -0x8000 <= x < 0x8000

  /** Full scale of a CS16 component. */
  const FULL_SCALE: real := 32768.0

  /** The conversion of a real number to an integer: truncation toward zero. */
  function Truncate(v: real): (r: int)
    ensures v >= 0.0 ==> 0 <= r && v - 1.0 < r as real <= v
    ensures v <= 0.0 ==> r <= 0 && v <= r as real < v + 1.0
  {
    if v >= 0.0 then v.Floor else -((-v).Floor)
  }

  /** Sample `i` of an interleaved block, scaled to [-1, 1). */
  function SampleAt(iq: seq<int16>, i: nat): Complex
    requires 2 * i + 1 < |iq|
  {
    Complex(iq[2 * i] as real / FULL_SCALE, iq[2 * i + 1] as real / FULL_SCALE)
  }

  /** All whole samples of an interleaved block; an odd last component is ignored. */
  function Scaled(iq: seq<int16>): (x: seq<Complex>)
    ensures |x| == |iq| / 2
  {
    seq(|iq| / 2, i requires 0 <= i < |iq| / 2 => SampleAt(iq, i))
  }

  lemma ScaledAt(iq: seq<int16>, i: nat)
    requires i < |iq| / 2
    ensures Scaled(iq)[i] == SampleAt(iq, i)
  {
    hide SampleAt;
  }

  lemma ScaledConcat(a: seq<int16>, b: seq<int16>)
    requires |a| % 2 == 0
    ensures Scaled(a + b) == Scaled(a) + Scaled(b)
  {}

  /** Complex samples written out as interleaved components. */
  function Interleave(x: seq<Complex>): (s: seq<real>)
    ensures |s| == 2 * |x|
    ensures forall i :: 0 <= i < |x| ==> s[2 * i] == x[i].re && s[2 * i + 1] == x[i].im
  {
    if x == [] then [] else
      var r := Interleave(x[..|x| - 1]);
      r + [x[|x| - 1].re, x[|x| - 1].im]
  }

  /** The complex samples of an interleaved stream. */
  function Deinterleave(s: seq<real>): (x: seq<Complex>)
    ensures |x| == |s| / 2
  {
    seq(|s| / 2, i requires 0 <= i < |s| / 2 => Complex(s[2 * i], s[2 * i + 1]))
  }

  lemma InterleaveRoundTrip(x: seq<Complex>)
    ensures Deinterleave(Interleave(x)) == x
  {}

  /** Blocks put end to end. */
  function Flatten(blocks: seq<seq<Complex>>): seq<Complex> {
    if blocks == [] then [] else blocks[0] + Flatten(blocks[1..])
  }
}
