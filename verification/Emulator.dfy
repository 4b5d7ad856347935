/** The synthetic receiver: its waveform, its fault injection and its stream of blocks. */
module Emulation {
  import opened ComplexNumbers
  import opened Trigonometry
  import opened Samples
  import opened Packets
  import opened Results
  import opened Division

  /**
   * A signal of the scene. The random draws of a noise signal are given by the
   * number of the block generation, numbered or not, and the sample's place in it.
   */
  datatype Signal =
    | Tone(centreHz: real, amplitude: real)
    | Fm(centreHz: real, amplitude: real, deviationHz: real, modulationHz: real)
    | Noise(draws: (nat, nat) -> Complex)

  /** `ends` counts the end-of-stream blocks generated so far: each has drawn noise but has no number. */
  datatype Scene = Scene(trig: Trig, centreHz: real, sampleRateHz: nat, signals: seq<Signal>, ends: nat)

  ghost predicate ValidScene(s: Scene) {
    && s.sampleRateHz > 0
    && forall i :: 0 <= i < |s.signals| ==> ValidSignal(s.signals[i])
  }

  /** FM needs a modulation frequency to divide by. */
  ghost predicate ValidSignal(g: Signal) {
    match g
    case Tone(_, _) => true
    case Fm(_, _, _, modulationHz) => modulationHz != 0.0
    case Noise(_) => true
  }

  // ---- conversions ----

  /** A conversion to 16 bits, taken modulo 2^16. */
  function Wrap16(v: int): int16 {
    (v + 0x8000) % 0x1_0000 - 0x8000
  }

  function ToSample(v: real): int16 {
    Wrap16(Truncate(v))
  }

  function Clamp(v: real): real {
    if v < -32768.0 then -32768.0 else if v > 32767.0 then 32767.0 else v
  }

  /** payload[i] += static_cast<int16_t>(amplitude * x) */
  function Accumulate(old16: int16, amplitude: real, x: real): int16 {
    Wrap16(old16 + ToSample(amplitude * x))
  }

  // ---- the waveform, at any position of the stream ----

  function PhasePerSample(pi: real, sampleRateHz: nat, hz: real): real
    requires sampleRateHz > 0
  {
    2.0 * pi * hz / sampleRateHz as real
  }

  /** The phase reached after `n` steps. */
  function Advance(step: real, n: nat): real {
    step * n as real
  }

  /** A carrier phase with the modulation on top. */
  function Modulated(carrier: real, deviationHz: real, modulationHz: real, m: real): real
    requires modulationHz != 0.0
  {
    carrier + deviationHz / modulationHz * m
  }

  /** The phase of a tone or FM signal at sample `n` of the stream. */
  function PhaseAt(s: Scene, g: Signal, n: nat): real
    requires s.sampleRateHz > 0 && !g.Noise? && ValidSignal(g)
  {
    var carrier := Advance(PhasePerSample(s.trig.pi, s.sampleRateHz, g.centreHz - s.centreHz), n);
    match g
    case Tone(_, _) => carrier
    case Fm(_, _, dev, mod) =>
      Modulated(carrier, dev, mod, s.trig.sin(Advance(PhasePerSample(s.trig.pi, s.sampleRateHz, mod), n)))
  }

  /** A sample of a tone or FM signal before it is converted. */
  function Exact(s: Scene, g: Signal, n: nat): Complex
    requires s.sampleRateHz > 0 && !g.Noise? && ValidSignal(g)
  {
    s.trig.Cis(PhaseAt(s, g, n)).Scaled(g.amplitude)
  }

  /** Both components of a sample. */
  function AddTurn(t: Trig, amplitude: real, phase: real, was: (int16, int16)): (int16, int16) {
    (Accumulate(was.0, amplitude, t.cos(phase)), Accumulate(was.1, amplitude, t.sin(phase)))
  }

  /** Noise is clamped and overwrites what is there. */
  function NoiseSample(draw: Complex): (int16, int16) {
    (ToSample(Clamp(draw.re)), ToSample(Clamp(draw.im)))
  }

  /** One signal added to (or, for noise, written over) what the earlier ones left at sample `n`. */
  function AddSignal(s: Scene, g: Signal, n: nat, was: (int16, int16)): (int16, int16)
    requires s.sampleRateHz > 0 && ValidSignal(g)
  {
    match g
    case Noise(draws) => NoiseSample(draws(n / IQ_BLOCK_SAMPLES + s.ends, n % IQ_BLOCK_SAMPLES))
    case _ => AddTurn(s.trig, g.amplitude, PhaseAt(s, g, n), was)
  }

  /** The first `k` signals of the scene at sample `n`, summed from silence. */
  function Mixture(s: Scene, n: nat, k: nat): (int16, int16)
    requires ValidScene(s) && k <= |s.signals|
  {
    if k == 0 then (0, 0) else AddSignal(s, s.signals[k - 1], n, Mixture(s, n, k - 1))
  }

  /** Samples [from, from + count) of the first `k` signals, interleaved. */
  function Layer(s: Scene, from: nat, count: nat, k: nat): (p: seq<int16>)
    requires ValidScene(s) && k <= |s.signals|
    ensures |p| == 2 * count
  {
    if count == 0 then [] else
      var m := Mixture(s, from + count - 1, k);
      Layer(s, from, count - 1, k) + [m.0, m.1]
  }

  /** Samples [from, from + count) of the waveform. */
  function Slice(s: Scene, from: nat, count: nat): (p: seq<int16>)
    requires ValidScene(s)
    ensures |p| == 2 * count
  {
    Layer(s, from, count, |s.signals|)
  }

  lemma {:induction false} LayerAt(s: Scene, from: nat, count: nat, k: nat, i: nat)
    requires ValidScene(s) && k <= |s.signals| && i < count
    ensures (Layer(s, from, count, k)[2 * i], Layer(s, from, count, k)[2 * i + 1]) == Mixture(s, from + i, k)
  {
    hide Mixture;
    if i < count - 1 {
      LayerAt(s, from, count - 1, k, i);
    }
  }

  /** Adjacent slices make one slice. */
  lemma {:induction false} SliceConcat(s: Scene, from: nat, a: nat, b: nat)
    requires ValidScene(s)
    ensures Slice(s, from, a + b) == Slice(s, from, a) + Slice(s, from + a, b)
  {
    hide Mixture;
    if b > 0 {
      SliceConcat(s, from, a, b - 1);
    }
  }

  // ---- blocks ----

  /** A block's sequence number is assigned after generation, and never for the end-of-stream block. */
  datatype IQBlock = IQBlock(sequenceNumber: Option<nat>, payload: seq<int16>, dropped: bool, corrupt: bool,
                             endOfStream: bool)

  /** What one iteration of the stream loop runs into; the random choices are inputs. */
  datatype Iteration = Disconnect | Stall | Normal | Drop | Corrupt(garbage: seq<int16>)

  const CORRUPT_ELEMENTS: nat := 64

  ghost predicate ValidPlan(plan: seq<Iteration>) {
    forall i :: 0 <= i < |plan| && plan[i].Corrupt? ==> |plan[i].garbage| == CORRUPT_ELEMENTS
  }

  /** The clean payload of block `c`. */
  function BlockPayload(s: Scene, c: nat): (p: seq<int16>)
    requires ValidScene(s)
    ensures |p| == 131072
  {
    Slice(s, c * IQ_BLOCK_SAMPLES, IQ_BLOCK_SAMPLES)
  }

  /** The numbered block of an iteration that sends one. */
  function BlockFor(s: Scene, it: Iteration, c: nat): IQBlock
    requires ValidScene(s) && !it.Disconnect? && !it.Stall? && (it.Corrupt? ==> |it.garbage| == CORRUPT_ELEMENTS)
  {
    var p := BlockPayload(s, c);
    IQBlock(Some(c), if it.Corrupt? then it.garbage + p[CORRUPT_ELEMENTS..] else p, it.Drop?, it.Corrupt?, false)
  }

  /** The blocks handed to the callback by a run of the loop that starts at sequence number `c`. */
  function Emitted(s: Scene, plan: seq<Iteration>, c: nat): seq<IQBlock>
    requires ValidScene(s) && ValidPlan(plan)
    decreases |plan|
  {
    if plan == [] then [] else
      match plan[0]
      case Disconnect => [IQBlock(None, BlockPayload(s, c), false, false, true)]
      case Stall => Emitted(s, plan[1..], c)
      case _ => [BlockFor(s, plan[0], c)] + Emitted(s, plan[1..], c + 1)
  }

  /** What every block of a run satisfies: position `i` carries number `c + i` and slice `c + i`. */
  ghost predicate Continues(s: Scene, b: IQBlock, n: nat)
    requires ValidScene(s)
  {
    && |b.payload| == 131072
    && b.payload[64..] == Slice(s, n * 65536, 65536)[64..]
    && (!b.corrupt ==> b.payload == Slice(s, n * 65536, 65536))
    && (if b.endOfStream then b.sequenceNumber == None else b.sequenceNumber == Some(n))
  }

  /** Stream continuity: whatever faults a run meets, its blocks are consecutive, and only the last can end it. */
  lemma {:induction false} StreamContinuity(s: Scene, plan: seq<Iteration>, c: nat, i: nat)
    requires ValidScene(s) && ValidPlan(plan) && i < |Emitted(s, plan, c)|
    ensures Continues(s, Emitted(s, plan, c)[i], c + i)
    ensures Emitted(s, plan, c)[i].endOfStream ==> i == |Emitted(s, plan, c)| - 1
    decreases |plan|
  {
    hide BlockPayload;
    if plan[0].Stall? {
      StreamContinuity(s, plan[1..], c, i);
    } else if i > 0 {
      StreamContinuity(s, plan[1..], c + 1, i - 1);
      assert c + i == c + 1 + (i - 1);
    } else {
      PayloadIsSlice(s, c);
    }
  }

  lemma PayloadIsSlice(s: Scene, c: nat)
    requires ValidScene(s)
    ensures BlockPayload(s, c) == Slice(s, c * 65536, 65536)
  {}

  /** How many iterations of a plan generate a block. */
  function Sending(plan: seq<Iteration>): nat {
    if plan == [] then 0 else (if plan[0].Stall? then 0 else 1) + Sending(plan[1..])
  }

  /** The iterations that are reached: none follow a disconnect. */
  function Reached(plan: seq<Iteration>): seq<Iteration> {
    if plan == [] then []
    else if plan[0].Disconnect? then [plan[0]]
    else [plan[0]] + Reached(plan[1..])
  }

  /**
   * What marks a block: block `i` comes from the iteration before which `i`
   * others generated one, and its flags tell which kind that was.
   */
  lemma {:induction false} FaultMarks(s: Scene, plan: seq<Iteration>, c: nat, i: nat) returns (j: nat)
    requires ValidScene(s) && ValidPlan(plan) && i < |Emitted(s, plan, c)|
    ensures j < |plan| && !plan[j].Stall? && Sending(plan[..j]) == i
    ensures forall k :: 0 <= k < j ==> !plan[k].Disconnect?
    ensures var b := Emitted(s, plan, c)[i];
      && |b.payload| == 131072
      && b.dropped == (plan[j] == Drop)
      && b.endOfStream == (plan[j] == Disconnect)
      && b.sequenceNumber == (if plan[j] == Disconnect then None else Some(c + i))
      && b.corrupt == plan[j].Corrupt?
      && (b.corrupt ==> b.payload[..64] == plan[j].garbage)
    decreases |plan|
  {
    hide BlockPayload;
    if plan[0].Stall? {
      var k := FaultMarks(s, plan[1..], c, i);
      j := k + 1;
      assert plan[..j][1..] == plan[1..][..k];
    } else if i == 0 {
      j := 0;
    } else {
      var k := FaultMarks(s, plan[1..], c + 1, i - 1);
      j := k + 1;
      assert plan[..j][1..] == plan[1..][..k];
    }
  }

  /** And every iteration that is reached and generates a block is the origin of one. */
  lemma {:induction false} EmittedCount(s: Scene, plan: seq<Iteration>, c: nat)
    requires ValidScene(s) && ValidPlan(plan)
    ensures |Emitted(s, plan, c)| == Sending(Reached(plan))
    decreases |plan|
  {
    hide BlockPayload, BlockFor;
    if plan != [] && !plan[0].Disconnect? {
      EmittedCount(s, plan[1..], if plan[0].Stall? then c else c + 1);
      assert Reached(plan)[1..] == Reached(plan[1..]);
    }
  }

  function Payloads(bs: seq<IQBlock>): seq<int16> {
    if bs == [] then [] else Payloads(bs[..|bs| - 1]) + bs[|bs| - 1].payload
  }

  /** Put end to end, uncorrupted blocks are one stretch of the waveform. */
  lemma {:induction false} StreamIsOneWaveform(s: Scene, bs: seq<IQBlock>, c: nat)
    requires ValidScene(s)
    requires forall i :: 0 <= i < |bs| ==> Continues(s, bs[i], c + i) && !bs[i].corrupt
    ensures Payloads(bs) == Slice(s, c * IQ_BLOCK_SAMPLES, |bs| * IQ_BLOCK_SAMPLES)
  {
    hide Layer;
    var n := |bs|;
    if n == 0 {
      assert Slice(s, c * IQ_BLOCK_SAMPLES, 0) == [];
    } else {
      StreamIsOneWaveform(s, bs[..n - 1], c);
      assert Continues(s, bs[n - 1], c + (n - 1));
      SliceConcat(s, c * IQ_BLOCK_SAMPLES, (n - 1) * IQ_BLOCK_SAMPLES, IQ_BLOCK_SAMPLES);
    }
  }

  // ---- the loops ----

  class ReceiverEmulator {
    const config: Scene
    var sequenceCounter: nat
    /** How many blocks have been generated, so where the random generator stands. */
    var generation: nat
    ghost var ends: nat

    ghost predicate Valid()
      reads this
    {
      ValidScene(config) && generation == sequenceCounter + ends
    }

    /** The scene as it is played until the next end-of-stream block. */
    ghost function Played(): Scene
      reads this
    {
      config.(ends := ends)
    }

    constructor (config: Scene)
      requires ValidScene(config)
      ensures Valid() && this.config == config && sequenceCounter == 0 && ends == 0
    {
      this.config := config;
      sequenceCounter, generation, ends := 0, 0, 0;
    }

    /** One signal added into a block: each sample's phase is the block's base phase plus the steps within it. */
    method SynthesiseSignal(payload: array<int16>, k: nat, blockIndex: nat)
      requires Valid() && k < |config.signals| && blockIndex == sequenceCounter
      requires payload[..] == Layer(Played(), blockIndex * IQ_BLOCK_SAMPLES, IQ_BLOCK_SAMPLES, k)
      modifies payload
      ensures payload[..] == Layer(Played(), blockIndex * IQ_BLOCK_SAMPLES, IQ_BLOCK_SAMPLES, k + 1)
    {
      hide Mixture, Layer, AddSignal, Progress, WithPair, ValidSignal;
      var g := config.signals[k];
      ghost var from := blockIndex * IQ_BLOCK_SAMPLES;
      ghost var was := Layer(Played(), from, IQ_BLOCK_SAMPLES, k);
      ghost var goal := Layer(Played(), from, IQ_BLOCK_SAMPLES, k + 1);
      ProgressEnds(goal, was);
      var i := 0;
      while i < IQ_BLOCK_SAMPLES
        invariant 0 <= i <= IQ_BLOCK_SAMPLES && payload.Length == 2 * IQ_BLOCK_SAMPLES
        invariant payload[..] == Progress(goal, was, i)
      {
        ProgressStep(payload[..], goal, was, i);
        LayerStep(Played(), from, k, i);
        var s := SampleOf(g, blockIndex, i, (payload[2 * i], payload[2 * i + 1]));
        PutPair(payload, 2 * i, s.0, s.1);
        i := i + 1;
      }
    }

    method PutPair(payload: array<int16>, j: nat, a: int16, b: int16)
      requires j + 1 < payload.Length
      modifies payload
      ensures payload[..] == WithPair(old(payload[..]), j, a, b)
    {
      payload[j], payload[j + 1] := a, b;
    }

    /** The body of the loop for sample `i` of block `blockIndex`. */
    method SampleOf(g: Signal, blockIndex: nat, i: nat, was: (int16, int16)) returns (s: (int16, int16))
      requires Valid() && ValidSignal(g) && blockIndex == sequenceCounter && i < IQ_BLOCK_SAMPLES
      ensures s == AddSignal(Played(), g, blockIndex * IQ_BLOCK_SAMPLES + i, was)
    {
      hide AddTurn, NoiseSample, PhasePerSample, Advance, Modulated;
      var from := blockIndex * IQ_BLOCK_SAMPLES;
      match g
      case Noise(draws) =>
        QuotientUnique(from + i, IQ_BLOCK_SAMPLES, blockIndex, i);
        s := NoiseSample(draws(generation, i));
      case Tone(centreHz, amplitude) =>
        var step := PhasePerSample(config.trig.pi, config.sampleRateHz, centreHz - config.centreHz);
        SplitPhase(step, from, i);
        s := AddTurn(config.trig, amplitude, Advance(step, from) + Advance(step, i), was);
      case Fm(centreHz, amplitude, deviationHz, modulationHz) =>
        var carrier := PhasePerSample(config.trig.pi, config.sampleRateHz, centreHz - config.centreHz);
        var mod := PhasePerSample(config.trig.pi, config.sampleRateHz, modulationHz);
        SplitPhase(carrier, from, i);
        SplitPhase(mod, from, i);
        var modPhase := Advance(mod, from) + Advance(mod, i);
        var phase := Modulated(Advance(carrier, from) + Advance(carrier, i), deviationHz, modulationHz,
                               config.trig.sin(modPhase));
        s := AddTurn(config.trig, amplitude, phase, was);
    }

    /** Every generation of a block, numbered or not, draws its own noise. */
    method GenerateBlock() returns (payload: array<int16>)
      requires Valid()
      modifies this`generation
      ensures fresh(payload) && payload[..] == BlockPayload(Played(), sequenceCounter)
      ensures generation == old(generation) + 1
    {
      hide Mixture, Layer;
      payload := new int16[2 * IQ_BLOCK_SAMPLES](_ => 0);
      SilentLayer(Played(), sequenceCounter * IQ_BLOCK_SAMPLES, IQ_BLOCK_SAMPLES, payload[..]);
      var k := 0;
      while k < |config.signals|
        invariant 0 <= k <= |config.signals| && fresh(payload) && Valid()
        invariant payload[..] == Layer(Played(), sequenceCounter * IQ_BLOCK_SAMPLES, IQ_BLOCK_SAMPLES, k)
      {
        SynthesiseSignal(payload, k, sequenceCounter);
        k := k + 1;
      }
      generation := generation + 1;
    }

    /** The stream loop, until it is stopped (the plan runs out) or disconnects. */
    method StreamLoop(plan: seq<Iteration>) returns (sent: seq<IQBlock>)
      requires Valid() && ValidPlan(plan)
      modifies this
      ensures Valid() && sent == Emitted(old(Played()), plan, old(sequenceCounter))
      ensures ends == old(ends) + if sent != [] && sent[|sent| - 1].endOfStream then 1 else 0
      ensures sequenceCounter + ends == old(sequenceCounter) + old(ends) + |sent|
    {
      hide BlockPayload, BlockFor;
      sent := [];
      ghost var s := Played();
      var i := 0;
      while i < |plan|
        invariant 0 <= i <= |plan| && ValidPlan(plan[i..]) && Valid() && Played() == s
        invariant sent + Emitted(s, plan[i..], sequenceCounter) == Emitted(s, plan, old(sequenceCounter))
        invariant sequenceCounter == old(sequenceCounter) + |sent|
        invariant forall k :: 0 <= k < |sent| ==> !sent[k].endOfStream
      {
        assert plan[i..][0] == plan[i] && plan[i..][1..] == plan[i + 1..];
        if plan[i].Disconnect? {
          var eos := GenerateBlock();
          sent := sent + [IQBlock(None, eos[..], false, false, true)];
          ends := ends + 1;
          return;
        }
        if !plan[i].Stall? {
          Numbered(s, plan[i], sequenceCounter);
          var b := NextBlock(plan[i]);
          ghost var rest := Emitted(s, plan[i + 1..], sequenceCounter);
          assert sent + ([b] + rest) == sent + [b] + rest;
          sent := sent + [b];
        }
        i := i + 1;
      }
    }

    /** Generate and number a block, then drop or corrupt it. */
    method NextBlock(it: Iteration) returns (b: IQBlock)
      requires Valid() && !it.Disconnect? && !it.Stall? && (it.Corrupt? ==> |it.garbage| == CORRUPT_ELEMENTS)
      modifies this`sequenceCounter, this`generation
      ensures Valid() && b == BlockFor(Played(), it, old(sequenceCounter))
      ensures b.dropped == it.Drop? && b.corrupt == it.Corrupt? && !b.endOfStream
      ensures b.sequenceNumber == Some(old(sequenceCounter))
      ensures it.Corrupt? ==> b.payload[..64] == it.garbage
      ensures sequenceCounter == old(sequenceCounter) + 1
    {
      hide BlockPayload;
      var payload := GenerateBlock();
      var number := sequenceCounter;
      sequenceCounter := sequenceCounter + 1;
      if it.Corrupt? {
        Spoil(payload, it.garbage);
      }
      b := IQBlock(Some(number), payload[..], it.Drop?, it.Corrupt?, false);
    }

    /** Overwrite the first elements with random values. */
    method Spoil(payload: array<int16>, garbage: seq<int16>)
      requires |garbage| == CORRUPT_ELEMENTS <= payload.Length
      modifies payload
      ensures payload[..] == garbage + old(payload[CORRUPT_ELEMENTS..])
    {
      ghost var was := payload[..];
      var i := 0;
      while i < CORRUPT_ELEMENTS
        invariant 0 <= i <= CORRUPT_ELEMENTS
        invariant payload[..] == garbage[..i] + was[i..]
      {
        payload[i] := garbage[i];
        i := i + 1;
      }
    }
  }

  lemma SplitPhase(step: real, from: nat, i: nat)
    ensures Advance(step, from) + Advance(step, i) == Advance(step, from + i)
  {
    assert (from + i) as real == from as real + i as real;
  }

  lemma Numbered(s: Scene, it: Iteration, c: nat)
    requires ValidScene(s) && !it.Disconnect? && !it.Stall? && (it.Corrupt? ==> |it.garbage| == CORRUPT_ELEMENTS)
    ensures !BlockFor(s, it, c).endOfStream
  {}

  /** Each sample of a layer is the sample below it with one more signal. */
  lemma LayerStep(s: Scene, from: nat, k: nat, i: nat)
    requires ValidScene(s) && k < |s.signals| && i < IQ_BLOCK_SAMPLES
    ensures var was, goal := Layer(s, from, IQ_BLOCK_SAMPLES, k), Layer(s, from, IQ_BLOCK_SAMPLES, k + 1);
      (goal[2 * i], goal[2 * i + 1]) == AddSignal(s, s.signals[k], from + i, (was[2 * i], was[2 * i + 1]))
  {
    hide AddSignal, Layer, ValidSignal;
    LayerAt(s, from, IQ_BLOCK_SAMPLES, k, i);
    LayerAt(s, from, IQ_BLOCK_SAMPLES, k + 1, i);
  }

  ghost function WithPair(p: seq<int16>, j: nat, a: int16, b: int16): seq<int16>
    requires j + 1 < |p|
  {
    p[..j] + [a, b] + p[j + 2..]
  }

  /** The payload while its first `i` samples have been replaced. */
  ghost function Progress(goal: seq<int16>, was: seq<int16>, i: nat): (r: seq<int16>)
    requires |goal| == |was| && 2 * i <= |was|
    ensures |r| == |was|
  {
    goal[..2 * i] + was[2 * i..]
  }

  lemma ProgressEnds(goal: seq<int16>, was: seq<int16>)
    requires |goal| == |was| && |was| % 2 == 0
    ensures Progress(goal, was, 0) == was && Progress(goal, was, |was| / 2) == goal
  {}

  lemma ProgressStep(now: seq<int16>, goal: seq<int16>, was: seq<int16>, i: nat)
    requires |goal| == |was| && 2 * i + 1 < |was| && now == Progress(goal, was, i)
    ensures now[2 * i] == was[2 * i] && now[2 * i + 1] == was[2 * i + 1]
    ensures WithPair(now, 2 * i, goal[2 * i], goal[2 * i + 1]) == Progress(goal, was, i + 1)
  {}

  lemma {:induction false} SilentLayer(s: Scene, from: nat, count: nat, p: seq<int16>)
    requires ValidScene(s) && |p| == 2 * count && forall i :: 0 <= i < |p| ==> p[i] == 0
    ensures p == Layer(s, from, count, 0)
  {
    if count > 0 {
      SilentLayer(s, from, count - 1, p[..2 * (count - 1)]);
    }
  }
}
