/** The thread that turns queued wideband blocks into audio. */
module ChannelWorkers {
  import opened ComplexNumbers
  import opened Trigonometry
  import opened Samples
  import opened FirDesign
  import opened Channelising
  import opened FmDemodulation
  import opened IqQueues
  import opened Division
  import opened Contracts

  const MAX_DEPTH: nat := 16

  predicate UsesDiscriminator(mode: Mode) {
    mode.NFM? || mode.FM?
  }

  function Silence(n: nat): (s: seq<real>)
    ensures |s| == n
  {
    seq(n, _ => 0.0)
  }

  /** The audio of a narrowband stream from a freshly started worker. */
  function Audio(mode: Mode, arg: Complex -> real, gain: real, narrow: seq<Complex>): (audio: seq<real>)
    ensures |audio| == |narrow|
  {
    if UsesDiscriminator(mode) then Demodulated(arg, gain, ONE, narrow) else Silence(|narrow|)
  }

  function Join(parts: seq<seq<real>>): seq<real> {
    if parts == [] then [] else Join(parts[..|parts| - 1]) + parts[|parts| - 1]
  }

  function ScaledAll(blocks: seq<seq<int16>>): (r: seq<seq<Complex>>)
    ensures |r| == |blocks|
    ensures forall i :: 0 <= i < |blocks| ==> r[i] == Scaled(blocks[i])
  {
    seq(|blocks|, i requires 0 <= i < |blocks| => Scaled(blocks[i]))
  }

  lemma {:induction false} FlattenSnoc(blocks: seq<seq<Complex>>, b: seq<Complex>)
    ensures Flatten(blocks + [b]) == Flatten(blocks) + b
  {
    if blocks == [] {
      assert Flatten([b]) == b + Flatten([b][1..]);
      assert Flatten([b][1..]) == [];
    } else {
      assert (blocks + [b])[1..] == blocks[1..] + [b];
      FlattenSnoc(blocks[1..], b);
    }
  }

  lemma {:induction false} RunOutputSnoc(t: Trig, inc: real, taps: seq<real>, d: nat, h: seq<Complex>,
                                         blocks: seq<seq<Complex>>, b: seq<Complex>)
    requires d > 0
    ensures RunOutput(t, inc, taps, d, h, blocks + [b])
         == RunOutput(t, inc, taps, d, h, blocks) + Received(t, inc, taps, d, h + Flatten(blocks), b)
    decreases |blocks|
  {
    hide Received;
    if blocks == [] {
      assert [b][1..] == [];
      assert RunOutput(t, inc, taps, d, h, [b])
          == Received(t, inc, taps, d, h, b) + RunOutput(t, inc, taps, d, h + b, [b][1..]);
      assert RunOutput(t, inc, taps, d, h + b, [b][1..]) == [];
      assert h + Flatten([]) == h;
    } else {
      assert (blocks + [b])[1..] == blocks[1..] + [b];
      RunOutputSnoc(t, inc, taps, d, h + blocks[0], blocks[1..], b);
      assert h + blocks[0] + Flatten(blocks[1..]) == h + Flatten(blocks);
    }
  }

  lemma ChainStep(t: Trig, inc: real, taps: seq<real>, d: nat, blocks: seq<seq<int16>>, block: seq<int16>)
    requires d > 0
    ensures Flatten(ScaledAll(blocks + [block])) == Flatten(ScaledAll(blocks)) + Scaled(block)
    ensures RunOutput(t, inc, taps, d, [], ScaledAll(blocks + [block]))
         == RunOutput(t, inc, taps, d, [], ScaledAll(blocks))
          + Received(t, inc, taps, d, Flatten(ScaledAll(blocks)), Scaled(block))
  {
    hide Received, Scaled, RunOutput, Flatten;
    RunOutputSnoc(t, inc, taps, d, [], ScaledAll(blocks), Scaled(block));
    FlattenSnoc(ScaledAll(blocks), Scaled(block));
    assert ScaledAll(blocks + [block]) == ScaledAll(blocks) + [Scaled(block)];
    assert [] + Flatten(ScaledAll(blocks)) == Flatten(ScaledAll(blocks));
  }

  lemma AudioStep(mode: Mode, arg: Complex -> real, gain: real, narrow: seq<Complex>, y: seq<Complex>)
    ensures Audio(mode, arg, gain, narrow + y) == Audio(mode, arg, gain, narrow)
      + if UsesDiscriminator(mode) then Demodulated(arg, gain, Before(ONE, narrow, |narrow|), y) else Silence(|y|)
    ensures Before(Before(ONE, narrow, |narrow|), y, |y|) == Before(ONE, narrow + y, |narrow + y|)
  {
    hide Demodulated;
    DemodulatedConcat(arg, gain, ONE, narrow, y);
  }

  lemma JoinSnoc(parts: seq<seq<real>>, p: seq<real>)
    ensures Join(parts + [p]) == Join(parts) + p
  {
    assert (parts + [p])[..|parts|] == parts;
  }

  ghost predicate EndsWith<T>(s: seq<T>, t: seq<T>) {
    |t| <= |s| && s[|s| - |t|..] == t
  }

  lemma EndsWithSnoc<T>(s: seq<T>, t: seq<T>, x: T)
    requires EndsWith(s, t)
    ensures EndsWith(s + [x], t + [x])
  {
    assert (s + [x])[|s| - |t|..] == s[|s| - |t|..] + [x];
  }

  /** Everything the worker's loop owns, and what it has done since it started. */
  class WorkerLoop {
    const mode: Mode
    const arg: Complex -> real
    const queue: IqQueue<seq<int16>>
    const channeliser: Channeliser
    const demodulator: FMDemodulator
    /** The blocks handed to the audio callback. */
    var delivered: seq<seq<real>>
    /** The blocks dequeued by this loop, and the narrowband stream they made. */
    ghost var blocks: seq<seq<int16>>
    ghost var narrow: seq<Complex>

    ghost predicate Valid()
      reads this, queue, channeliser, channeliser.delayLine, demodulator
    {
      && queue.Valid() && channeliser.Valid() && demodulator.arg == arg
      && channeliser.history == Flatten(ScaledAll(blocks))
      && narrow == RunOutput(channeliser.trig, channeliser.phaseIncrement, channeliser.firTaps,
                             channeliser.decimationFactor, [], ScaledAll(blocks))
      && (UsesDiscriminator(mode) ==> demodulator.prevSample == Before(ONE, narrow, |narrow|))
      && Join(delivered) == Audio(mode, arg, demodulator.gain, narrow)
      && |delivered| == |blocks|
      // what it has processed is what has been dequeued since it started
      && EndsWith(queue.AllTaken(), blocks)
    }

    constructor (c: Config, mode: Mode, deviationHz: real, t: Trig, sqrt: real -> real, arg: Complex -> real,
                 queue: IqQueue<seq<int16>>)
      requires t.Lawful() && sqrt(1.0) == 1.0 && queue.Valid()
      requires c.windowSampleRateHz > 0 && c.outputSampleRateHz > 0 && deviationHz != 0.0
      requires c.windowSampleRateHz % c.outputSampleRateHz == 0
      ensures Valid() && fresh(channeliser) && fresh(channeliser.delayLine) && fresh(demodulator)
      ensures this.queue == queue && this.mode == mode && this.arg == arg && delivered == [] && blocks == []
      ensures channeliser.trig == t && channeliser.phaseIncrement == Increment(t.pi, c)
      ensures channeliser.firTaps == ConfiguredTaps(t, sqrt, c)
      ensures channeliser.decimationFactor == Decimation(c)
      ensures t.pi > 0.0 && demodulator.gain == Gain(t.pi, deviationHz, c.outputSampleRateHz as real)
    {
      hide Trig.Lawful, Increment, ConfiguredTaps, Audio, Channeliser.Valid, IqQueue.Valid, RunOutput, Flatten,
        ScaledAll, EndsWith, Join;
      LawfulPi(t);
      var ch := new Channeliser(c, t, sqrt);
      var dm := new FMDemodulator(deviationHz, c.outputSampleRateHz as real, t, arg);
      this.mode, this.arg, this.queue := mode, arg, queue;
      channeliser, demodulator := ch, dm;
      delivered, blocks, narrow := [], [], [];
      new;
      ValidDecimation(channeliser);
      NothingYet(mode, arg, demodulator.gain, channeliser.trig, channeliser.phaseIncrement, channeliser.firTaps,
                 channeliser.decimationFactor, queue.AllTaken());
    }

    lemma QueueIsValid()
      requires Valid()
      ensures queue.Valid()
    {}

    /** What has been processed in between is what has been dequeued in between. */
    twostate predicate KeepsUp()
      requires queue.Valid() && old(queue.Valid())
      reads this, queue
    {
      && old(queue.AllTaken()) <= queue.AllTaken()
      && blocks == old(blocks) + queue.AllTaken()[|old(queue.taken)|..]
    }

    /** The body of the loop once the wait is over: stop for good, or process one block. */
    method Step() returns (running: bool)
      requires Valid() && queue.Current().Awake()
      modifies this`delivered, this`blocks, this`narrow, queue, channeliser`phaseAccumulator, channeliser`history,
        channeliser.delayLine, demodulator
      ensures Valid()
      ensures KeepsUp()
      ensures running == !old(queue.Current()).WorkerExits()
      ensures !running ==>
        delivered == old(delivered) && blocks == old(blocks) && queue.Current() == old(queue.Current())
      ensures running ==>
        && queue.Current() == old(queue.Current()).Take()
        && blocks == old(blocks) + [old(queue.queue)[0]] && delivered[..|delivered| - 1] == old(delivered)
    {
      if queue.closed && queue.queue == [] {
        return false;
      }
      ProcessBlock();
      return true;
    }

    method ProcessBlock()
      requires Valid() && queue.queue != []
      modifies this`delivered, this`blocks, this`narrow, queue, channeliser`phaseAccumulator, channeliser`history,
        channeliser.delayLine, demodulator
      ensures Valid() && KeepsUp()
      ensures queue.Current() == old(queue.Current()).Take()
      ensures blocks == old(blocks) + [old(queue.queue)[0]]
      ensures |delivered| > 0 && delivered[..|delivered| - 1] == old(delivered)
    {
      hide Channeliser.Valid, Received, Scaled, Demodulated, Interleave, Deinterleave, IqQueue.Valid, Join, Audio,
        RunOutput, Flatten, ScaledAll, EndsWith;
      var block := queue.Take();
      EndsWithSnoc(old(queue.AllTaken()), blocks, block);
      ValidDecimation(channeliser);
      ghost var y := Received(channeliser.trig, channeliser.phaseIncrement, channeliser.firTaps,
                              channeliser.decimationFactor, channeliser.history, Scaled(block));
      ChainStep(channeliser.trig, channeliser.phaseIncrement, channeliser.firTaps, channeliser.decimationFactor,
                blocks, block);
      AudioStep(mode, arg, demodulator.gain, narrow, y);
      var narrowIq := channeliser.Process(block);
      InterleaveRoundTrip(y);
      var audio;
      if mode == NFM || mode == FM {
        audio := demodulator.Demodulate(narrowIq);
      } else {
        audio := Silence(|narrowIq| / 2);
      }
      JoinSnoc(delivered, audio);
      delivered := delivered + [audio];
      blocks := blocks + [block];
      narrow := narrow + y;
    }

    /** The loop from a closed queue to its exit: nothing that was queued is left behind. */
    method Drain()
      requires Valid() && queue.closed
      modifies this`delivered, this`blocks, this`narrow, queue, channeliser`phaseAccumulator, channeliser`history,
        channeliser.delayLine, demodulator
      ensures Valid() && KeepsUp() && queue.Current().WorkerExits()
      ensures queue.submitted == old(queue.submitted) && queue.dropped == old(queue.dropped)
      ensures blocks == old(blocks) + old(queue.queue)
    {
      hide Valid, IqQueue.Valid;
      QueueIsValid();
      ghost var rest := queue.queue;
      ghost var n := 0;
      var running := true;
      assert queue.AllTaken()[|queue.taken|..] == [];
      while running
        invariant Valid() && queue.Valid() && queue.closed && KeepsUp()
        invariant queue.submitted == old(queue.submitted) && queue.dropped == old(queue.dropped)
        invariant 0 <= n <= |rest| && queue.queue == rest[n..]
        invariant blocks == old(blocks) + rest[..n]
        invariant !running ==> queue.queue == []
        decreases running, |queue.queue|
      {
        ghost var b, a := blocks, queue.AllTaken();
        running := Step();
        QueueIsValid();
        Chained(old(blocks), old(queue.AllTaken()), b, a, blocks, queue.AllTaken());
        if running {
          n := n + 1;
        }
      }
    }
  }

  lemma ValidDecimation(c: Channeliser)
    requires c.Valid()
    ensures c.decimationFactor > 0 && c.trig.Lawful()
  {}

  lemma NothingYet(mode: Mode, arg: Complex -> real, gain: real, t: Trig, inc: real, taps: seq<real>, d: nat,
                   taken: seq<seq<int16>>)
    requires d > 0
    ensures Join([]) == Audio(mode, arg, gain, [])
    ensures ScaledAll([]) == [] && Flatten([]) == [] && RunOutput(t, inc, taps, d, [], []) == []
    ensures EndsWith(taken, [])
  {}

  /** What was processed first and what was processed then make what was processed in all. */
  lemma Chained<T>(b0: seq<T>, a0: seq<T>, b1: seq<T>, a1: seq<T>, b2: seq<T>, a2: seq<T>)
    requires a0 <= a1 <= a2 && b1 == b0 + a1[|a0|..] && b2 == b1 + a2[|a1|..]
    ensures a0 <= a2 && b2 == b0 + a2[|a0|..]
  {}

  /** The rate of a default receiver window, and the audio rate of a channel that names none. */
  const DEFAULT_WINDOW_RATE: nat := 2048000
  const DEFAULT_AUDIO_RATE: nat := 48000

  /** So starting a worker at the default rates ends the process. */
  lemma DefaultRatesDoNotDivide(c: Config)
    requires c.windowSampleRateHz == DEFAULT_WINDOW_RATE && c.outputSampleRateHz == DEFAULT_AUDIO_RATE
    ensures c.windowSampleRateHz % c.outputSampleRateHz == 32000
  {}

  datatype Started = Launched | AlreadyStarted | ProcessAborts

  /** What may still happen between the closing of a queue and the thread's exit. */
  datatype Late = Submission(iq: seq<int16>) | Turn

  function Submissions(late: seq<Late>): seq<seq<int16>> {
    if late == [] then []
    else match late[|late| - 1]
      case Submission(iq) => Submissions(late[..|late| - 1]) + [iq]
      case Turn => Submissions(late[..|late| - 1])
  }

  lemma LateSubmission(late: seq<Late>, e: Late)
    ensures Submissions(late + [e]) == Submissions(late) + Submissions([e])
  {
    assert (late + [e])[..|late|] == late && [e][..0] == [];
  }

  /** A worker, its queue and the thread it may have. */
  class ChannelWorker {
    const config: Config
    const mode: Mode
    const deviationHz: real
    const trig: Trig
    const sqrt: real -> real
    const arg: Complex -> real
    const queue: IqQueue<seq<int16>>
    var active: bool
    /** The joinable thread, if there is one. */
    var loop: WorkerLoop?

    ghost predicate Valid()
      reads this, queue, if loop == null then {} else
        {loop, loop.queue, loop.channeliser, loop.channeliser.delayLine, loop.demodulator}
    {
      && queue.Valid() && queue.maxDepth == MAX_DEPTH
      && trig.Lawful() && sqrt(1.0) == 1.0 && deviationHz != 0.0
      && config.windowSampleRateHz > 0 && config.outputSampleRateHz > 0
      && (active ==> loop != null)
      && (loop != null ==> loop.queue == queue && loop.Valid())
    }

    constructor (config: Config, mode: Mode, deviationHz: real, trig: Trig, sqrt: real -> real, arg: Complex -> real)
      requires trig.Lawful() && sqrt(1.0) == 1.0 && deviationHz != 0.0
      requires config.windowSampleRateHz > 0 && config.outputSampleRateHz > 0
      ensures Valid() && fresh(queue) && queue.Current() == Empty() && queue.maxDepth == 16 && !active && loop == null
      ensures this.config == config
    {
      hide IqQueue.Valid;
      var q := new IqQueue(MAX_DEPTH);
      this.config, this.mode, this.deviationHz := config, mode, deviationHz;
      this.trig, this.sqrt, this.arg := trig, sqrt, arg;
      queue, active, loop := q, false, null;
    }

    /**
     * Refuses a second start. The new thread's first act is to build its
     * channeliser; where that throws nothing catches it, and the process ends.
     */
    method Start() returns (r: Started)
      requires Valid()
      modifies this
      ensures r.AlreadyStarted? <==> old(active)
      ensures r.ProcessAborts? <==> !old(active) && config.windowSampleRateHz % config.outputSampleRateHz != 0
      ensures !r.ProcessAborts? ==> Valid() && queue.Current() == old(queue.Current()) && active
      ensures r.AlreadyStarted? ==> loop == old(loop)
      ensures r.Launched? ==>
        fresh(loop) && loop.blocks == [] && loop.channeliser.decimationFactor == Decimation(config)
    {
      hide WorkerLoop.Valid, IqQueue.Valid, Decimation, Increment, ConfiguredTaps, Trig.Lawful, Gain;
      if active {
        return AlreadyStarted;
      }
      active := true;
      if config.windowSampleRateHz % config.outputSampleRateHz != 0 {
        return ProcessAborts;
      }
      loop := new WorkerLoop(config, mode, deviationHz, trig, sqrt, arg, queue);
      return Launched;
    }

    /** The thread has left with nothing in the queue but what was submitted after the first `exit` blocks. */
    ghost predicate Left(exit: nat)
      reads queue
    {
      && exit <= queue.Current().Head()
      && forall k :: 0 <= k < |queue.taken| ==> queue.taken[k].index < exit
    }

    /** So every block submitted before the exit was processed or dropped. */
    lemma LeftAccounts(exit: nat)
      requires queue.Valid() && Left(exit)
      ensures forall i :: 0 <= i < exit ==> WasTaken(queue.Current(), i) || i in queue.dropped
    {}

    lemma EmptyLeft()
      requires queue.Valid() && queue.queue == []
      ensures Left(|queue.submitted|)
    {}

    /** One late event. A thread that has left takes no more turns. */
    method LateEvent(e: Late, running: bool, ghost exit: nat) returns (still: bool, ghost exitNow: nat)
      requires Valid() && loop != null && queue.closed && exit <= |queue.submitted| && (!running ==> Left(exit))
      modifies queue, loop`delivered, loop`blocks, loop`narrow, loop.channeliser`phaseAccumulator,
        loop.channeliser`history, loop.channeliser.delayLine, loop.demodulator
      ensures Valid() && queue.closed && loop.KeepsUp()
      ensures queue.submitted == old(queue.submitted) + Submissions([e])
      ensures exit <= exitNow <= |queue.submitted| && (!still ==> Left(exitNow))
      ensures still == (running && (e.Turn? ==> old(queue.queue) != []))
      ensures e.Turn? ==> queue.queue == if still then old(queue.queue)[1..] else old(queue.queue)
    {
      hide IqQueue.Valid;
      assert [e][..0] == [];
      still, exitNow := running, exit;
      match e
      case Submission(iq) =>
        queue.Submit(iq);
      case Turn =>
        if running {
          still := loop.Step();
          if !still {
            EmptyLeft();
            exitNow := |queue.submitted|;
          }
        }
    }

    /** Submissions to a queue no thread reads. */
    method SubmitAll(late: seq<Late>)
      requires Valid() && loop == null
      modifies queue
      ensures Valid() && queue.closed == old(queue.closed) && (late == [] ==> queue.dropped == old(queue.dropped))
      ensures queue.submitted == old(queue.submitted) + Submissions(late)
    {
      hide IqQueue.Valid;
      var i := 0;
      while i < |late|
        invariant 0 <= i <= |late| && Valid() && queue.closed == old(queue.closed)
        invariant queue.submitted == old(queue.submitted) + Submissions(late[..i])
        invariant i == 0 ==> queue.dropped == old(queue.dropped)
      {
        assert late[..i + 1][..i] == late[..i];
        if late[i].Submission? {
          queue.Submit(late[i].iq);
        }
        i := i + 1;
      }
      assert late[..i] == late;
    }

    /** What happens to a closed queue according to a schedule; the thread may leave meanwhile. */
    method LateEvents(late: seq<Late>) returns (running: bool, ghost exit: nat)
      requires Valid() && loop != null && queue.closed
      modifies queue, loop`delivered, loop`blocks, loop`narrow, loop.channeliser`phaseAccumulator,
        loop.channeliser`history, loop.channeliser.delayLine, loop.demodulator
      ensures Valid() && queue.closed && loop.KeepsUp()
      ensures queue.submitted == old(queue.submitted) + Submissions(late)
      ensures |old(queue.submitted)| <= exit <= |queue.submitted| && (!running ==> Left(exit))
      ensures late == [] ==> running && queue.Current() == old(queue.Current()) && loop.blocks == old(loop.blocks)
    {
      hide IqQueue.Valid, Left, WorkerLoop.Valid;
      loop.QueueIsValid();
      running, exit := true, |queue.submitted|;
      assert queue.AllTaken()[|queue.taken|..] == [];
      var i := 0;
      while i < |late|
        invariant 0 <= i <= |late| && Valid() && queue.closed && loop.KeepsUp()
        invariant queue.submitted == old(queue.submitted) + Submissions(late[..i])
        invariant |old(queue.submitted)| <= exit <= |queue.submitted|
        invariant !running ==> Left(exit)
        invariant i == 0 ==> running && queue.Current() == old(queue.Current()) && loop.blocks == old(loop.blocks)
      {
        ghost var b, a := loop.blocks, queue.AllTaken();
        running, exit := LateEvent(late[i], running, exit);
        Chained(old(loop.blocks), old(queue.AllTaken()), b, a, loop.blocks, queue.AllTaken());
        LateSubmission(late[..i], late[i]);
        assert late[..i + 1] == late[..i] + [late[i]];
        i := i + 1;
      }
      assert late[..i] == late;
    }

    /** The thread leaves a closed queue while others may still submit. */
    method Leave(late: seq<Late>) returns (ghost exit: nat)
      requires Valid() && loop != null && queue.closed
      modifies queue, loop`delivered, loop`blocks, loop`narrow, loop.channeliser`phaseAccumulator,
        loop.channeliser`history, loop.channeliser.delayLine, loop.demodulator
      ensures Valid() && queue.closed && loop.KeepsUp()
      ensures queue.submitted == old(queue.submitted) + Submissions(late)
      ensures |old(queue.submitted)| <= exit <= |queue.submitted| && Left(exit)
      ensures late == [] ==>
        queue.dropped == old(queue.dropped) && queue.queue == [] && loop.blocks == old(loop.blocks) + old(queue.queue)
    {
      hide IqQueue.Valid, Left, WorkerLoop.Valid, Submissions;
      var running;
      running, exit := LateEvents(late);
      if running {
        ghost var b, a := loop.blocks, queue.AllTaken();
        loop.Drain();
        loop.QueueIsValid();
        Chained(old(loop.blocks), old(queue.AllTaken()), b, a, loop.blocks, queue.AllTaken());
        exit := |queue.submitted|;
        EmptyLeft();
      }
    }

    /** Close the queue and wait for the thread; blocks submitted before its exit are processed in order or dropped. */
    method Stop(late: seq<Late>) returns (ghost exit: nat)
      requires Valid()
      modifies this, queue, if loop == null then {} else
        {loop, loop.channeliser, loop.channeliser.delayLine, loop.demodulator}
      ensures Valid() && !active && queue.closed && loop == null
      ensures queue.submitted == old(queue.submitted) + Submissions(late)
      ensures old(loop) != null ==> |old(queue.submitted)| <= exit <= |queue.submitted| && Left(exit)
      ensures old(loop) != null ==> forall i :: 0 <= i < exit ==> WasTaken(queue.Current(), i) || i in queue.dropped
      ensures old(loop) != null ==> old(loop).KeepsUp() && |old(loop).delivered| == |old(loop).blocks|
      ensures late == [] ==> queue.dropped == old(queue.dropped)
      ensures late == [] && old(loop) != null ==>
        queue.queue == [] && old(loop).blocks == old(loop.blocks) + old(queue.queue)
    {
      hide IqQueue.Valid, Left;
      active := false;
      queue.Close();
      exit := 0;
      if loop == null {
        SubmitAll(late);
      } else {
        exit := Leave(late);
        LeftAccounts(exit);
      }
      loop := null;
    }

    method SubmitIqBlock(iq: seq<int16>)
      requires Valid()
      modifies queue
      ensures Valid() && queue.Current() == old(queue.Current()).Submit(16, iq)
    {
      hide IqQueue.Valid;
      queue.Submit(iq);
    }
  }

  /** The stream a worker has received in `blocks`, mixed, filtered and decimated as one block. */
  ghost function Narrow(w: WorkerLoop): seq<Complex>
    requires w.channeliser.decimationFactor > 0
    reads w
  {
    Received(w.channeliser.trig, w.channeliser.phaseIncrement, w.channeliser.firTaps, w.channeliser.decimationFactor,
             [], Flatten(ScaledAll(w.blocks)))
  }

  /**
   * What a worker does, end to end: whenever every dequeued block but the last
   * is a whole number of output samples, the audio delivered so far is that of
   * all of them processed as one block. In FM and NFM it is demodulated from
   * the initial sample 1, in every other mode it is silence of that length.
   */
  lemma WorkerMeaning(w: WorkerLoop)
    requires w.Valid() && w.channeliser.decimationFactor > 0
    requires Aligned(w.channeliser.decimationFactor, ScaledAll(w.blocks))
    ensures w.mode in {FM, NFM} ==>
      Join(w.delivered) == Demodulated(w.arg, w.demodulator.gain, ONE, Narrow(w))
    ensures w.mode in {AM, USB, LSB, RAW} ==>
      |Join(w.delivered)| == |Narrow(w)| && forall i :: 0 <= i < |Join(w.delivered)| ==> Join(w.delivered)[i] == 0.0
  {
    hide Received, Demodulated;
    RunIsOneCall(w.channeliser.trig, w.channeliser.phaseIncrement, w.channeliser.firTaps,
                 w.channeliser.decimationFactor, [], ScaledAll(w.blocks));
  }

  // ---- a carrier through the whole chain ----

  /** The turn per wideband sample of a carrier at `f` Hz. */
  function CarrierStep(pi: real, c: Config, f: real): real
    requires c.windowSampleRateHz > 0
  {
    2.0 * pi * (f - c.windowCentreHz as real) / c.windowSampleRateHz as real
  }

  /** The samples of a carrier at `f` Hz with complex amplitude `a`. */
  ghost predicate IsCarrier(t: Trig, c: Config, f: real, a: Complex, x: seq<Complex>)
    requires c.windowSampleRateHz > 0
  {
    forall i :: 0 <= i < |x| ==> x[i] == a.Times(Mixer(t, CarrierStep(t.pi, c, f), i))
  }

  /** Mixing leaves a rotation by the offset from the channel centre. */
  lemma MixedCarrier(t: Trig, inc: real, step: real, theta: real, a: Complex, x: seq<Complex>, i: nat)
    requires t.Lawful() && theta == step + inc && i < |x| && x[i] == a.Times(Mixer(t, step, i))
    ensures Mix(t, inc, x)[i] == a.Times(Mixer(t, theta, i))
  {
    hide Complex.Times, Trig.Cis, Trig.Lawful;
    TimesAssoc(a, Mixer(t, step, i), Mixer(t, inc, i));
    t.CisPlus(i as real * step, i as real * inc);
    t.CisSame(i as real * step + i as real * inc, i as real * theta);
  }

  lemma SteadyOutput(t: Trig, inc: real, step: real, theta: real, taps: seq<real>, a: Complex, x: seq<Complex>, j: nat)
    requires t.Lawful() && theta == step + inc && |taps| - 1 <= j < |x|
    requires forall i :: 0 <= i < |x| ==> x[i] == a.Times(Mixer(t, step, i))
    ensures Convolve(taps, Mix(t, inc, x), j) == a.Times(Mixer(t, theta, j)).Times(Response(t, taps, theta, |taps|))
  {
    hide Complex.Times, Trig.Cis, Trig.Lawful, Mix, Mixer, FirSum, Response;
    var m := Mix(t, inc, x);
    forall i | j - |taps| + 1 <= i <= j ensures At(m, i) == a.Times(Mixer(t, theta, i)) {
      MixedCarrier(t, inc, step, theta, a, x, i);
    }
    FirOfRotation(t, taps, m, a, theta, j, |taps|);
  }

  /** Two outputs `d` samples apart differ by the rotation over `d` samples, so the discriminator reads it. */
  lemma SteadyStep(t: Trig, theta: real, a: Complex, h: Complex, j: nat, d: nat, turn: real)
    requires t.Lawful() && turn == d as real * theta
    ensures a.Times(Mixer(t, theta, j + d)).Times(h).Times(a.Times(Mixer(t, theta, j)).Times(h).Conj())
         == t.Cis(turn).Scaled(a.Times(h).NormSq())
  {
    hide Complex.Times, Complex.Conj, Complex.Scaled, Complex.NormSq, Trig.Cis, Trig.Lawful;
    var u := Mixer(t, theta, j);
    var y := a.Times(u).Times(h);
    var v := t.Cis(turn);
    t.CisPlus(j as real * theta, turn);
    t.CisSame((j + d) as real * theta, j as real * theta + turn);
    // y' = y turned by v
    TimesAssoc(a, u, v);
    SwapLast(a.Times(u), v, h);
    // y' conj(y) = v |y|^2
    TimesCommutes(y, v);
    TimesAssoc(v, y, y.Conj());
    TimesConj(y);
    TimesReal(v, y.NormSq());
    // |y| = |a h|
    SwapLast(a, u, h);
    NormSqTimes(a.Times(h), u);
    MixerUnit(t, theta, j);
  }

  lemma SwapLast(a: Complex, b: Complex, c: Complex)
    ensures a.Times(b).Times(c) == a.Times(c).Times(b)
  {
    hide Complex.Times;
    TimesAssoc(a, b, c);
    TimesAssoc(a, c, b);
    TimesCommutes(b, c);
  }

  lemma TimesConj(y: Complex)
    ensures y.Times(y.Conj()) == Complex(y.NormSq(), 0.0)
  {}

  /** The hypotheses about a carrier and a worker tuned near it. */
  ghost predicate CarrierInChannel(t: Trig, c: Config, taps: seq<real>, f: real, a: Complex) {
    && c.windowSampleRateHz > 0 && c.outputSampleRateHz > 0
    && c.windowSampleRateHz % c.outputSampleRateHz == 0
    // within half the output rate of the channel centre
    && -(c.outputSampleRateHz as real) < 2.0 * (f - c.channelCentreHz as real) < c.outputSampleRateHz as real
    // and neither silent nor filtered out completely
    && a != ZERO
    && Response(t, taps, CarrierStep(t.pi, c, f) + Increment(t.pi, c), |taps|) != ZERO
  }

  lemma TurnPerOutput(t: Trig, c: Config, d: nat, f: real)
    requires t.pi > 0.0 && c.windowSampleRateHz > 0 && c.outputSampleRateHz > 0
    requires d * c.outputSampleRateHz == c.windowSampleRateHz
    requires -(c.outputSampleRateHz as real) < 2.0 * (f - c.channelCentreHz as real) < c.outputSampleRateHz as real
    ensures var turn := d as real * (CarrierStep(t.pi, c, f) + Increment(t.pi, c));
      && turn * c.outputSampleRateHz as real == 2.0 * t.pi * (f - c.channelCentreHz as real)
      && -t.pi < turn < t.pi
  {
    var r, o := c.windowSampleRateHz as real, c.outputSampleRateHz as real;
    var offset := f - c.channelCentreHz as real;
    var theta := CarrierStep(t.pi, c, f) + Increment(t.pi, c);
    StepSum(t.pi, r, f, c.windowCentreHz as real, c.channelCentreHz as real);
    assert theta * r == 2.0 * t.pi * offset;
    assert d as real * o == r;
    var turn := d as real * theta;
    assert turn * o == theta * r;
    HalfTurnBound(turn, o, t.pi, offset);
  }

  lemma StepSum(pi: real, r: real, f: real, w: real, c: real)
    requires r > 0.0
    ensures (2.0 * pi * (f - w) / r + -(2.0 * pi) * (c - w) / r) * r == 2.0 * pi * (f - c)
  {
    var p, q := 2.0 * pi * (f - w) / r, -(2.0 * pi) * (c - w) / r;
    assert p * r == 2.0 * pi * (f - w) && q * r == -(2.0 * pi) * (c - w);
  }

  lemma HalfTurnBound(turn: real, o: real, pi: real, offset: real)
    requires o > 0.0 && pi > 0.0 && turn * o == 2.0 * pi * offset && -o < 2.0 * offset < o
    ensures -pi < turn < pi
  {
    Positive(pi, o - 2.0 * offset, pi * (o - 2.0 * offset));
    Positive(pi, o + 2.0 * offset, pi * (o + 2.0 * offset));
    assert (pi - turn) * o > 0.0 && (pi + turn) * o > 0.0;
    Positive(turn - pi, o, (turn - pi) * o);
    Positive(-pi - turn, o, (-pi - turn) * o);
  }

  lemma AudioScale(turn: real, gain: real, o: real, pi: real, dev: real, offset: real)
    requires pi > 0.0 && gain * (2.0 * pi * dev) == o && turn * o == 2.0 * pi * offset
    ensures turn * gain * dev == offset
  {
    var v := turn * gain * dev;
    assert 2.0 * pi * v == turn * (gain * (2.0 * pi * dev));
    var z := 2.0 * pi;
    assert z * (v - offset) == 0.0;
    ZeroProduct(z, v - offset);
  }

  lemma AudioAt(mode: Mode, arg: Complex -> real, gain: real, out: seq<Complex>, k: nat)
    requires mode in {FM, NFM} && 1 <= k < |out|
    ensures Audio(mode, arg, gain, out)[k] == arg(out[k].Times(out[k - 1].Conj())) * gain
  {
    hide Complex.Times, Complex.Conj;
    assert Audio(mode, arg, gain, out)[k] == Discriminate(arg, gain, out[k - 1], out[k]);
  }

  /** The angle the discriminator reads between two outputs is the carrier's turn per output. */
  lemma CarrierAngle(t: Trig, arg: Complex -> real, c: Config, taps: seq<real>, f: real, a: Complex, x: seq<Complex>,
                     k: nat) returns (turn: real)
    requires t.Lawful() && ArgLaw(t, arg) && CarrierInChannel(t, c, taps, f, a) && IsCarrier(t, c, f, a, x)
    requires 1 <= k && |taps| - 1 <= (k - 1) * Decimation(c) && k * Decimation(c) < |x|
    ensures c.windowSampleRateHz > 0 && c.outputSampleRateHz > 0 && Decimation(c) > 0
    ensures turn * c.outputSampleRateHz as real == 2.0 * t.pi * (f - c.channelCentreHz as real)
    ensures var out := Received(t, Increment(t.pi, c), taps, Decimation(c), [], x);
      k < |out| && arg(out[k].Times(out[k - 1].Conj())) == turn
  {
    hide Complex.Times, Complex.Conj, Complex.Scaled, Complex.NormSq, Trig.Cis, Trig.Lawful, Increment, CarrierStep,
      Response, Mixer, ArgLaw, Received, Decimation;
    LawfulPi(t);
    var d := Decimation(c);
    var theta := CarrierStep(t.pi, c, f) + Increment(t.pi, c);
    var h := Response(t, taps, theta, |taps|);
    assert k * d == (k - 1) * d + d;
    CarrierOutput(t, c, taps, d, f, a, x, k - 1);
    CarrierOutput(t, c, taps, d, f, a, x, k);
    TurnPerOutput(t, c, d, f);
    turn := d as real * theta;
    SteadyStep(t, theta, a, h, (k - 1) * d, d, turn);
    NormSqSign(a.Times(h));
    if a.Times(h) == ZERO {
      TimesZero(a, h);
    }
    ArgOfTurn(t, arg, a.Times(h).NormSq(), turn);
  }

  /**
   * A carrier f Hz high, received by a worker tuned to a channel, comes out as
   * the constant (f - channel centre) / deviation once the delay line has filled.
   */
  lemma CarrierAudio(mode: Mode, t: Trig, arg: Complex -> real, deviationHz: real, c: Config, taps: seq<real>,
                     f: real, a: Complex, x: seq<Complex>, k: nat)
    requires mode in {FM, NFM}
    requires t.Lawful() && ArgLaw(t, arg) && CarrierInChannel(t, c, taps, f, a) && IsCarrier(t, c, f, a, x)
    requires deviationHz != 0.0
    requires 1 <= k && |taps| - 1 <= (k - 1) * Decimation(c) && k * Decimation(c) < |x|
    ensures t.pi > 0.0
    ensures var gain := Gain(t.pi, deviationHz, c.outputSampleRateHz as real);
      var audio := Audio(mode, arg, gain, Received(t, Increment(t.pi, c), taps, Decimation(c), [], x));
      k < |audio| && audio[k] * deviationHz == f - c.channelCentreHz as real
  {
    hide Complex.Times, Complex.Conj, Trig.Lawful, Increment, ArgLaw, Received, Gain, Decimation, Audio,
      CarrierInChannel, IsCarrier;
    LawfulPi(t);
    var turn := CarrierAngle(t, arg, c, taps, f, a, x, k);
    var gain := Gain(t.pi, deviationHz, c.outputSampleRateHz as real);
    var out := Received(t, Increment(t.pi, c), taps, Decimation(c), [], x);
    AudioAt(mode, arg, gain, out, k);
    TurnHeard(Audio(mode, arg, gain, out)[k], turn, gain, c.outputSampleRateHz as real, t.pi, deviationHz,
              f - c.channelCentreHz as real);
  }

  lemma TurnHeard(heard: real, turn: real, gain: real, o: real, pi: real, dev: real, offset: real)
    requires pi > 0.0 && gain * (2.0 * pi * dev) == o && turn * o == 2.0 * pi * offset && heard == turn * gain
    ensures heard * dev == offset
  {
    AudioScale(turn, gain, o, pi, dev, offset);
  }

  /** Output `k` of a worker receiving a carrier, once the delay line has filled. */
  lemma CarrierOutput(t: Trig, c: Config, taps: seq<real>, d: nat, f: real, a: Complex, x: seq<Complex>, k: nat)
    requires t.Lawful() && c.windowSampleRateHz > 0 && d > 0 && IsCarrier(t, c, f, a, x)
    requires |taps| - 1 <= k * d < |x|
    ensures var theta := CarrierStep(t.pi, c, f) + Increment(t.pi, c);
      var y := Received(t, Increment(t.pi, c), taps, d, [], x);
      k < |y| && y[k] == a.Times(Mixer(t, theta, k * d)).Times(Response(t, taps, theta, |taps|))
  {
    hide Complex.Times, Trig.Lawful, Increment, CarrierStep, BlockOutput, Convolve, Response, Mixer, Mix;
    var inc, step := Increment(t.pi, c), CarrierStep(t.pi, c, f);
    assert [] + x == x;
    BlockOutputAt(taps, d, Mix(t, inc, x), 0, |x|);
    OutputExists(k, |x|, d);
    SteadyOutput(t, inc, step, step + inc, taps, a, x, k * d);
  }

  lemma ArgOfTurn(t: Trig, arg: Complex -> real, r: real, phi: real)
    requires ArgLaw(t, arg) && r > 0.0 && -t.pi < phi < t.pi
    ensures arg(t.Cis(phi).Scaled(r)) == phi
  {
    assert ReadsAngle(t, arg, r, phi);
  }
}
