/** The waterfall worker: one line of spectrum for every so many blocks, to every subscriber. */
module Waterfalls {
  import opened Trigonometry
  import opened BitReversal
  import opened Samples
  import opened PowerSpectrum
  import opened IqQueues
  import opened Division

  const MAX_QUEUE: nat := 8
  const UINT32: nat := 0x1_0000_0000

  datatype WaterfallConfig = WaterfallConfig(fftSize: nat, updateRateHz: nat, windowSampleRateHz: nat)

  ghost predicate ValidConfig(c: WaterfallConfig) {
    && 2 <= c.fftSize < 0x8000_0000 && IsPow2(c.fftSize)
    // the divisor is a 32-bit product
    && c.fftSize * c.updateRateHz % UINT32 != 0
  }

  /** Blocks per line; zero when lines are due faster than blocks. */
  function BlocksPerLine(c: WaterfallConfig): nat
    requires c.fftSize * c.updateRateHz % UINT32 != 0
  {
    c.windowSampleRateHz / (c.fftSize * c.updateRateHz % UINT32)
  }

  /** How many blocks it really takes: at least one. */
  function Period(c: WaterfallConfig): (p: nat)
    requires c.fftSize * c.updateRateHz % UINT32 != 0
    ensures p >= 1
  {
    if BlocksPerLine(c) == 0 then 1 else BlocksPerLine(c)
  }

  /** The line, if any, made when the last of the given blocks is seen: one per period, if that block is long enough. */
  function NewLine(c: WaterfallConfig, t: Trig, log10: real -> real, seen: seq<seq<int16>>): seq<seq<real>>
    requires seen != [] && c.fftSize >= 2 && c.fftSize * c.updateRateHz % UINT32 != 0
  {
    var last := seen[|seen| - 1];
    if |seen| % Period(c) == 0 && 2 * c.fftSize <= |last| then [Decibels(t, c.fftSize, log10, last)] else []
  }

  /** All lines made while the worker saw the given blocks. */
  function Lines(c: WaterfallConfig, t: Trig, log10: real -> real, seen: seq<seq<int16>>): seq<seq<real>>
    requires c.fftSize >= 2 && c.fftSize * c.updateRateHz % UINT32 != 0
  {
    if seen == [] then [] else
      Lines(c, t, log10, seen[..|seen| - 1]) + NewLine(c, t, log10, seen)
  }

  /** Blocks the transform does not refuse. */
  ghost predicate Long(c: WaterfallConfig, seen: seq<seq<int16>>) {
    forall i :: 0 <= i < |seen| ==> 2 * c.fftSize <= |seen[i]|
  }

  /** When every block is long enough there is a line for every full period. */
  lemma {:induction false} LineCount(c: WaterfallConfig, t: Trig, log10: real -> real, seen: seq<seq<int16>>)
    requires c.fftSize >= 2 && c.fftSize * c.updateRateHz % UINT32 != 0 && Long(c, seen)
    ensures |Lines(c, t, log10, seen)| == |seen| / Period(c)
  {
    hide Decibels, Period;
    var n := |seen|;
    if n == 0 {
      SmallQuotient(0, Period(c));
    } else {
      LineCount(c, t, log10, seen[..n - 1]);
      QuotientStep(n - 1, Period(c));
    }
  }

  /** And each line is made from its period's last block. */
  lemma {:induction false} LineSource(c: WaterfallConfig, t: Trig, log10: real -> real, seen: seq<seq<int16>>, k: nat)
    requires c.fftSize >= 2 && c.fftSize * c.updateRateHz % UINT32 != 0 && Long(c, seen)
    requires k < |Lines(c, t, log10, seen)|
    ensures 0 <= (k + 1) * Period(c) - 1 < |seen|
    ensures Lines(c, t, log10, seen)[k] == Decibels(t, c.fftSize, log10, seen[(k + 1) * Period(c) - 1])
  {
    hide Decibels, Period;
    var n := |seen|;
    var before := seen[..n - 1];
    if k < |Lines(c, t, log10, before)| {
      LineSource(c, t, log10, before, k);
    } else {
      LineCount(c, t, log10, before);
      QuotientStep(n - 1, Period(c));
    }
  }

  // ---- the promised rates ----

  /** A period is the whole number of blocks nearest below the ratio of the rates, but never none. */
  lemma PeriodBounds(c: WaterfallConfig)
    requires c.fftSize * c.updateRateHz % UINT32 != 0
    ensures var due := c.fftSize * c.updateRateHz % 0x1_0000_0000;
      && BlocksPerLine(c) * due <= c.windowSampleRateHz < (BlocksPerLine(c) + 1) * due
      && (if c.windowSampleRateHz < due then Period(c) == 1
          else Period(c) * due <= c.windowSampleRateHz < (Period(c) + 1) * due)
      && (BlocksPerLine(c) <= 1 <==> c.windowSampleRateHz < 2 * due)
  {
    QuotientBounds(c.windowSampleRateHz, c.fftSize * c.updateRateHz % UINT32, BlocksPerLine(c));
  }

  lemma QuotientBounds(n: nat, d: nat, q: nat)
    requires d > 0 && q == n / d
    ensures q * d <= n < (q + 1) * d
    ensures q <= 1 <==> n < 2 * d
    ensures q == 0 <==> n < d
  {
    var r := n % d;
    assert n == q * d + r;
    if q >= 2 {
      assert (q - 2) * d >= 0;
    }
  }

  /** Every long block makes a line exactly when the quotient of the rates is at most 1. */
  lemma LinePerBlockExactly(c: WaterfallConfig, t: Trig, log10: real -> real)
    requires c.fftSize >= 2 && c.fftSize * c.updateRateHz % UINT32 != 0
    ensures (forall seen: seq<seq<int16>> :: Long(c, seen) ==> |Lines(c, t, log10, seen)| == |seen|)
       <==> c.windowSampleRateHz < 2 * (c.fftSize * c.updateRateHz % 0x1_0000_0000)
  {
    hide Lines, BlocksPerLine;
    PeriodBounds(c);
    forall seen: seq<seq<int16>> | Long(c, seen) ensures |Lines(c, t, log10, seen)| == |seen| / Period(c) {
      LineCount(c, t, log10, seen);
    }
    var one := Blocks(1, c.fftSize);
    assert Long(c, one);
    if BlocksPerLine(c) > 1 {
      SmallQuotient(1, Period(c));
      assert |Lines(c, t, log10, one)| == 0;
    } else {
      assert Period(c) == 1;
    }
  }

  /** `count` blocks of `samples` samples. */
  function Blocks(count: nat, samples: nat): (blocks: seq<seq<int16>>)
    ensures |blocks| == count && EachOf(blocks, samples)
  {
    seq(count, _ => seq(2 * samples, _ => 0))
  }

  predicate EachOf(blocks: seq<seq<int16>>, samples: nat) {
    forall i :: 0 <= i < |blocks| ==> |blocks[i]| == 2 * samples
  }

  /** `seen` holds the whole blocks of exactly `seconds` seconds. */
  predicate Lasts(c: WaterfallConfig, seen: seq<seq<int16>>, samples: nat, seconds: nat) {
    EachOf(seen, samples) && |seen| * samples == c.windowSampleRateHz * seconds
  }

  /** The rates fit together: blocks too short for a line will do only if they carry no time at all. */
  predicate RatesFit(c: WaterfallConfig, samples: nat)
    requires c.fftSize * c.updateRateHz % UINT32 != 0
  {
    if samples >= c.fftSize then c.updateRateHz * samples * Period(c) == c.windowSampleRateHz
    else samples == 0 && c.windowSampleRateHz > 0
  }

  /** Every whole number of seconds of a stream of such blocks has the configured number of lines. */
  ghost predicate RateKept(c: WaterfallConfig, t: Trig, log10: real -> real, samples: nat)
    requires c.fftSize >= 2 && c.fftSize * c.updateRateHz % UINT32 != 0
  {
    forall seen: seq<seq<int16>>, seconds: nat ::
      Lasts(c, seen, samples, seconds) ==> |Lines(c, t, log10, seen)| == c.updateRateHz * seconds
  }

  /** For blocks of any size that is so exactly when the rates fit. */
  lemma UpdateRateExactly(c: WaterfallConfig, t: Trig, log10: real -> real, samples: nat)
    requires c.fftSize >= 2 && c.fftSize * c.updateRateHz % UINT32 != 0
    ensures RateKept(c, t, log10, samples) <==> RatesFit(c, samples)
  {
    hide Lines, Period, RateKept, RatesFit;
    if samples < c.fftSize {
      ShortBlocks(c, t, log10, samples);
    } else if RatesFit(c, samples) {
      FittingRates(c, t, log10, samples);
    } else {
      MisfitRates(c, t, log10, samples);
    }
  }

  lemma FittingRates(c: WaterfallConfig, t: Trig, log10: real -> real, samples: nat)
    requires c.fftSize >= 2 && c.fftSize * c.updateRateHz % UINT32 != 0
    requires samples >= c.fftSize && RatesFit(c, samples)
    ensures RateKept(c, t, log10, samples)
  {
    hide Lines, Period;
    forall seen: seq<seq<int16>>, seconds: nat | Lasts(c, seen, samples, seconds)
      ensures |Lines(c, t, log10, seen)| == c.updateRateHz * seconds
    {
      LineCount(c, t, log10, seen);
      BlocksOfSeconds(|seen|, samples, c.updateRateHz, Period(c), seconds);
    }
  }

  lemma MisfitRates(c: WaterfallConfig, t: Trig, log10: real -> real, samples: nat)
    requires c.fftSize >= 2 && c.fftSize * c.updateRateHz % UINT32 != 0
    requires samples >= c.fftSize && !RatesFit(c, samples)
    ensures !RateKept(c, t, log10, samples)
  {
    hide Lines, Period;
    var p := Period(c);
    var seconds, count := samples * p, c.windowSampleRateHz * p;
    var seen := Blocks(count, samples);
    Regroup(c.windowSampleRateHz, p, samples, c.updateRateHz);
    assert Lasts(c, seen, samples, seconds);
    LineCount(c, t, log10, seen);
    QuotientUnique(count, p, c.windowSampleRateHz, 0);
  }

  lemma ShortBlocks(c: WaterfallConfig, t: Trig, log10: real -> real, samples: nat)
    requires c.fftSize >= 2 && c.fftSize * c.updateRateHz % UINT32 != 0 && samples < c.fftSize
    ensures RateKept(c, t, log10, samples) <==> RatesFit(c, samples)
  {
    hide Lines;
    forall seen: seq<seq<int16>> | EachOf(seen, samples) ensures Lines(c, t, log10, seen) == [] {
      NoLines(c, t, log10, seen, samples);
    }
    if samples == 0 && c.windowSampleRateHz > 0 {
      forall seen: seq<seq<int16>>, seconds: nat | Lasts(c, seen, samples, seconds) ensures seconds == 0 {
        ZeroFactor(c.windowSampleRateHz, seconds);
      }
    } else {
      var seconds := if samples == 0 then 1 else samples;
      var seen := Blocks(c.windowSampleRateHz, samples);
      assert Lasts(c, seen, samples, seconds);
      RateNotZero(c.fftSize, c.updateRateHz, seconds);
    }
  }

  lemma ZeroFactor(a: nat, b: nat)
    requires a > 0 && a * b == 0
    ensures b == 0
  {}

  lemma RateNotZero(size: nat, rate: nat, seconds: nat)
    requires size * rate % UINT32 != 0 && seconds > 0
    ensures rate * seconds > 0
  {}

  lemma {:induction false} NoLines(c: WaterfallConfig, t: Trig, log10: real -> real, seen: seq<seq<int16>>,
                                   samples: nat)
    requires c.fftSize >= 2 && c.fftSize * c.updateRateHz % UINT32 != 0
    requires samples < c.fftSize && EachOf(seen, samples)
    ensures Lines(c, t, log10, seen) == []
  {
    hide Decibels, Period;
    if seen != [] {
      NoLines(c, t, log10, seen[..|seen| - 1], samples);
    }
  }

  lemma BlocksOfSeconds(count: nat, samples: nat, rate: nat, p: nat, seconds: nat)
    requires samples > 0 && p > 0 && count * samples == rate * samples * p * seconds
    ensures count / p == rate * seconds
  {
    var lines := rate * seconds;
    assert rate * samples * p * seconds == samples * (lines * p);
    SameFactor(count, lines * p, samples);
    QuotientUnique(count, p, lines, 0);
  }

  lemma SameFactor(a: nat, b: nat, d: nat)
    requires d > 0 && a * d == d * b
    ensures a == b
  {}

  lemma Regroup(w: nat, p: nat, samples: nat, u: nat)
    ensures w * p * samples == w * (samples * p)
    ensures u * (samples * p) == u * samples * p
  {}

  /** The default rates: a hundred blocks per line, and with blocks of 65,536 samples far too few lines. */
  lemma DefaultRates(t: Trig, log10: real -> real)
    ensures var c := WaterfallConfig(1024, 20, 2048000);
      && BlocksPerLine(c) == 100
      && |Lines(c, t, log10, Blocks(2000, 65536))| == 20
      && Lasts(c, Blocks(2000, 65536), 65536, 64)
      && 20 < c.updateRateHz * 64
  {
    hide Lines;
    var c := WaterfallConfig(1024, 20, 2048000);
    assert c.fftSize * c.updateRateHz % UINT32 == 20480;
    LineCount(c, t, log10, Blocks(2000, 65536));
  }

  /** The worker's counter goes past the quotient of the rates exactly when a period ends. */
  lemma LineDue(c: WaterfallConfig, n: nat, counter: nat)
    requires c.fftSize * c.updateRateHz % UINT32 != 0 && n > 0 && counter == (n - 1) % Period(c)
    ensures counter + 1 < BlocksPerLine(c) <==> n % Period(c) != 0
    ensures n % Period(c) != 0 ==> n % Period(c) == counter + 1
  {
    hide BlocksPerLine;
    RemainderStep(n - 1, Period(c));
  }

  class WaterfallGenerator {
    const config: WaterfallConfig
    const log10: real -> real
    const fft: FFTProcessor
    const queue: IqQueue<seq<int16>>
    var blockCounter: nat
    /** What each subscriber's callback has been given. */
    var subscribers: map<nat, seq<seq<real>>>
    var nextSubId: nat
    ghost var seen: seq<seq<int16>>
    /** How many blocks had been seen when each subscriber joined. */
    ghost var since: map<nat, nat>

    /** The lines made while the first `n` blocks were seen. */
    ghost function Made(n: nat): seq<seq<real>>
      requires ValidConfig(config) && n <= |seen|
      reads this
    {
      Lines(config, fft.trig, log10, seen[..n])
    }

    /** A subscriber has been given what was made since it joined. */
    ghost predicate UpToDate(id: nat)
      requires ValidConfig(config)
      reads this
    {
      id in subscribers ==> id in since && since[id] <= |seen| && Made(since[id]) + subscribers[id] == Made(|seen|)
    }

    ghost predicate Valid()
      reads this, queue
    {
      && queue.Valid() && queue.maxDepth == MAX_QUEUE
      && ValidConfig(config) && LogLaw(log10)
      && fft.Valid() && fft.fftSize == config.fftSize && fft.trig.Lawful()
      && blockCounter == |seen| % Period(config)
      && nextSubId < UINT32
      && since.Keys == subscribers.Keys
      && forall id: nat :: UpToDate(id)
    }

    constructor (config: WaterfallConfig, t: Trig, log10: real -> real)
      requires ValidConfig(config) && LogLaw(log10) && t.Lawful()
      ensures Valid() && fresh(queue) && queue.Current() == Empty() && queue.maxDepth == 8
      ensures subscribers == map[] && seen == [] && nextSubId == 1
    {
      hide Trig.Lawful, LogLaw, Decibels;
      this.config, this.log10 := config, log10;
      fft := new FFTProcessor(config.fftSize, t);
      queue := new IqQueue(MAX_QUEUE);
      blockCounter, subscribers, nextSubId, seen, since := 0, map[], 1, [], map[];
      new;
      QuotientUnique(0, Period(config), 0, 0);
    }

    /** Subscription ids are drawn from a 32-bit counter. */
    method Subscribe() returns (id: nat)
      requires Valid()
      modifies this`subscribers, this`nextSubId, this`since
      ensures Valid() && id == old(nextSubId) && subscribers == old(subscribers)[id := []]
      ensures since == old(since)[id := |seen|]
      ensures nextSubId == (old(nextSubId) + 1) % UINT32
    {
      hide IqQueue.Valid, LogLaw, Trig.Lawful, Lines;
      id := nextSubId;
      nextSubId := (nextSubId + 1) % UINT32;
      subscribers := subscribers[id := []];
      since := since[id := |seen|];
      assert Made(|seen|) + [] == Made(|seen|);
      assert forall other: nat :: old(UpToDate(other)) ==> UpToDate(other);
    }

    method Unsubscribe(id: nat)
      requires Valid()
      modifies this`subscribers, this`since
      ensures Valid() && subscribers == old(subscribers) - {id} && since == old(since) - {id}
    {
      hide IqQueue.Valid, LogLaw, Trig.Lawful, Lines;
      subscribers := subscribers - {id};
      since := since - {id};
      assert forall other: nat :: old(UpToDate(other)) ==> UpToDate(other);
    }

    /** The line, if any, that the newest block adds goes to every current subscriber and to no one else. */
    twostate predicate LineDelivered()
      requires config.fftSize >= 2 && config.fftSize * config.updateRateHz % UINT32 != 0
      reads this
    {
      var line := if seen == old(seen) || seen == [] then [] else NewLine(config, fft.trig, log10, seen);
      && subscribers.Keys == old(subscribers).Keys
      && forall id :: id in subscribers ==> subscribers[id] == old(subscribers)[id] + line
    }

    /** Every subscriber that was up to date stays so when one block and its line are added. */
    twostate lemma StaysUpToDate(id: nat)
      requires ValidConfig(config) && old(UpToDate(id)) && LineDelivered() && since == old(since)
      requires |seen| == |old(seen)| + 1 && seen[..|old(seen)|] == old(seen)
      ensures UpToDate(id)
    {
      hide NewLine;
      if id in subscribers {
        var n, line := since[id], NewLine(config, fft.trig, log10, seen);
        assert seen[..n] == old(seen)[..n];
        assert old(seen)[..|old(seen)|] == old(seen) && seen[..|seen|] == seen;
        assert Made(n) + (old(subscribers)[id] + line) == Made(n) + old(subscribers)[id] + line;
      }
    }

    /** Counts the newest block and, if a line is due, gives it to every subscriber. */
    method Show(block: seq<int16>)
      requires ValidConfig(config) && LogLaw(log10) && fft.trig.Lawful()
      requires fft.Valid() && fft.fftSize == config.fftSize
      requires seen != [] && seen[|seen| - 1] == block && blockCounter == (|seen| - 1) % Period(config)
      modifies this`blockCounter, this`subscribers
      ensures blockCounter == |seen| % Period(config)
      ensures subscribers.Keys == old(subscribers).Keys
      ensures forall id :: id in subscribers ==>
        subscribers[id] == old(subscribers)[id] + NewLine(config, fft.trig, log10, seen)
    {
      hide Decibels, LogLaw, Trig.Lawful, IsPow2, FFTProcessor.Valid, BlocksPerLine, Period;
      LineDue(config, |seen|, blockCounter);
      blockCounter := blockCounter + 1;
      if blockCounter < BlocksPerLine(config) {
        return;
      }
      blockCounter := 0;
      var psd := fft.Compute(block, log10);
      if psd.Thrown? {
        return;
      }
      subscribers := map id | id in subscribers :: subscribers[id] + [psd.value];
    }

    /** One turn of the worker's loop once the wait is over. */
    method Step() returns (running: bool)
      requires Valid() && queue.Current().Awake()
      modifies this`blockCounter, this`subscribers, this`seen, queue
      ensures Valid()
      ensures running == !old(queue.Current()).WorkerExits()
      ensures !running ==>
        queue.Current() == old(queue.Current()) && seen == old(seen) && subscribers == old(subscribers)
      ensures running ==> queue.Current() == old(queue.Current()).Take() && seen == old(seen) + [old(queue.queue)[0]]
      ensures LineDelivered()
    {
      hide IqQueue.Valid, LogLaw, Trig.Lawful, UpToDate, Period, NewLine, FFTProcessor.Valid;
      if queue.closed && queue.queue == [] {
        return false;
      }
      var block := queue.Take();
      seen := seen + [block];
      assert seen[..|seen| - 1] == old(seen);
      Show(block);
      forall id: nat ensures UpToDate(id) {
        StaysUpToDate(id);
      }
      return true;
    }

    /** A subscriber has one line for every period that ended since it joined. */
    lemma SubscriberCount(id: nat)
      requires Valid() && id in subscribers && Long(config, seen)
      ensures |subscribers[id]| == |seen| / Period(config) - since[id] / Period(config)
    {
      hide IqQueue.Valid, LogLaw, Trig.Lawful, Lines, Period;
      assert UpToDate(id);
      LineCount(config, fft.trig, log10, seen[..since[id]]);
      LineCount(config, fft.trig, log10, seen[..|seen|]);
    }

    /** And its lines are the spectra of the last blocks of those periods, in order. */
    lemma SubscriberLine(id: nat, k: nat)
      requires Valid() && id in subscribers && Long(config, seen) && k < |subscribers[id]|
      ensures var last := (since[id] / Period(config) + k + 1) * Period(config) - 1;
        && since[id] <= last < |seen|
        && subscribers[id][k] == Decibels(fft.trig, config.fftSize, log10, seen[last])
    {
      hide IqQueue.Valid, LogLaw, Trig.Lawful, Lines, Period, Decibels;
      assert UpToDate(id);
      assert seen[..|seen|] == seen;
      var before := since[id] / Period(config);
      LineCount(config, fft.trig, log10, seen[..since[id]]);
      assert Made(|seen|)[before + k] == subscribers[id][k];
      LineSource(config, fft.trig, log10, seen, before + k);
      PeriodEnds(since[id], Period(config), k);
    }
  }

  lemma PeriodEnds(n: nat, p: nat, k: nat)
    requires p > 0
    ensures n < (n / p + k + 1) * p
  {
    assert n == n / p * p + n % p;
    assert (n / p + k + 1) * p == n / p * p + k * p + p;
  }
}
