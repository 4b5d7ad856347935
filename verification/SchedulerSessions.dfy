/** What the limits on sessions bound, and what a session's tokens are worth. */
module SchedulerSessions {
  import opened Results
  import opened Contracts
  import opened AdmissionPolicy
  import opened SchedulerStates
  import opened SchedulerInvariants
  import opened SchedulerCapacity

  // ---- sessions over a run ----

  /** No run with at most `k` tunes in flight ever has more than `bound` sessions. */
  ghost predicate SessionBoundHolds(config: SchedulerConfig, k: nat, bound: int) {
    forall trace: seq<State>, steps: seq<Step>, i {:trigger IsRun(config, trace, steps), trace[i]} ::
      IsRun(config, trace, steps) && InFlight(trace, k) && 0 <= i < |trace| ==> |trace[i].sessions| <= bound
  }

  /** Or more than `bound` sessions on one channel. */
  ghost predicate ListenerBoundHolds(config: SchedulerConfig, k: nat, bound: int) {
    forall trace: seq<State>, steps: seq<Step>, i, c
      {:trigger IsRun(config, trace, steps), SessionsOf(trace[i].sessions, c)} ::
      IsRun(config, trace, steps) && InFlight(trace, k) && 0 <= i < |trace| ==>
        |SessionsOf(trace[i].sessions, c)| <= bound
  }

  /**
   * Neither the sessions of a run nor those of one channel have any bound,
   * whatever the configured limits, unless no tune is ever given a channel.
   */
  lemma SessionBoundExactly(config: SchedulerConfig, k: nat, bound: nat)
    ensures SessionBoundHolds(config, k, bound) <==> !Admits(config, k)
    ensures ListenerBoundHolds(config, k, bound) <==> !Admits(config, k)
  {
    if Admits(config, k) {
      var trace, steps := Crowd(config, k, bound + 1);
      assert IsRun(config, trace, steps) && InFlight(trace, k);
      CrowdCounts(trace[|steps|], bound + 1);
      assert |trace[|steps|].sessions| > bound;
      assert |SessionsOf(trace[|steps|].sessions, Name(0))| > bound;
    } else {
      forall trace: seq<State>, steps: seq<Step>, i
        | IsRun(config, trace, steps) && InFlight(trace, k) && 0 <= i < |trace|
        ensures trace[i].sessions == map[]
      {
        NothingAdmitted(config, trace, steps, k, i);
      }
      assert forall c :: SessionsOf(map[], c) == {};
    }
  }

  /** One active channel, without a waterfall, and `m` sessions on it. */
  ghost predicate Crowded(s: State, m: nat) {
    && Inv(s) && s.pending == map[] && s.channels.Keys == {Name(0)}
    && OwnWindow(s.channels[Name(0)], Name(0), false)
    && (forall x :: x in s.sessions ==> |x| < m && s.sessions[x].channelId == Name(0))
    && |s.sessions| == m
  }

  lemma CrowdCounts(s: State, m: nat)
    requires Crowded(s, m)
    ensures |s.sessions| == m && |SessionsOf(s.sessions, Name(0))| == m
  {
    hide Inv;
    assert SessionsOf(s.sessions, Name(0)) == s.sessions.Keys;
  }

  /** A tune for that channel is attached to it. */
  lemma TuneAttaches(config: SchedulerConfig, s: State, m: nat, wf: bool)
    requires Crowded(s, m)
    ensures var step := Tune(0, wf, 1, m);
      && Enabled(s, step)
      && TuneBegin(config, s, step.window, step.req, step.channelId, step.sessionId)
         == (Attach(s, Name(0), Name(m), SuspendedOf(Ask(wf))),
             AttachedOutcome(Name(0), Name(m), SuspendedOf(Ask(wf))))
  {
    hide Inv, Name;
    var step, d := Tune(0, wf, 1, m), DefinitionOf(Ask(wf));
    Different(0, 1);
    Different(0, m);
    ReusableFound(s.channels, s.order, Name(0), d);
    ChannelFacts(s, Name(0));
    assert Reusable(s.channels[Name(0)], Name(0), d);
  }

  lemma Different(a: nat, b: nat)
    ensures a != b ==> Name(a) != Name(b)
    ensures |Name(a)| == a && |Name(b)| == b
  {}

  lemma CrowdGrows(config: SchedulerConfig, s: State, m: nat)
    requires Crowded(s, m)
    ensures var step := Tune(0, false, 1, m);
      Enabled(s, step) && Crowded(Apply(config, s, step), m + 1)
  {
    hide Inv, Name, TuneBegin, Attach, Crowded;
    TuneAttaches(config, s, m, false);
    CrowdKeeps(s, m);
    StepKeeps(config, s, Tune(0, false, 1, m));
    OneMoreSession(s, m, SuspendedOf(Ask(false)));
  }

  lemma CrowdKeeps(s: State, m: nat)
    requires Crowded(s, m)
    ensures Inv(s)
  {}

  lemma OneMoreSession(s: State, m: nat, p: Suspended)
    requires Crowded(s, m) && Inv(Attach(s, Name(0), Name(m), p))
    ensures Crowded(Attach(s, Name(0), Name(m), p), m + 1)
  {
    hide Inv, Name;
    var r := Attach(s, Name(0), Name(m), p);
    Different(0, m);
    assert r.channels.Keys == s.channels.Keys;
    assert r.sessions.Keys == s.sessions.Keys + {Name(m)};
  }

  lemma CrowdStarts(s: State)
    requires Filled(s, 1, 0, false)
    ensures Crowded(s, 0)
  {
    hide Inv;
    FilledCounts(s, 1, 0, false);
    assert |s.channels.Keys| == 1;
    var c :| c in s.channels;
    assert |s.channels.Keys - {c}| == 0;
    assert c == Name(0);
    assert s.pending.Keys == {};
  }

  lemma {:induction false} Crowd(config: SchedulerConfig, k: nat, m: nat) returns (trace: seq<State>, steps: seq<Step>)
    requires Admits(config, k)
    ensures IsRun(config, trace, steps) && InFlight(trace, k) && Crowded(trace[|steps|], m)
    decreases m
  {
    hide Apply, Enabled, Filled, Tune, Crowded;
    if m == 0 {
      trace, steps := FillUp(config, 1, k, false);
      CrowdStarts(trace[|steps|]);
    } else {
      trace, steps := Crowd(config, k, m - 1);
      var s, step := trace[|steps|], Tune(0, false, 1, m - 1);
      CrowdGrows(config, s, m - 1);
      NothingPending(Apply(config, s, step), m);
      RunExtends(config, trace, steps, step, k);
      trace, steps := trace + [Apply(config, s, step)], steps + [step];
    }
  }

  lemma NothingPending(s: State, m: nat)
    requires Crowded(s, m)
    ensures |s.pending| == 0
  {}

  // ---- tokens ----

  /** A token is given for something the channel was set up with. */
  predicate TokensServed(channels: map<Id, Channel>, o: Outcome) {
    o.Attached? ==>
      && o.channelId in channels
      && (o.audioToken.Some? ==> channels[o.channelId].definition.audioRequested)
      && (o.waterfallToken.Some? ==> channels[o.channelId].definition.waterfallRequested)
  }

  /** What a step's caller is told. */
  function OutcomeOf(config: SchedulerConfig, s: State, step: Step): Option<Outcome>
    requires Enabled(s, step)
  {
    match step
    case Begin(w, req, c, n) => Some(TuneBegin(config, s, w, req, c, n).1)
    case Succeed(c, n) => Some(AttachedOutcome(c, n, s.pending[c]))
    case Fail(c) => Some(Refused(ProvisioningFailed))
    case Close(_) => None
  }

  ghost predicate HonestStep(config: SchedulerConfig, s: State, step: Step)
    requires Enabled(s, step)
  {
    var o := OutcomeOf(config, s, step);
    o.Some? ==> TokensServed(Apply(config, s, step).channels, o.value)
  }

  /** A suspended tune waits for the channel it asked for. */
  ghost predicate AskedFor(s: State) {
    forall id :: id in s.pending ==> id in s.channels && SameWishes(s.pending[id], s.channels[id].definition)
  }

  predicate SameWishes(p: Suspended, d: ChannelDefinition) {
    p.supportsAudio == d.audioRequested && p.supportsWaterfall == d.waterfallRequested
  }

  lemma AskedForKept(config: SchedulerConfig, s: State, step: Step)
    requires Inv(s) && Enabled(s, step) && AskedFor(s)
    ensures AskedFor(Apply(config, s, step))
  {
    hide Inv, Without;
    PendingStored(s);
  }

  lemma {:induction false} RunAskedFor(config: SchedulerConfig, trace: seq<State>, steps: seq<Step>, i: nat)
    requires IsRun(config, trace, steps) && i < |trace|
    ensures AskedFor(trace[i])
  {
    hide Inv, Apply, Enabled, AskedFor;
    if i == 0 {
      NobodyWaits();
    } else {
      RunAskedFor(config, trace, steps, i - 1);
      RunKeeps(config, trace, steps, i - 1);
      AskedForKept(config, trace[i - 1], steps[i - 1]);
    }
  }

  lemma NobodyWaits()
    ensures AskedFor(INITIAL)
  {}

  /** What a sharing tune wishes, the channel it is given was set up with. */
  predicate WishesMet(p: Suspended, d: ChannelDefinition) {
    && (p.supportsAudio ==> d.audioRequested)
    && (p.supportsWaterfall ==> d.waterfallRequested)
  }

  /** A tune that shares a channel shares one that was set up with what it wishes. */
  predicate SharesWell(config: SchedulerConfig, s: State, step: Step) {
    match step
    case Begin(w, req, c, n) =>
      var o := TuneBegin(config, s, w, req, c, n).1;
      o.Attached? ==>
        (o.channelId in s.channels && WishesMet(SuspendedOf(req), s.channels[o.channelId].definition))
    case _ => true
  }

  /**
   * In every run a tune that waited for its own channel gets tokens the
   * channel serves; one that shares a channel does exactly when the channel
   * was set up with what it wishes.
   */
  lemma HonestExactly(config: SchedulerConfig, trace: seq<State>, steps: seq<Step>, i: nat)
    requires IsRun(config, trace, steps) && i < |steps|
    ensures HonestStep(config, trace[i], steps[i]) <==> SharesWell(config, trace[i], steps[i])
  {
    hide Inv, Evaluate, FindReusable, Without;
    RunKeeps(config, trace, steps, i);
    RunAskedFor(config, trace, steps, i);
    var s, step := trace[i], steps[i];
    if step.Begin? && step.window.Some? {
      ReusableFound(s.channels, s.order, step.window.value.id, DefinitionOf(step.req));
    }
  }

  /** All tokens of all runs with at most `k` tunes in flight are served. */
  ghost predicate AlwaysHonest(config: SchedulerConfig, k: nat) {
    forall trace: seq<State>, steps: seq<Step>, i {:trigger IsRun(config, trace, steps), trace[i]} ::
      IsRun(config, trace, steps) && InFlight(trace, k) && 0 <= i < |steps| ==> HonestStep(config, trace[i], steps[i])
  }

  /** That is never so where channels are given out: the match of definitions ignores what was set up. */
  lemma AlwaysHonestExactly(config: SchedulerConfig, k: nat)
    ensures AlwaysHonest(config, k) <==> !Admits(config, k)
  {
    hide HonestStep, Inv, Apply, Enabled;
    if Admits(config, k) {
      var trace, steps := Misled(config, k);
      assert IsRun(config, trace, steps) && InFlight(trace, k);
      assert !HonestStep(config, trace[|steps| - 1], steps[|steps| - 1]);
    } else {
      forall trace: seq<State>, steps: seq<Step>, i
        | IsRun(config, trace, steps) && InFlight(trace, k) && 0 <= i < |steps|
        ensures HonestStep(config, trace[i], steps[i])
      {
        NothingAdmitted(config, trace, steps, k, i);
        assert Enabled(trace[i], steps[i]);
        NothingPromised(config, trace[i], steps[i]);
      }
    }
  }

  lemma NothingPromised(config: SchedulerConfig, s: State, step: Step)
    requires s.channels == map[] && s.pending == map[] && Enabled(s, step)
    ensures HonestStep(config, s, step)
  {
    hide Evaluate;
    if step.Begin? && step.window.Some? {
      ReusableFound(s.channels, s.order, step.window.value.id, DefinitionOf(step.req));
    }
  }

  /** A waterfall is asked of a channel set up without one. */
  lemma Misled(config: SchedulerConfig, k: nat) returns (trace: seq<State>, steps: seq<Step>)
    requires Admits(config, k)
    ensures IsRun(config, trace, steps) && InFlight(trace, k) && |steps| > 0
    ensures Enabled(trace[|steps| - 1], steps[|steps| - 1])
    ensures !HonestStep(config, trace[|steps| - 1], steps[|steps| - 1])
  {
    hide Apply, Enabled, Tune, Crowded, HonestStep;
    trace, steps := Crowd(config, k, 0);
    var s, step := trace[|steps|], Tune(0, true, 1, 0);
    Misleading(config, s);
    RunExtends(config, trace, steps, step, k);
    trace, steps := trace + [Apply(config, s, step)], steps + [step];
  }

  lemma Misleading(config: SchedulerConfig, s: State)
    requires Crowded(s, 0)
    ensures var step := Tune(0, true, 1, 0);
      Enabled(s, step) && |Apply(config, s, step).pending| == 0 && !HonestStep(config, s, step)
  {
    hide Inv, Name, TuneBegin;
    TuneAttaches(config, s, 0, true);
  }
}
