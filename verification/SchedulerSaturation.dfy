/** Channels are never given back: what that does to every run. */
module SchedulerSaturation {
  import opened Contracts
  import opened AdmissionPolicy
  import opened SchedulerStates
  import opened SchedulerInvariants
  import opened SchedulerCapacity

  /** Closing a session leaves its channel active, and with no listener exactly when it was the only session. */
  lemma IdleExactly(s: State, x: Id)
    requires Inv(s) && x in s.sessions
    ensures var c, r := s.sessions[x].channelId, CloseSession(s, x);
      && c in ActiveIds(r.channels)
      && (r.channels[c].listenerCount == 0 <==> SessionsOf(s.sessions, c) == {x})
  {
    var c, r := s.sessions[x].channelId, CloseSession(s, x);
    assert SessionOk(s, x);
    ClampNeverFires(s, x);
    assert ChannelOk(s, c);
    var on := SessionsOf(s.sessions, c);
    assert x in on;
    if |on| == 1 {
      assert |on - {x}| == 0;
    }
  }

  /** No step takes an active channel away. */
  lemma ActiveStays(config: SchedulerConfig, s: State, step: Step)
    requires Inv(s) && Enabled(s, step)
    ensures ActiveIds(s.channels) <= ActiveIds(Apply(config, s, step).channels)
  {
    hide Inv, Apply, Enabled;
    forall id | id in ActiveIds(s.channels) ensures id in ActiveIds(Apply(config, s, step).channels) {
      StatusStays(config, s, step, id);
    }
  }

  lemma StatusStays(config: SchedulerConfig, s: State, step: Step, id: Id)
    requires Inv(s) && Enabled(s, step) && id in s.channels && s.channels[id].status.Active?
    ensures var r := Apply(config, s, step).channels; id in r && r[id].status.Active?
  {
    hide Inv, Evaluate, FindReusable, Without;
    match step
    case Begin(w, req, c, n) =>
    case Succeed(c, n) =>
    case Fail(c) => ChannelFacts(s, id);
    case Close(x) =>
  }

  /** Over every run the active channels only grow. */
  lemma {:induction false} ActiveGrows(config: SchedulerConfig, trace: seq<State>, steps: seq<Step>, i: nat, j: nat)
    requires IsRun(config, trace, steps) && i <= j < |trace|
    ensures ActiveIds(trace[i].channels) <= ActiveIds(trace[j].channels)
    decreases j
  {
    hide Inv, Apply, Enabled, ActiveIds;
    if i < j {
      ActiveGrows(config, trace, steps, i, j - 1);
      RunKeeps(config, trace, steps, j - 1);
      ActiveStays(config, trace[j - 1], steps[j - 1]);
    }
  }

  /** No request, whatever it asks for, would be given a new channel. */
  ghost predicate Saturated(config: SchedulerConfig, s: State) {
    forall w, req, c, n {:trigger TuneBegin(config, s, w, req, c, n)} ::
      c !in s.channels && n !in s.sessions ==> !TuneBegin(config, s, w, req, c, n).1.Provisioning?
  }

  /** One of the two limits every new channel has to respect is reached. */
  predicate Full(config: SchedulerConfig, s: State) {
    |ActiveIds(s.channels)| >= config.maxUniqueChannels || |OpenIds(s.sessions)| >= config.maxTotalSessions
  }

  lemma AtLimit(config: SchedulerConfig, s: State)
    requires Inv(s) && Full(config, s)
    ensures Saturated(config, s)
  {
    hide Inv, TuneBegin;
    forall w, req, c, n | c !in s.channels && n !in s.sessions
      ensures !TuneBegin(config, s, w, req, c, n).1.Provisioning?
    {
      NoWindowRefused(config, s, w, req, c, n);
      if w.Some? {
        BeginDecision(config, s, w.value, req, c, n);
      }
    }
  }

  /** That is so exactly then. */
  lemma SaturatedExactly(config: SchedulerConfig, s: State)
    requires Inv(s)
    ensures Saturated(config, s) <==> Full(config, s)
  {
    hide Inv, TuneBegin;
    if Full(config, s) {
      AtLimit(config, s);
    } else {
      var step := Admittable(config, s);
      assert TuneBegin(config, s, step.window, step.req, step.channelId, step.sessionId).1.Provisioning?;
    }
  }

  /** Below the limits a quiet tune in a new window is admitted. */
  lemma Admittable(config: SchedulerConfig, s: State) returns (step: Step)
    requires Inv(s) && !Full(config, s)
    ensures step.Begin? && step.channelId !in s.channels && step.sessionId !in s.sessions
    ensures TuneBegin(config, s, step.window, step.req, step.channelId, step.sessionId).1.Provisioning?
  {
    hide Inv, TuneBegin;
    var windows := set id | id in s.channels :: s.channels[id].windowId;
    var n := LongerThan(windows + s.channels.Keys);
    var m := LongerThan(s.sessions.Keys);
    var tune := TuneInto(n, false);
    step := Begin(tune.window, tune.req, Name(n), Name(m));
    BeginDecision(config, s, step.window.value, step.req, step.channelId, step.sessionId);
    assert Shareable(s, Name(n), DefinitionOf(step.req)) == {};
  }

  lemma {:induction false} LongerThan(ids: set<Id>) returns (n: nat)
    ensures forall id :: id in ids ==> |id| < n
  {
    if ids == {} {
      n := 0;
    } else {
      var id :| id in ids;
      n := LongerThan(ids - {id});
      n := if |id| < n then n else |id| + 1;
    }
  }

  /** Once as many channels are active as the limit allows, no later tune of the run is ever given one. */
  lemma StaysSaturated(config: SchedulerConfig, trace: seq<State>, steps: seq<Step>, i: nat, j: nat)
    requires IsRun(config, trace, steps) && i <= j < |steps|
    requires |ActiveIds(trace[i].channels)| >= config.maxUniqueChannels
    ensures Saturated(config, trace[j]) && trace[j + 1].channels.Keys <= trace[j].channels.Keys
  {
    hide Inv, TuneBegin, ActiveIds, Enabled, Admissible;
    ActiveGrows(config, trace, steps, i, j);
    SubsetSize(ActiveIds(trace[i].channels), ActiveIds(trace[j].channels));
    RunKeeps(config, trace, steps, j);
    AtLimit(config, trace[j]);
    assert Enabled(trace[j], steps[j]);
    NothingAdded(config, trace[j], steps[j]);
  }

  lemma NothingAdded(config: SchedulerConfig, s: State, step: Step)
    requires Inv(s) && Enabled(s, step) && Saturated(config, s)
    ensures Apply(config, s, step).channels.Keys <= s.channels.Keys
  {
    hide Inv, Evaluate;
    if step.Begin? {
      var o := TuneBegin(config, s, step.window, step.req, step.channelId, step.sessionId);
      assert !o.1.Provisioning?;
    }
  }

  /** One tune at a time, every user gone again, is enough to get there: no channel left, and nobody listening. */
  lemma SaturatedByIdleChannels(config: SchedulerConfig) returns (trace: seq<State>, steps: seq<Step>)
    requires config.maxUniqueChannels >= 0 && config.maxTotalSessions >= 1
    ensures IsRun(config, trace, steps) && InFlight(trace, 1)
    ensures var s := trace[|steps|];
      s.sessions == map[] && |s.pending| == 0 && |ActiveIds(s.channels)| == config.maxUniqueChannels
      && Saturated(config, s)
  {
    hide Inv, Filled, ActiveIds, Saturated, Apply, Enabled;
    trace, steps := FillUp(config, config.maxUniqueChannels, 1, false);
    FilledCounts(trace[|steps|], config.maxUniqueChannels, 0, false);
    RunKeeps(config, trace, steps, |steps|);
    AtLimit(config, trace[|steps|]);
  }
}
