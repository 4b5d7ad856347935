/** How far interleaved tunes can overshoot the configured limits, and no further. */
module SchedulerCapacity {
  import opened Results
  import opened Contracts
  import opened AdmissionPolicy
  import opened SchedulerStates
  import opened SchedulerInvariants

  /** At most `k` tunes are suspended at any time. */
  ghost predicate InFlight(trace: seq<State>, k: nat) {
    forall i :: 0 <= i < |trace| ==> |trace[i].pending| <= k
  }

  function WaterfallChannels(s: State): set<Id> {
    set id | id in s.channels && s.channels[id].definition.waterfallRequested
  }

  /** The channels that could serve the same request. */
  function Matching(s: State, windowId: Id, d: ChannelDefinition): set<Id> {
    set id | id in s.channels && s.channels[id].windowId == windowId
      && s.channels[id].definition.frequencyHz == d.frequencyHz && s.channels[id].definition.mode == d.mode
      && s.channels[id].definition.bandwidthHz == d.bandwidthHz
  }

  lemma {:induction false} SubsetSize<T>(a: set<T>, b: set<T>)
    requires a <= b
    ensures |a| <= |b|
  {
    if a != {} {
      var x :| x in a;
      SubsetSize(a - {x}, b - {x});
    }
  }

  /** Stored channels are the active ones and the starting ones. */
  lemma ActiveOrStarting(s: State)
    requires Inv(s)
    ensures |s.channels| == |ActiveIds(s.channels)| + |s.pending|
  {
    hide Inv;
    forall id | id in s.channels ensures id in ActiveIds(s.channels) <==> id !in s.pending {
      ChannelFacts(s, id);
    }
    PendingStored(s);
    var a, p := ActiveIds(s.channels), s.pending.Keys;
    assert a !! p && s.channels.Keys == a + p;
    assert |a + p| == |a| + |p|;
  }

  /** The channels once a begun tune has stored its placeholder. */
  ghost function WithNewChannel(s: State, step: Step): map<Id, Channel>
    requires step.Begin? && step.window.Some?
  {
    s.channels[step.channelId := NewChannel(step.channelId, step.window.value.id, DefinitionOf(step.req))]
  }

  /** A step either stores one new channel, admitted against the active ones, or stores none. */
  lemma Admission(config: SchedulerConfig, s: State, step: Step) returns (added: bool)
    requires Inv(s) && Enabled(s, step)
    ensures var n := Apply(config, s, step);
      if added then
        && Admitted(config, s, n, step)
        && FindReusable(s.channels, s.order, step.window.value.id, DefinitionOf(step.req)).None?
      else
        && n.channels.Keys <= s.channels.Keys
        && forall id :: id in n.channels ==>
          n.channels[id].definition == s.channels[id].definition && n.channels[id].windowId == s.channels[id].windowId
  {
    hide Inv, FindReusable, DefinitionOf, SuspendedOf;
    added := step.Begin? && TuneBegin(config, s, step.window, step.req, step.channelId, step.sessionId).1.Provisioning?;
  }

  ghost predicate WithinCapacity(config: SchedulerConfig, s: State, k: nat) {
    && (s.channels == map[] || |s.channels| <= config.maxUniqueChannels - 1 + k)
    && (WaterfallChannels(s) == {} || |WaterfallChannels(s)| <= config.waterfallQuota - 1 + k)
  }

  lemma CapacityStep(config: SchedulerConfig, s: State, step: Step, k: nat)
    requires Inv(s) && Enabled(s, step) && WithinCapacity(config, s, k)
    requires |Apply(config, s, step).pending| <= k
    ensures WithinCapacity(config, Apply(config, s, step), k)
  {
    hide Apply, Inv, Evaluate, ActiveIds, WaterfallIds, WithNewChannel, Enabled, OpenIds;
    var n := Apply(config, s, step);
    var added := Admission(config, s, step);
    if added {
      ChannelAdmission(config, s, n, step);
      WaterfallAdmission(config, s, n, step);
    } else {
      SubsetSize(n.channels.Keys, s.channels.Keys);
      SubsetSize(WaterfallChannels(n), WaterfallChannels(s));
    }
  }

  /** What it takes for a step to have stored a new channel. */
  ghost predicate Admitted(config: SchedulerConfig, s: State, n: State, step: Step) {
    && step.Begin? && step.window.Some? && step.channelId !in s.channels
    && n.channels == WithNewChannel(s, step)
    && n.pending.Keys == s.pending.Keys + {step.channelId}
    && Admissible(config, PolicyContextOf(s, DefinitionOf(step.req), step.window.value))
  }

  lemma ChannelAdmission(config: SchedulerConfig, s: State, n: State, step: Step)
    requires Inv(s) && Admitted(config, s, n, step)
    ensures |n.channels| <= config.maxUniqueChannels - 1 + |n.pending|
  {
    hide Inv;
    ActiveOrStarting(s);
    PendingStored(s);
    assert n.channels.Keys == s.channels.Keys + {step.channelId};
    assert |n.channels.Keys| == |s.channels.Keys| + 1;
    assert |n.pending.Keys| == |s.pending.Keys| + 1;
  }

  lemma WaterfallAdmission(config: SchedulerConfig, s: State, n: State, step: Step)
    requires Inv(s) && Admitted(config, s, n, step)
    ensures DefinitionOf(step.req).waterfallRequested ==>
      |WaterfallChannels(n)| <= config.waterfallQuota - 1 + |n.pending|
    ensures !DefinitionOf(step.req).waterfallRequested ==> WaterfallChannels(n) == WaterfallChannels(s)
  {
    hide Inv;
    if DefinitionOf(step.req).waterfallRequested {
      forall id | id in WaterfallChannels(n) ensures id in WaterfallIds(s.channels) || id in n.pending {
        if id != step.channelId {
          ChannelFacts(s, id);
        }
      }
      SubsetSize(WaterfallChannels(n), WaterfallIds(s.channels) + n.pending.Keys);
      UnionSize(WaterfallIds(s.channels), n.pending.Keys);
    }
  }

  lemma UnionSize<T>(a: set<T>, b: set<T>)
    ensures |a + b| <= |a| + |b|
  {
    assert a + b == a + (b - a);
    SubsetSize(b - a, b);
  }

  /** Capacity over every run: with at most k tunes in flight the limits are overshot by at most k - 1. */
  lemma {:induction false} CapacityBound(config: SchedulerConfig, trace: seq<State>, steps: seq<Step>, k: nat, i: nat)
    requires IsRun(config, trace, steps) && InFlight(trace, k) && i < |trace|
    ensures WithinCapacity(config, trace[i], k)
  {
    hide WithinCapacity, Apply, Enabled;
    if i == 0 {
      NothingStored(config, k);
    } else {
      CapacityBound(config, trace, steps, k, i - 1);
      RunKeeps(config, trace, steps, i - 1);
      assert |trace[i].pending| <= k;
      CapacityStep(config, trace[i - 1], steps[i - 1], k);
    }
  }

  lemma NothingStored(config: SchedulerConfig, k: nat)
    ensures WithinCapacity(config, INITIAL, k)
  {}

  // ---- sharing ----

  /** A channel is added only when no active one matches, so every match is then suspended. */
  lemma AddedMatchesSuspended(config: SchedulerConfig, s: State, n: State, step: Step, w: Id, d: ChannelDefinition)
    requires Inv(s) && Admitted(config, s, n, step)
    requires step.window.value.id == w && DefinitionsMatch(DefinitionOf(step.req), d)
    requires FindReusable(s.channels, s.order, w, DefinitionOf(step.req)).None?
    ensures Matching(n, w, d) <= n.pending.Keys
  {
    hide Inv, Admissible, FindReusable;
    ReusableFound(s.channels, s.order, w, DefinitionOf(step.req));
    forall id | id in Matching(n, w, d) ensures id in n.pending {
      if id != step.channelId {
        ChannelFacts(s, id);
      }
    }
  }

  lemma SharingStep(config: SchedulerConfig, s: State, step: Step, k: nat, w: Id, d: ChannelDefinition)
    requires Inv(s) && Enabled(s, step) && |Matching(s, w, d)| <= k
    requires |Apply(config, s, step).pending| <= k
    ensures |Matching(Apply(config, s, step), w, d)| <= k
  {
    hide Apply, Inv, Evaluate, Enabled, FindReusable, Admissible;
    var n := Apply(config, s, step);
    var added := Admission(config, s, step);
    if added && step.window.value.id == w && DefinitionsMatch(DefinitionOf(step.req), d) {
      AddedMatchesSuspended(config, s, n, step, w, d);
      SubsetSize(Matching(n, w, d), n.pending.Keys);
    } else {
      SubsetSize(Matching(n, w, d), Matching(s, w, d));
    }
  }

  /** Sharing over every run: with at most k tunes in flight, at most k channels serve the same request. */
  lemma {:induction false} SharingBound(config: SchedulerConfig, trace: seq<State>, steps: seq<Step>, k: nat, i: nat,
                                        w: Id, d: ChannelDefinition)
    requires IsRun(config, trace, steps) && InFlight(trace, k) && i < |trace|
    ensures |Matching(trace[i], w, d)| <= k
  {
    hide Apply, Enabled, Matching;
    if i == 0 {
      NothingMatches(w, d);
    } else {
      SharingBound(config, trace, steps, k, i - 1, w, d);
      RunKeeps(config, trace, steps, i - 1);
      assert |trace[i].pending| <= k;
      SharingStep(config, trace[i - 1], steps[i - 1], k, w, d);
    }
  }

  lemma NothingMatches(w: Id, d: ChannelDefinition)
    ensures Matching(INITIAL, w, d) == {}
  {}

  /** So with one tune at a time the channel that is reused does not depend on the order of the store. */
  lemma ReuseIsOrderFree(config: SchedulerConfig, trace: seq<State>, steps: seq<Step>, i: nat,
                         order: seq<Id>, w: Id, d: ChannelDefinition)
    requires IsRun(config, trace, steps) && InFlight(trace, 1) && i < |trace|
    requires OrderOf(order, trace[i].channels.Keys)
    ensures FindReusable(trace[i].channels, order, w, d) == FindReusable(trace[i].channels, trace[i].order, w, d)
  {
    hide Apply, Enabled;
    var s := trace[i];
    SharingBound(config, trace, steps, 1, i, w, d);
    RunKeeps(config, trace, steps, i);
    ReusableFound(s.channels, order, w, d);
    ReusableFound(s.channels, s.order, w, d);
    var a, b := FindReusable(s.channels, order, w, d), FindReusable(s.channels, s.order, w, d);
    if a.Some? && b.Some? {
      assert a.value in Matching(s, w, d) && b.value in Matching(s, w, d);
      if a != b {
        SubsetSize({a.value, b.value}, Matching(s, w, d));
      }
    }
  }

  // ---- the bounds are reached ----

  /** No run with at most `k` tunes in flight ever stores more than `bound` channels. */
  ghost predicate BoundHolds(config: SchedulerConfig, k: nat, bound: int) {
    forall trace: seq<State>, steps: seq<Step>, i {:trigger IsRun(config, trace, steps), trace[i]} ::
      IsRun(config, trace, steps) && InFlight(trace, k) && 0 <= i < |trace| ==> |trace[i].channels| <= bound
  }

  /** Or more than `bound` channels with a waterfall. */
  ghost predicate WaterfallBoundHolds(config: SchedulerConfig, k: nat, bound: int) {
    forall trace: seq<State>, steps: seq<Step>, i {:trigger IsRun(config, trace, steps), trace[i]} ::
      IsRun(config, trace, steps) && InFlight(trace, k) && 0 <= i < |trace| ==> |WaterfallChannels(trace[i])| <= bound
  }

  /** Or more than `bound` channels that could serve one request. */
  ghost predicate SharingBoundHolds(config: SchedulerConfig, k: nat, bound: int) {
    forall trace: seq<State>, steps: seq<Step>, i, w, d
      {:trigger IsRun(config, trace, steps), Matching(trace[i], w, d)} ::
      IsRun(config, trace, steps) && InFlight(trace, k) && 0 <= i < |trace| ==> |Matching(trace[i], w, d)| <= bound
  }

  /** Whether any tune can be given a channel at all. */
  predicate Admits(config: SchedulerConfig, k: nat) {
    config.maxUniqueChannels >= 1 && config.maxTotalSessions >= 1 && k >= 1
  }

  /** Where none can, nothing is ever stored. */
  lemma {:induction false} NothingAdmitted(config: SchedulerConfig, trace: seq<State>, steps: seq<Step>, k: nat, i: nat)
    requires IsRun(config, trace, steps) && InFlight(trace, k) && i < |trace| && !Admits(config, k)
    ensures trace[i].channels == map[] && trace[i].sessions == map[] && trace[i].pending == map[]
  {
    hide Inv, Apply, Enabled, TuneBegin, FindReusable, Admitted;
    if i > 0 {
      NothingAdmitted(config, trace, steps, k, i - 1);
      RunKeeps(config, trace, steps, i - 1);
      RunKeeps(config, trace, steps, i);
      assert |trace[i].pending| <= k;
      var added := Admission(config, trace[i - 1], steps[i - 1]);
      if added {
        AdmittedMeans(config, trace[i - 1], trace[i], steps[i - 1]);
      }
      EmptyStore(trace[i]);
    }
  }

  lemma EmptyStore(s: State)
    requires Inv(s) && s.channels == map[]
    ensures s.sessions == map[] && s.pending == map[]
  {
    SessionsStored(s);
    PendingStored(s);
    assert s.sessions.Keys == {} && s.pending.Keys == {};
  }

  lemma SessionsStored(s: State)
    requires Inv(s)
    ensures forall x :: x in s.sessions ==> s.sessions[x].channelId in s.channels
  {
    forall x | x in s.sessions ensures s.sessions[x].channelId in s.channels {
      assert SessionOk(s, x);
    }
  }

  lemma AdmittedMeans(config: SchedulerConfig, s: State, n: State, step: Step)
    requires Admitted(config, s, n, step)
    ensures config.maxUniqueChannels >= 1 && config.maxTotalSessions >= 1 && |n.pending| >= 1
  {
    assert step.channelId in n.pending;
  }

  /** Where no waterfall is allowed, none is stored. */
  lemma {:induction false} NoWaterfall(config: SchedulerConfig, trace: seq<State>, steps: seq<Step>, i: nat)
    requires IsRun(config, trace, steps) && i < |trace| && config.waterfallQuota <= 0
    ensures WaterfallChannels(trace[i]) == {}
  {
    hide Inv, Apply, Enabled, TuneBegin, FindReusable, ActiveIds, OpenIds, WithNewChannel;
    if i > 0 {
      NoWaterfall(config, trace, steps, i - 1);
      RunKeeps(config, trace, steps, i - 1);
      var added := Admission(config, trace[i - 1], steps[i - 1]);
      if added {
        WaterfallAdmission(config, trace[i - 1], trace[i], steps[i - 1]);
      }
    }
  }

  function LeastChannels(config: SchedulerConfig, k: nat): int {
    if Admits(config, k) then config.maxUniqueChannels - 1 + k else 0
  }

  /**
   * The overshoot is real: with k tunes in flight the least bound on stored
   * channels is the limit plus k - 1, so the limit itself holds only for k = 1.
   */
  lemma BoundHoldsExactly(config: SchedulerConfig, k: nat, bound: int)
    ensures BoundHolds(config, k, bound) <==> LeastChannels(config, k) <= bound
  {
    if LeastChannels(config, k) <= bound {
      forall trace: seq<State>, steps: seq<Step>, i
        | IsRun(config, trace, steps) && InFlight(trace, k) && 0 <= i < |trace|
        ensures |trace[i].channels| <= bound
      {
        ChannelsAtMost(config, trace, steps, k, i);
      }
    } else if Admits(config, k) {
      var n := config.maxUniqueChannels - 1;
      var trace, steps := Overshoot(config, n, k, k, false);
      assert IsRun(config, trace, steps) && InFlight(trace, k);
      FilledCounts(trace[|steps|], n, k, false);
      assert |trace[|steps|].channels| > bound;
    } else {
      EmptyRun(config, k);
      assert |[INITIAL][0].channels| > bound;
    }
  }

  lemma EmptyRun(config: SchedulerConfig, k: nat)
    ensures IsRun(config, [INITIAL], []) && InFlight([INITIAL], k)
  {}

  lemma ChannelsAtMost(config: SchedulerConfig, trace: seq<State>, steps: seq<Step>, k: nat, i: nat)
    requires IsRun(config, trace, steps) && InFlight(trace, k) && i < |trace|
    ensures |trace[i].channels| <= LeastChannels(config, k)
  {
    hide Apply, Enabled;
    if Admits(config, k) {
      CapacityBound(config, trace, steps, k, i);
    } else {
      NothingAdmitted(config, trace, steps, k, i);
    }
  }

  function TighterLimit(config: SchedulerConfig): int {
    if config.maxUniqueChannels <= config.waterfallQuota then config.maxUniqueChannels else config.waterfallQuota
  }

  function LeastWaterfalls(config: SchedulerConfig, k: nat): int {
    if Admits(config, k) && config.waterfallQuota >= 1 then TighterLimit(config) - 1 + k else 0
  }

  /** The same for channels with a waterfall, under the tighter of their two limits. */
  lemma WaterfallBoundHoldsExactly(config: SchedulerConfig, k: nat, bound: int)
    ensures WaterfallBoundHolds(config, k, bound) <==> LeastWaterfalls(config, k) <= bound
  {
    if LeastWaterfalls(config, k) <= bound {
      forall trace: seq<State>, steps: seq<Step>, i
        | IsRun(config, trace, steps) && InFlight(trace, k) && 0 <= i < |trace|
        ensures |WaterfallChannels(trace[i])| <= bound
      {
        WaterfallsAtMost(config, trace, steps, k, i);
      }
    } else if Admits(config, k) && config.waterfallQuota >= 1 {
      var n := TighterLimit(config) - 1;
      var trace, steps := Overshoot(config, n, k, k, true);
      assert IsRun(config, trace, steps) && InFlight(trace, k);
      FilledCounts(trace[|steps|], n, k, true);
      assert |WaterfallChannels(trace[|steps|])| > bound;
    } else {
      EmptyRun(config, k);
      assert |WaterfallChannels([INITIAL][0])| > bound;
    }
  }

  lemma WaterfallsAtMost(config: SchedulerConfig, trace: seq<State>, steps: seq<Step>, k: nat, i: nat)
    requires IsRun(config, trace, steps) && InFlight(trace, k) && i < |trace|
    ensures |WaterfallChannels(trace[i])| <= LeastWaterfalls(config, k)
  {
    hide Apply, Enabled;
    if !Admits(config, k) {
      NothingAdmitted(config, trace, steps, k, i);
    } else if config.waterfallQuota <= 0 {
      NoWaterfall(config, trace, steps, i);
    } else {
      CapacityBound(config, trace, steps, k, i);
      SubsetSize(WaterfallChannels(trace[i]), trace[i].channels.Keys);
    }
  }

  /** And for channels that could serve one request: sharing fails as often as tunes overlap. */
  lemma SharingBoundHoldsExactly(config: SchedulerConfig, k: nat, bound: int)
    ensures SharingBoundHolds(config, k, bound) <==> (if Admits(config, k) then k else 0) <= bound
  {
    if (if Admits(config, k) then k else 0) <= bound {
      forall trace: seq<State>, steps: seq<Step>, i, w, d
        | IsRun(config, trace, steps) && InFlight(trace, k) && 0 <= i < |trace|
        ensures |Matching(trace[i], w, d)| <= bound
      {
        if Admits(config, k) {
          SharingBound(config, trace, steps, k, i, w, d);
        } else {
          NothingAdmitted(config, trace, steps, k, i);
          assert Matching(trace[i], w, d) == {};
        }
      }
    } else if Admits(config, k) {
      var trace, steps := Rush(config, k, k);
      assert IsRun(config, trace, steps) && InFlight(trace, k);
      assert |Matching(trace[|steps|], Name(0), DefinitionOf(Ask(false)))| > bound;
    } else {
      EmptyRun(config, k);
      assert |Matching([INITIAL][0], Name(0), DefinitionOf(Ask(false)))| > bound;
    }
  }

  function Name(n: nat): (id: Id)
    ensures |id| == n
  {
    seq(n, _ => 'x')
  }

  function Ask(wf: bool): TuneRequest {
    TuneRequest("", 0.5, NFM, None, None, Some(wf), Some(true))
  }

  /** A tune in a window, with a waterfall or without. */
  function Tune(window: nat, wf: bool, channel: nat, session: nat): Step {
    Begin(Some(ReceiverWindow(Name(window), "", 0.5, 1.0, 0.0, 1.0, 0.0, 0.0, Running)), Ask(wf),
          Name(channel), Name(session))
  }

  /** A tune in a window of its own. */
  function TuneInto(n: nat, wf: bool): Step {
    Tune(n, wf, n, 0)
  }

  /** `n` active channels in windows of their own, nobody listening, nothing suspended but `m` further tunes. */
  ghost predicate Filled(s: State, n: nat, m: nat, wf: bool) {
    && Inv(s) && s.sessions == map[]
    && (forall id :: id in s.channels ==> |id| < n + m && OwnWindow(s.channels[id], id, wf))
    && |ActiveIds(s.channels)| == n && |s.pending| == m
  }

  predicate OwnWindow(c: Channel, id: Id, wf: bool) {
    c.windowId == id && c.definition == DefinitionOf(Ask(wf))
  }

  /** Below the limits, with nothing to share, a tune stores its placeholder. */
  lemma TuneStores(config: SchedulerConfig, s: State, window: nat, wf: bool, channel: nat, session: nat)
    requires Inv(s) && Name(channel) !in s.channels && Name(session) !in s.sessions
    requires Shareable(s, Name(window), DefinitionOf(Ask(wf))) == {}
    requires |ActiveIds(s.channels)| < config.maxUniqueChannels && |OpenIds(s.sessions)| < config.maxTotalSessions
    requires wf ==> |WaterfallIds(s.channels)| < config.waterfallQuota
    ensures var step, c := Tune(window, wf, channel, session), Name(channel);
      && Enabled(s, step)
      && var r := Apply(config, s, step);
         && r.channels == s.channels[c := NewChannel(c, Name(window), DefinitionOf(Ask(wf)))]
         && r.pending.Keys == s.pending.Keys + {c} && r.sessions == s.sessions
  {
    hide Inv, Evaluate, Name, FindReusable;
    var step := Tune(window, wf, channel, session);
    BeginDecision(config, s, step.window.value, step.req, step.channelId, step.sessionId);
  }

  lemma TuneAdmitted(config: SchedulerConfig, s: State, n: nat, m: nat, wf: bool)
    requires Filled(s, n, m, wf) && n < config.maxUniqueChannels && config.maxTotalSessions >= 1
    requires wf ==> n < config.waterfallQuota
    ensures Enabled(s, TuneInto(n + m, wf))
    ensures var r := Apply(config, s, TuneInto(n + m, wf)); var c := Name(n + m);
      && c !in s.channels && r.channels == s.channels[c := NewChannel(c, c, DefinitionOf(Ask(wf)))]
      && r.pending.Keys == s.pending.Keys + {c} && r.sessions == s.sessions
  {
    hide Inv, Evaluate, Name, Apply, Enabled, DefinitionOf, Tune, Filled, ActiveIds, OpenIds, WaterfallIds, Shareable;
    FilledHasRoom(s, n, m, wf);
    TuneStores(config, s, n + m, wf, n + m, 0);
  }

  lemma FilledHasRoom(s: State, n: nat, m: nat, wf: bool)
    requires Filled(s, n, m, wf)
    ensures Inv(s) && s.sessions == map[] && Name(n + m) !in s.channels
    ensures |ActiveIds(s.channels)| == n && OpenIds(s.sessions) == {} && |WaterfallIds(s.channels)| <= n
    ensures Shareable(s, Name(n + m), DefinitionOf(Ask(wf))) == {}
  {
    hide Inv, DefinitionOf, DefinitionsMatch;
    SubsetSize(WaterfallIds(s.channels), ActiveIds(s.channels));
  }

  lemma TuneProvisions(config: SchedulerConfig, s: State, n: nat, m: nat, wf: bool)
    requires Filled(s, n, m, wf) && n < config.maxUniqueChannels && config.maxTotalSessions >= 1
    requires wf ==> n < config.waterfallQuota
    ensures Enabled(s, TuneInto(n + m, wf)) && Filled(Apply(config, s, TuneInto(n + m, wf)), n, m + 1, wf)
    ensures Name(n + m) in Apply(config, s, TuneInto(n + m, wf)).pending
  {
    hide Inv, Apply, Name, ActiveIds, Evaluate, TuneInto, Enabled, DefinitionOf;
    var c := Name(n + m);
    TuneAdmitted(config, s, n, m, wf);
    StepKeeps(config, s, TuneInto(n + m, wf));
    StartingNotActive(s.channels, c, NewChannel(c, c, DefinitionOf(Ask(wf))));
    assert |s.pending.Keys + {c}| == m + 1 by { PendingStored(s); }
  }

  lemma StartingNotActive(channels: map<Id, Channel>, id: Id, c: Channel)
    requires id !in channels && c.status.Starting?
    ensures ActiveIds(channels[id := c]) == ActiveIds(channels)
  {}

  /** One tune that is provisioned and then abandoned leaves an active channel behind. */
  lemma TuneSettles(config: SchedulerConfig, s: State, n: nat, wf: bool)
    requires Filled(s, n, 1, wf) && Name(n) in s.pending
    ensures var a := TuneSucceed(s, Name(n), Name(0));
      |a.pending| == 0 && Filled(CloseSession(a, Name(0)), n + 1, 0, wf)
  {
    hide Inv;
    var c := Name(n);
    var a := TuneSucceed(s, c, Name(0));
    var r := CloseSession(a, Name(0));
    SucceedKeeps(s, c, Name(0));
    CloseKeeps(a, Name(0));
    SingletonPending(s, c);
    PendingStored(s);
    ChannelFacts(s, c);
    assert r.sessions == map[];
    assert r.pending.Keys == {};
    assert r.channels.Keys == s.channels.Keys;
    SettledActive(s, r, c);
  }

  lemma SettledActive(s: State, r: State, c: Id)
    requires c in s.channels && !s.channels[c].status.Active? && r.channels.Keys == s.channels.Keys
    requires forall id :: id in s.channels ==>
      r.channels[id].status == if id == c then Active else s.channels[id].status
    ensures |ActiveIds(r.channels)| == |ActiveIds(s.channels)| + 1
  {
    assert ActiveIds(r.channels) == ActiveIds(s.channels) + {c};
  }

  lemma SingletonPending(s: State, c: Id)
    requires |s.pending| == 1 && c in s.pending
    ensures s.pending.Keys - {c} == {}
  {
    assert |s.pending.Keys - {c}| == 0;
  }

  lemma RunExtends(config: SchedulerConfig, trace: seq<State>, steps: seq<Step>, step: Step, k: nat)
    requires IsRun(config, trace, steps) && InFlight(trace, k) && Enabled(trace[|steps|], step)
    requires |Apply(config, trace[|steps|], step).pending| <= k
    ensures IsRun(config, trace + [Apply(config, trace[|steps|], step)], steps + [step])
    ensures InFlight(trace + [Apply(config, trace[|steps|], step)], k)
  {
    hide Apply, Enabled;
  }

  lemma {:induction false} FillUp(config: SchedulerConfig, n: nat, k: nat, wf: bool)
    returns (trace: seq<State>, steps: seq<Step>)
    requires n <= config.maxUniqueChannels && (wf ==> n <= config.waterfallQuota)
    requires config.maxTotalSessions >= 1 && k >= 1
    ensures IsRun(config, trace, steps) && InFlight(trace, k) && Filled(trace[|steps|], n, 0, wf)
  {
    hide Filled, TuneBegin, TuneSucceed, CloseSession, TuneInto;
    if n == 0 {
      trace, steps := [INITIAL], [];
      NothingFilled(wf);
    } else {
      trace, steps := FillUp(config, n - 1, k, wf);
      var s, step := trace[|steps|], TuneInto(n - 1, wf);
      TuneProvisions(config, s, n - 1, 0, wf);
      var a := Apply(config, s, step);
      FilledCounts(a, n - 1, 1, wf);
      RunExtends(config, trace, steps, step, k);
      trace, steps := trace + [a], steps + [step];
      TuneSettles(config, a, n - 1, wf);
      var b := TuneSucceed(a, Name(n - 1), Name(0));
      RunExtends(config, trace, steps, Succeed(Name(n - 1), Name(0)), k);
      trace, steps := trace + [b], steps + [Succeed(Name(n - 1), Name(0))];
      FilledCounts(CloseSession(b, Name(0)), n, 0, wf);
      RunExtends(config, trace, steps, Close(Name(0)), k);
      trace, steps := trace + [CloseSession(b, Name(0))], steps + [Close(Name(0))];
    }
  }

  lemma FilledCounts(s: State, n: nat, m: nat, wf: bool)
    requires Filled(s, n, m, wf)
    ensures |s.pending| == m && s.sessions == map[] && |s.channels| == n + m
    ensures wf ==> |WaterfallChannels(s)| == n + m
    ensures |ActiveIds(s.channels)| == n
  {
    ActiveOrStarting(s);
    if wf {
      assert WaterfallChannels(s) == s.channels.Keys;
    }
  }

  lemma NothingFilled(wf: bool)
    ensures Filled(INITIAL, 0, 0, wf)
  {
    assert ActiveIds(INITIAL.channels) == {};
  }

  /** With `n` active channels, below the limits, `m` concurrent tunes are all admitted. */
  lemma {:induction false} Overshoot(config: SchedulerConfig, n: nat, k: nat, m: nat, wf: bool)
    returns (trace: seq<State>, steps: seq<Step>)
    requires n < config.maxUniqueChannels && (wf ==> n < config.waterfallQuota)
    requires config.maxTotalSessions >= 1 && k >= 1 && m <= k
    ensures IsRun(config, trace, steps) && InFlight(trace, k) && Filled(trace[|steps|], n, m, wf)
    decreases m
  {
    hide Filled, Apply, Enabled;
    if m == 0 {
      trace, steps := FillUp(config, n, k, wf);
    } else {
      trace, steps := Overshoot(config, n, k, m - 1, wf);
      var s, step := trace[|steps|], TuneInto(n + (m - 1), wf);
      TuneProvisions(config, s, n, m - 1, wf);
      var a := Apply(config, s, step);
      FilledCounts(a, n, m, wf);
      RunExtends(config, trace, steps, step, k);
      trace, steps := trace + [a], steps + [step];
    }
  }

  // ---- a rush on one channel ----

  /** `m` tunes for one window and definition, all suspended. */
  ghost predicate Rushed(s: State, m: nat) {
    && Inv(s) && s.sessions == map[] && |s.pending| == m && s.pending.Keys == s.channels.Keys
    && forall id :: id in s.channels ==>
      |id| < m && s.channels[id].windowId == Name(0) && s.channels[id].definition == DefinitionOf(Ask(false))
  }

  lemma RushAdmitted(config: SchedulerConfig, s: State, m: nat, k: nat)
    requires Rushed(s, m) && Admits(config, k)
    ensures Enabled(s, Tune(0, false, m, 0))
    ensures var r := Apply(config, s, Tune(0, false, m, 0)); var c := Name(m);
      && c !in s.channels && r.channels == s.channels[c := NewChannel(c, Name(0), DefinitionOf(Ask(false)))]
      && r.pending.Keys == s.pending.Keys + {c} && r.sessions == s.sessions
  {
    hide Inv, Evaluate, Name, Apply, Enabled, DefinitionOf, DefinitionsMatch;
    assert Name(m) !in s.channels;
    forall id | id in s.channels ensures s.channels[id].status.Starting? {
      ChannelFacts(s, id);
    }
    assert OpenIds(s.sessions) == {} && ActiveIds(s.channels) == {};
    assert Shareable(s, Name(0), DefinitionOf(Ask(false))) == {};
    TuneStores(config, s, 0, false, m, 0);
  }

  lemma RushGrows(config: SchedulerConfig, s: State, m: nat, k: nat)
    requires Rushed(s, m) && Admits(config, k)
    ensures Enabled(s, Tune(0, false, m, 0)) && Rushed(Apply(config, s, Tune(0, false, m, 0)), m + 1)
  {
    hide Inv, Apply, Enabled, Name, Tune, DefinitionOf;
    RushAdmitted(config, s, m, k);
    StepKeeps(config, s, Tune(0, false, m, 0));
    assert |s.pending.Keys + {Name(m)}| == m + 1;
  }

  lemma {:induction false} Rush(config: SchedulerConfig, k: nat, m: nat) returns (trace: seq<State>, steps: seq<Step>)
    requires Admits(config, k) && m <= k
    ensures IsRun(config, trace, steps) && InFlight(trace, k) && Rushed(trace[|steps|], m)
    ensures |Matching(trace[|steps|], Name(0), DefinitionOf(Ask(false)))| == m
    decreases m
  {
    hide Apply, Enabled, Inv, Name, Tune;
    if m == 0 {
      trace, steps := [INITIAL], [];
      InitialInv();
      EmptyRun(config, k);
    } else {
      trace, steps := Rush(config, k, m - 1);
      var s, step := trace[|steps|], Tune(0, false, m - 1, 0);
      RushGrows(config, s, m - 1, k);
      RunExtends(config, trace, steps, step, k);
      trace, steps := trace + [Apply(config, s, step)], steps + [step];
    }
    AllMatch(trace[|steps|], m);
  }

  lemma AllMatch(s: State, m: nat)
    requires Rushed(s, m)
    ensures |Matching(s, Name(0), DefinitionOf(Ask(false)))| == m
  {
    hide Inv;
    assert Matching(s, Name(0), DefinitionOf(Ask(false))) == s.pending.Keys;
  }
}
