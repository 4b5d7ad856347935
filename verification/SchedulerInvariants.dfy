/** What every interleaving of the scheduler's steps keeps. */
module SchedulerInvariants {
  import opened Results
  import opened Contracts
  import opened AdmissionPolicy
  import opened SchedulerStates

  // ---- listeners and sessions ----

  ghost predicate OrderOf(order: seq<Id>, keys: set<Id>) {
    && (forall id :: id in order <==> id in keys)
    && (forall i, j :: 0 <= i < j < |order| ==> order[i] != order[j])
  }

  /** A channel is starting while its tune is suspended, and active ever after. */
  ghost predicate ChannelOk(s: State, id: Id)
    requires id in s.channels
  {
    var c := s.channels[id];
    && c.id == id && c.reusable
    && (if id in s.pending then c.status.Starting? else c.status.Active?)
    // its listeners are exactly its sessions
    && c.listenerCount == |SessionsOf(s.sessions, id)|
  }

  /** Every session is open on a stored, active channel. */
  ghost predicate SessionOk(s: State, id: Id)
    requires id in s.sessions
  {
    var x := s.sessions[id];
    x.id == id && x.status.Open? && x.channelId in s.channels && x.channelId !in s.pending
  }

  ghost predicate Inv(s: State) {
    && OrderOf(s.order, s.channels.Keys)
    && s.pending.Keys <= s.channels.Keys
    && (forall id :: id in s.channels ==> ChannelOk(s, id))
    && (forall id :: id in s.sessions ==> SessionOk(s, id))
  }

  lemma ChannelFacts(s: State, id: Id)
    requires Inv(s) && id in s.channels
    ensures ChannelOk(s, id) && id in s.order
  {}

  lemma PendingStored(s: State)
    requires Inv(s)
    ensures s.pending.Keys <= s.channels.Keys
  {}

  lemma InitialInv()
    ensures Inv(INITIAL)
  {}

  lemma {:induction false} ReusableFound(channels: map<Id, Channel>, order: seq<Id>, windowId: Id, d: ChannelDefinition)
    ensures var r := FindReusable(channels, order, windowId, d);
      && (r.Some? ==> r.value in order && r.value in channels && Reusable(channels[r.value], windowId, d))
      && (r.None? ==> forall id :: id in order && id in channels ==> !Reusable(channels[id], windowId, d))
  {
    if order != [] {
      ReusableFound(channels, order[1..], windowId, d);
    }
  }

  /** The channel that is shared is the oldest that can be. */
  lemma {:induction false} OldestReusable(channels: map<Id, Channel>, order: seq<Id>, windowId: Id,
                                          d: ChannelDefinition)
    returns (i: nat)
    requires FindReusable(channels, order, windowId, d).Some?
    ensures i < |order| && FindReusable(channels, order, windowId, d) == Some(order[i])
    ensures order[i] in channels
    ensures var c := channels[order[i]];
      && c.windowId == windowId && c.reusable && c.status == Active && c.definition.frequencyHz == d.frequencyHz
      && c.definition.mode == d.mode && c.definition.bandwidthHz == d.bandwidthHz
    ensures forall j :: 0 <= j < i && order[j] in channels ==> var c := channels[order[j]];
      || c.windowId != windowId || !c.reusable || c.status != Active || c.definition.frequencyHz != d.frequencyHz
      || c.definition.mode != d.mode || c.definition.bandwidthHz != d.bandwidthHz
  {
    if order[0] in channels && Reusable(channels[order[0]], windowId, d) {
      i := 0;
    } else {
      var k := OldestReusable(channels, order[1..], windowId, d);
      i := k + 1;
      assert forall j :: 0 < j < i ==> order[j] == order[1..][j - 1];
    }
  }

  lemma SessionsAfterOpen(sessions: map<Id, Session>, x: Session, sessionId: Id, id: Id)
    requires sessionId !in sessions
    ensures |SessionsOf(sessions[sessionId := x], id)|
         == |SessionsOf(sessions, id)| + if x.channelId == id then 1 else 0
  {
    var was := SessionsOf(sessions, id);
    assert SessionsOf(sessions[sessionId := x], id) == if x.channelId == id then was + {sessionId} else was;
    assert sessionId !in was;
  }

  lemma AttachKeeps(s: State, channelId: Id, sessionId: Id, p: Suspended)
    requires Inv(s) && channelId in s.channels && channelId !in s.pending && sessionId !in s.sessions
    ensures Inv(Attach(s, channelId, sessionId, p))
  {
    var n := Attach(s, channelId, sessionId, p);
    var x := NewSession(sessionId, channelId, p);
    assert n.channels.Keys == s.channels.Keys;
    forall id | id in n.channels ensures ChannelOk(n, id) {
      assert ChannelOk(s, id);
      SessionsAfterOpen(s.sessions, x, sessionId, id);
    }
    forall id | id in n.sessions ensures SessionOk(n, id) {
      assert id == sessionId || SessionOk(s, id);
    }
  }

  lemma BeginKeeps(config: SchedulerConfig, s: State, w: Option<ReceiverWindow>, req: TuneRequest, c: Id, n: Id)
    requires Inv(s) && c !in s.channels && n !in s.sessions
    ensures Inv(TuneBegin(config, s, w, req, c, n).0)
  {
    if w.Some? {
      var d := DefinitionOf(req);
      ReusableFound(s.channels, s.order, w.value.id, d);
      var existing := FindReusable(s.channels, s.order, w.value.id, d);
      if existing.Some? {
        assert ChannelOk(s, existing.value);
        AttachKeeps(s, existing.value, n, SuspendedOf(req));
      } else {
        var r := TuneBegin(config, s, w, req, c, n).0;
        if r != s {
          forall id | id in r.channels ensures ChannelOk(r, id) {
            if id == c {
              NoSessionsOn(s, c);
            } else {
              assert ChannelOk(s, id);
            }
          }
          forall id | id in r.sessions ensures SessionOk(r, id) {
            assert SessionOk(s, id);
          }
        }
      }
    }
  }

  /** A channel that is not stored, or still starting, has no session. */
  lemma NoSessionsOn(s: State, id: Id)
    requires Inv(s) && (id !in s.channels || id in s.pending)
    ensures SessionsOf(s.sessions, id) == {}
  {
    forall x | x in s.sessions ensures s.sessions[x].channelId != id {
      assert SessionOk(s, x);
    }
  }

  lemma SucceedKeeps(s: State, c: Id, n: Id)
    requires Inv(s) && c in s.pending && n !in s.sessions
    ensures Inv(TuneSucceed(s, c, n))
  {
    var a := s.(channels := Activated(s.channels, c), pending := s.pending - {c});
    forall id | id in a.channels ensures ChannelOk(a, id) {
      assert ChannelOk(s, id);
    }
    forall id | id in a.sessions ensures SessionOk(a, id) {
      assert SessionOk(s, id);
    }
    assert a.channels.Keys == s.channels.Keys;
    AttachKeeps(a, c, n, s.pending[c]);
  }

  lemma {:induction false} WithoutMembers(order: seq<Id>, id: Id)
    requires forall i, j :: 0 <= i < j < |order| ==> order[i] != order[j]
    ensures var r := Without(order, id);
      && (forall x :: x in r <==> x in order && x != id)
      && (forall i, j :: 0 <= i < j < |r| ==> r[i] != r[j])
  {
    if order != [] && order[0] != id {
      var rest := order[1..];
      WithoutMembers(rest, id);
      var r := Without(order, id);
      forall x ensures x in r <==> x in order && x != id {
        assert x in order <==> x == order[0] || x in rest;
      }
      forall i, j | 0 <= i < j < |r| ensures r[i] != r[j] {
        if i == 0 {
          assert r[j] in Without(rest, id);
          assert order[0] !in rest;
        }
      }
    }
  }

  lemma FailKeeps(s: State, c: Id)
    requires Inv(s) && c in s.pending
    ensures Inv(TuneFail(s, c))
  {
    var n := TuneFail(s, c);
    WithoutMembers(s.order, c);
    forall id | id in n.channels ensures ChannelOk(n, id) {
      assert ChannelOk(s, id);
    }
    forall id | id in n.sessions ensures SessionOk(n, id) {
      assert SessionOk(s, id);
    }
  }

  lemma CloseKeeps(s: State, x: Id)
    requires Inv(s)
    ensures Inv(CloseSession(s, x))
  {
    if x in s.sessions {
      var n := CloseSession(s, x);
      assert SessionOk(s, x);
      var c := s.sessions[x].channelId;
      forall id | id in n.channels ensures ChannelOk(n, id) {
        assert ChannelOk(s, id);
        var was := SessionsOf(s.sessions, id);
        if id == c {
          assert x in was && SessionsOf(n.sessions, id) == was - {x};
        } else {
          assert SessionsOf(n.sessions, id) == was;
        }
      }
      forall id | id in n.sessions ensures SessionOk(n, id) {
        assert SessionOk(s, id);
      }
      assert n.channels.Keys == s.channels.Keys;
    }
  }

  lemma StepKeeps(config: SchedulerConfig, s: State, step: Step)
    requires Inv(s) && Enabled(s, step)
    ensures Inv(Apply(config, s, step))
  {
    hide Inv;
    match step
    case Begin(w, req, c, n) => BeginKeeps(config, s, w, req, c, n);
    case Succeed(c, n) => SucceedKeeps(s, c, n);
    case Fail(c) => FailKeeps(s, c);
    case Close(n) => CloseKeeps(s, n);
  }

  /** Listener conservation over every run. */
  lemma {:induction false} RunKeeps(config: SchedulerConfig, trace: seq<State>, steps: seq<Step>, i: nat)
    requires IsRun(config, trace, steps) && i < |trace|
    ensures Inv(trace[i])
  {
    hide Inv, Apply, Enabled;
    if i == 0 {
      InitialInv();
    } else {
      RunKeeps(config, trace, steps, i - 1);
      StepKeeps(config, trace[i - 1], steps[i - 1]);
    }
  }

  // ---- what the invariant means for single steps ----

  /** A failed tune removes a channel nobody listens to, and touches nothing else. */
  lemma FailureIsClean(s: State, c: Id)
    requires Inv(s) && c in s.pending
    ensures s.channels[c].listenerCount == 0 && SessionsOf(s.sessions, c) == {}
    ensures TuneFail(s, c).sessions == s.sessions
  {
    assert ChannelOk(s, c);
    NoSessionsOn(s, c);
  }

  /** The clamp at zero never fires: a session being closed is still counted by its channel. */
  lemma ClampNeverFires(s: State, x: Id)
    requires Inv(s) && x in s.sessions
    ensures var c := s.sessions[x].channelId;
      && c in s.channels && s.channels[c].listenerCount >= 1
      && CloseSession(s, x).channels[c].listenerCount == s.channels[c].listenerCount - 1
  {
    assert SessionOk(s, x);
    var c := s.sessions[x].channelId;
    assert ChannelOk(s, c);
    assert x in SessionsOf(s.sessions, c);
    if |SessionsOf(s.sessions, c)| == 0 {
      assert false;
    }
  }

  /** The active channels that could serve a request. */
  function Shareable(s: State, windowId: Id, d: ChannelDefinition): set<Id> {
    set id | id in s.channels && s.channels[id].status.Active? && s.channels[id].windowId == windowId
      && DefinitionsMatch(s.channels[id].definition, d)
  }

  lemma BeginDecision(config: SchedulerConfig, s: State, w: ReceiverWindow, req: TuneRequest, c: Id, n: Id)
    requires Inv(s) && c !in s.channels && n !in s.sessions
    ensures var (r, o), shareable := TuneBegin(config, s, Some(w), req, c, n), Shareable(s, w.id, DefinitionOf(req));
      && (o.Attached? <==> shareable != {})
      && (o.Attached? ==> o.channelId in shareable)
      && (o.Provisioning? <==> shareable == {} && Admissible(config, PolicyContextOf(s, DefinitionOf(req), w)))
      && (shareable == {} ==>
        var verdict := Evaluate(config, PolicyContextOf(s, DefinitionOf(req), w));
        o == if verdict.Denied? then Refused(ByPolicy(verdict.reason)) else Provisioning(c))
  {
    var d := DefinitionOf(req);
    ReusableFound(s.channels, s.order, w.id, d);
    forall id | id in s.channels ensures id in Shareable(s, w.id, d) <==> Reusable(s.channels[id], w.id, d) {
      ChannelFacts(s, id);
    }
    var existing := FindReusable(s.channels, s.order, w.id, d);
    if existing.Some? {
      assert existing.value in Shareable(s, w.id, d);
    } else {
      forall id | id in s.channels ensures id !in Shareable(s, w.id, d) {
        ChannelFacts(s, id);
      }
      assert Shareable(s, w.id, d) == {};
    }
  }

  /**
   * What a tune decides: a request shares a channel whenever an active one of
   * its window has its frequency, mode and bandwidth, and only otherwise is it
   * held against the limits, in their order.
   */
  lemma TuneDecision(config: SchedulerConfig, s: State, w: Option<ReceiverWindow>, req: TuneRequest, c: Id, n: Id)
    requires Inv(s) && c !in s.channels && n !in s.sessions
    ensures var (r, o) := TuneBegin(config, s, w, req, c, n);
      && (o.Refused? ==> r == s)
      && (o == Refused(NoWindow) <==> w.None?)
      && (w.Some? ==>
        var bandwidth := if req.bandwidthHz.Some? then req.bandwidthHz.value else 12500.0;
        var matching := set id | id in s.channels && s.channels[id].status == Active
          && s.channels[id].windowId == w.value.id && s.channels[id].definition.frequencyHz == req.frequencyHz
          && s.channels[id].definition.mode == req.mode && s.channels[id].definition.bandwidthHz == bandwidth;
        var active := set id | id in s.channels && s.channels[id].status == Active;
        var waterfalls := set id | id in active && s.channels[id].definition.waterfallRequested;
        && (o.Attached? <==> matching != {})
        && (o.Attached? ==> o.channelId in matching)
        && (matching == {} ==>
          o == if !(w.value.serviceMinFrequencyHz <= req.frequencyHz <= w.value.serviceMaxFrequencyHz)
                 then Refused(ByPolicy(OutsideWindow))
               else if |active| >= config.maxUniqueChannels then Refused(ByPolicy(ChannelLimit))
               else if |s.sessions| >= config.maxTotalSessions then Refused(ByPolicy(SessionLimit))
               else if req.waterfallRequested != Some(false) && |waterfalls| >= config.waterfallQuota
                 then Refused(ByPolicy(WaterfallQuota))
               else Provisioning(c)))
  {
    hide Inv, TuneBegin;
    NoWindowRefused(config, s, w, req, c, n);
    if w.Some? {
      BeginDecision(config, s, w.value, req, c, n);
      Verdict(config, PolicyContextOf(s, DefinitionOf(req), w.value));
      AllOpen(s);
      assert (set id | id in s.channels && s.channels[id].status == Active) == ActiveIds(s.channels);
      assert (set id | id in ActiveIds(s.channels) && s.channels[id].definition.waterfallRequested)
          == WaterfallIds(s.channels);
    }
  }

  lemma NoWindowRefused(config: SchedulerConfig, s: State, w: Option<ReceiverWindow>, req: TuneRequest, c: Id, n: Id)
    ensures var (r, o) := TuneBegin(config, s, w, req, c, n);
      && (o.Refused? ==> r == s)
      && (o == Refused(NoWindow) <==> w.None?)
  {}

  lemma AllOpen(s: State)
    requires Inv(s)
    ensures |OpenIds(s.sessions)| == |s.sessions|
  {
    forall id | id in s.sessions ensures id in OpenIds(s.sessions) {
      assert SessionOk(s, id);
    }
    assert OpenIds(s.sessions) == s.sessions.Keys;
  }

  /**
   * What a tune records: a shared channel gains one listener and the session
   * that has it; a new channel is stored last with all the request's wishes,
   * and the tune is suspended with those of its session.
   */
  lemma TuneRecords(config: SchedulerConfig, s: State, w: Option<ReceiverWindow>, req: TuneRequest, c: Id, n: Id)
    requires Inv(s) && c !in s.channels && n !in s.sessions
    ensures var (r, o) := TuneBegin(config, s, w, req, c, n);
      var audio, waterfall := req.audioRequested != Some(false), req.waterfallRequested != Some(false);
      && (o.Attached? ==>
        && o.channelId in s.channels
        && var shared := s.channels[o.channelId];
        && r.channels == s.channels[o.channelId := shared.(listenerCount := shared.listenerCount + 1)]
        && r.sessions == s.sessions[n := Session(n, o.channelId, req.userId, audio, waterfall, Open)]
        && r.order == s.order && r.pending == s.pending
        && o.sessionId == n && o.audioToken == (if audio then Some(n) else None)
        && o.waterfallToken == (if waterfall then Some(n) else None))
      && (o.Provisioning? ==>
        && w.Some? && o.channelId == c && r.sessions == s.sessions && r.order == s.order + [c]
        && r.pending == s.pending[c := Suspended(req.userId, audio, waterfall)]
        && c in r.channels && r.channels == s.channels[c := r.channels[c]]
        && var placed := r.channels[c];
        && placed.id == c && placed.windowId == w.value.id && placed.status == Starting && placed.listenerCount == 0
        && placed.reusable && placed.definition.frequencyHz == req.frequencyHz && placed.definition.mode == req.mode
        && placed.definition.bandwidthHz == (if req.bandwidthHz.Some? then req.bandwidthHz.value else 12500.0)
        && placed.definition.squelch == req.squelch && placed.definition.waterfallRequested == waterfall
        && placed.definition.audioRequested == audio)
  {
    hide Inv, Evaluate;
    if w.Some? {
      ReusableFound(s.channels, s.order, w.value.id, DefinitionOf(req));
    }
  }

  /** What provisioning records: the channel is active with its first listener, whose session has the tune's wishes. */
  lemma SuccessRecords(s: State, c: Id, n: Id)
    requires Inv(s) && c in s.pending && n !in s.sessions
    ensures c in s.channels
    ensures var r, p := TuneSucceed(s, c, n), s.pending[c];
      && r.channels == s.channels[c := s.channels[c].(status := Active, listenerCount := 1)]
      && r.sessions == s.sessions[n := Session(n, c, p.userId, p.supportsAudio, p.supportsWaterfall, Open)]
      && r.order == s.order && r.pending == s.pending - {c}
      && SessionsOf(r.sessions, c) == {n}
  {
    FailureIsClean(s, c);
  }

  // ---- what one call undoes ----

  lemma {:induction false} WithoutLast(order: seq<Id>, c: Id)
    requires c !in order
    ensures Without(order + [c], c) == order
  {
    if order != [] {
      assert (order + [c])[1..] == order[1..] + [c];
      WithoutLast(order[1..], c);
    }
  }

  /** A failed tune leaves no trace. */
  lemma FailUndoesBegin(config: SchedulerConfig, s: State, w: Option<ReceiverWindow>, req: TuneRequest, c: Id, n: Id)
    requires Inv(s) && c !in s.channels && n !in s.sessions
    requires TuneBegin(config, s, w, req, c, n).1.Provisioning?
    ensures TuneFail(TuneBegin(config, s, w, req, c, n).0, c) == s
  {
    hide Inv, Evaluate, FindReusable, Without;
    PendingStored(s);
    OrderFacts(s, c);
    WithoutLast(s.order, c);
    AddThenRemove(s.channels, c, NewChannel(c, w.value.id, DefinitionOf(req)));
    AddThenRemove(s.pending, c, SuspendedOf(req));
  }

  lemma OrderFacts(s: State, c: Id)
    requires Inv(s) && c !in s.channels
    ensures c !in s.order
  {}

  lemma AddThenRemove<T>(m: map<Id, T>, c: Id, x: T)
    requires c !in m
    ensures m[c := x] - {c} == m
  {}

  /** Closing a session right after it was attached to a shared channel restores both stores. */
  lemma CloseUndoesAttach(s: State, c: Id, n: Id, p: Suspended)
    requires Inv(s) && c in s.channels && n !in s.sessions
    ensures CloseSession(Attach(s, c, n, p), n) == s
  {
    hide Inv, SessionsOf;
    ChannelFacts(s, c);
    AddThenRemove(s.sessions, n, NewSession(n, c, p));
    var r := CloseSession(Attach(s, c, n, p), n);
    assert r.channels[c] == s.channels[c];
    assert r.channels == s.channels;
  }
}
