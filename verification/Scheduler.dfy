/** The scheduler over its stores: each method is one uninterrupted stretch of the source's code. */
module Schedulers {
  import opened Results
  import opened Contracts
  import opened AdmissionPolicy
  import opened SchedulerStates
  import opened SchedulerInvariants
  import opened SchedulerCapacity
  import opened Stores

  datatype Metrics = Metrics(activeChannels: nat, activeSessions: nat, activeWaterfallChannels: nat)

  class Scheduler {
    const config: SchedulerConfig
    const channels: ChannelStore
    const sessions: SessionStore
    /** The tunes waiting for their provisioning call to return. */
    var suspended: map<Id, Suspended>

    ghost function Model(): State
      reads this, channels, sessions
    {
      State(channels.channels, channels.order, sessions.sessions, suspended)
    }

    ghost predicate Valid()
      reads this, channels, sessions
    {
      Inv(Model())
    }

    constructor (config: SchedulerConfig)
      ensures Valid() && fresh(channels) && fresh(sessions) && this.config == config && Model() == INITIAL
    {
      this.config := config;
      channels := new ChannelStore();
      sessions := new SessionStore();
      suspended := map[];
    }

    /** A tune up to its suspension point. */
    method TuneBegin(window: Option<ReceiverWindow>, req: TuneRequest, channelId: Id, sessionId: Id)
      returns (r: Outcome)
      requires Valid() && channelId !in channels.channels && sessionId !in sessions.sessions
      modifies this, channels, sessions
      ensures Valid()
      ensures (Model(), r) == SchedulerStates.TuneBegin(config, old(Model()), window, req, channelId, sessionId)
    {
      hide Inv, Evaluate, Reusable, ActiveIds, WaterfallIds, OpenIds;
      StoreOrder(Model());
      BeginKeeps(config, Model(), window, req, channelId, sessionId);
      if window.None? {
        return Refused(NoWindow);
      }
      var d := DefinitionOf(req);
      var p := SuspendedOf(req);
      var existing := channels.Find(window.value.id, d);
      if existing.Some? {
        r := AttachSession(existing.value, sessionId, p);
        return;
      }
      var active := channels.CountActive();
      var open := sessions.CountActive();
      var waterfall := channels.CountWaterfall();
      var verdict := Evaluate(config, PolicyContext(active, open, waterfall, d, window.value));
      if verdict.Denied? {
        return Refused(ByPolicy(verdict.reason));
      }
      channels.CreatePlaceholder(channelId, window.value.id, d);
      suspended := suspended[channelId := p];
      return Provisioning(channelId);
    }

    /** The same session and listener update ends both ways to succeed. */
    method AttachSession(channelId: Id, sessionId: Id, p: Suspended) returns (r: Outcome)
      requires channels.Valid() && sessionId !in sessions.sessions
      modifies channels, sessions
      ensures Model() == Attach(old(Model()), channelId, sessionId, p)
      ensures r == AttachedOutcome(channelId, sessionId, p)
    {
      var session := sessions.Create(sessionId, channelId, p);
      var _ := channels.IncrementListeners(channelId);
      return Attached(session.id, channelId, if session.supportsAudio then Some(session.id) else None,
                      if session.supportsWaterfall then Some(session.id) else None);
    }

    /** The rest of a tune, once provisioning has returned or thrown. */
    method TuneResume(channelId: Id, provisioned: bool, sessionId: Id) returns (r: Outcome)
      requires Valid() && channelId in suspended && sessionId !in sessions.sessions
      modifies this, channels, sessions
      ensures Valid()
      ensures provisioned ==> var p := old(suspended[channelId]);
        && Model() == TuneSucceed(old(Model()), channelId, sessionId)
        && r == Attached(sessionId, channelId, if p.supportsAudio then Some(sessionId) else None,
                         if p.supportsWaterfall then Some(sessionId) else None)
      ensures !provisioned ==> Model() == TuneFail(old(Model()), channelId) && r == Refused(ProvisioningFailed)
    {
      hide Inv;
      StoreOrder(Model());
      FailKeeps(Model(), channelId);
      SucceedKeeps(Model(), channelId, sessionId);
      var p := suspended[channelId];
      suspended := suspended - {channelId};
      if !provisioned {
        var _ := channels.Remove(channelId);
        return Refused(ProvisioningFailed);
      }
      var _ := channels.Activate(channelId);
      r := AttachSession(channelId, sessionId, p);
    }

    method Close(sessionId: Id) returns (ok: bool)
      requires Valid()
      modifies channels, sessions
      ensures Valid() && ok == (sessionId in old(sessions.sessions))
      ensures Model() == CloseSession(old(Model()), sessionId)
    {
      hide Inv;
      StoreOrder(Model());
      CloseKeeps(Model(), sessionId);
      if sessionId !in sessions.sessions {
        return false;
      }
      var session := sessions.sessions[sessionId];
      var closed := sessions.Close(sessionId);
      if !closed {
        return false;
      }
      var _ := channels.DecrementListeners(session.channelId);
      return true;
    }

    /** The three counters add up: every session is counted, and the channels not counted are those still starting. */
    method GetMetrics() returns (m: Metrics)
      requires Valid()
      ensures m.activeSessions == |sessions.sessions|
      ensures m.activeChannels + |suspended| == |channels.channels|
      ensures m.activeWaterfallChannels == |set id | id in channels.channels
        && channels.channels[id].status == Active && channels.channels[id].definition.waterfallRequested|
    {
      hide Inv;
      StoreOrder(Model());
      var active := channels.CountActive();
      var open := sessions.CountActive();
      var waterfall := channels.CountWaterfall();
      CountsAddUp(Model());
      m := Metrics(active, open, waterfall);
    }
  }

  lemma StoreOrder(s: State)
    requires Inv(s)
    ensures OrderOf(s.order, s.channels.Keys)
  {}

  lemma CountsAddUp(s: State)
    requires Inv(s)
    ensures |OpenIds(s.sessions)| == |s.sessions|
    ensures |ActiveIds(s.channels)| + |s.pending| == |s.channels|
    ensures WaterfallIds(s.channels) == set id | id in s.channels
      && s.channels[id].status == Active && s.channels[id].definition.waterfallRequested
  {
    hide Inv;
    ActiveOrStarting(s);
    AllOpen(s);
  }
}
