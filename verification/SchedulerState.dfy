/**
 * The scheduler as a state machine. A tune is split at its one suspension
 * point: it either finishes at once or leaves a channel starting, and a later
 * step resumes it with the outcome of provisioning. Steps of different
 * requests, closes and window changes interleave freely.
 */
module SchedulerStates {
  import opened Results
  import opened Contracts
  import opened AdmissionPolicy

  /** What a suspended tune still has to do for its user. */
  datatype Suspended = Suspended(userId: string, supportsAudio: bool, supportsWaterfall: bool)

  /** Both stores, in insertion order where the order matters, and the suspended tunes by channel. */
  datatype State = State(channels: map<Id, Channel>, order: seq<Id>, sessions: map<Id, Session>,
                         pending: map<Id, Suspended>)

  datatype Outcome =
    | Refused(reason: TuneRefusal)
    | Attached(sessionId: Id, channelId: Id, audioToken: Option<Id>, waterfallToken: Option<Id>)
    | Provisioning(channelId: Id)

  datatype TuneRefusal = NoWindow | ByPolicy(refusal: Refusal) | ProvisioningFailed

  const INITIAL: State := State(map[], [], map[], map[])

  // ---- reading the stores ----

  predicate DefinitionsMatch(a: ChannelDefinition, b: ChannelDefinition) {
    a.frequencyHz == b.frequencyHz && a.mode == b.mode && a.bandwidthHz == b.bandwidthHz
  }

  predicate Reusable(c: Channel, windowId: Id, d: ChannelDefinition) {
    c.windowId == windowId && c.reusable && c.status.Active? && DefinitionsMatch(c.definition, d)
  }

  /** The oldest channel that can be shared. */
  function FindReusable(channels: map<Id, Channel>, order: seq<Id>, windowId: Id, d: ChannelDefinition): Option<Id> {
    if order == [] then None
    else if order[0] in channels && Reusable(channels[order[0]], windowId, d) then Some(order[0])
    else FindReusable(channels, order[1..], windowId, d)
  }

  function ActiveIds(channels: map<Id, Channel>): set<Id> {
    set id | id in channels && channels[id].status.Active?
  }

  function WaterfallIds(channels: map<Id, Channel>): set<Id> {
    set id | id in channels && channels[id].status.Active? && channels[id].definition.waterfallRequested
  }

  function OpenIds(sessions: map<Id, Session>): set<Id> {
    set id | id in sessions && sessions[id].status.Open?
  }

  function SessionsOf(sessions: map<Id, Session>, channelId: Id): set<Id> {
    set id | id in sessions && sessions[id].channelId == channelId
  }

  // ---- the steps ----

  const DEFAULT_BANDWIDTH_HZ: real := 12500.0

  function DefinitionOf(req: TuneRequest): ChannelDefinition {
    ChannelDefinition(req.frequencyHz, req.mode, req.bandwidthHz.GetOr(DEFAULT_BANDWIDTH_HZ), req.squelch,
                      req.waterfallRequested.GetOr(true), req.audioRequested.GetOr(true))
  }

  function SuspendedOf(req: TuneRequest): Suspended {
    Suspended(req.userId, req.audioRequested.GetOr(true), req.waterfallRequested.GetOr(true))
  }

  function PolicyContextOf(s: State, d: ChannelDefinition, w: ReceiverWindow): PolicyContext {
    PolicyContext(|ActiveIds(s.channels)|, |OpenIds(s.sessions)|, |WaterfallIds(s.channels)|, d, w)
  }

  function NewChannel(id: Id, windowId: Id, d: ChannelDefinition): Channel {
    Channel(id, windowId, d, Starting, 0, true)
  }

  function NewSession(id: Id, channelId: Id, p: Suspended): Session {
    Session(id, channelId, p.userId, p.supportsAudio, p.supportsWaterfall, Open)
  }

  /** A session on a channel, and the channel's listener count with it. */
  function Attach(s: State, channelId: Id, sessionId: Id, p: Suspended): State {
    var channels := if channelId in s.channels
      then s.channels[channelId := s.channels[channelId].(listenerCount := s.channels[channelId].listenerCount + 1)]
      else s.channels;
    s.(sessions := s.sessions[sessionId := NewSession(sessionId, channelId, p)], channels := channels)
  }

  function AttachedOutcome(channelId: Id, sessionId: Id, p: Suspended): Outcome {
    Attached(sessionId, channelId, if p.supportsAudio then Some(sessionId) else None,
             if p.supportsWaterfall then Some(sessionId) else None)
  }

  /** A tune up to its suspension point, with the ids it would draw. */
  function TuneBegin(config: SchedulerConfig, s: State, window: Option<ReceiverWindow>, req: TuneRequest,
                     channelId: Id, sessionId: Id): (State, Outcome) {
    if window.None? then (s, Refused(NoWindow)) else
      var d, p := DefinitionOf(req), SuspendedOf(req);
      var existing := FindReusable(s.channels, s.order, window.value.id, d);
      if existing.Some?
      then (Attach(s, existing.value, sessionId, p), AttachedOutcome(existing.value, sessionId, p))
      else
        var verdict := Evaluate(config, PolicyContextOf(s, d, window.value));
        if verdict.Denied? then (s, Refused(ByPolicy(verdict.reason)))
        else (s.(channels := s.channels[channelId := NewChannel(channelId, window.value.id, d)],
                 order := s.order + [channelId], pending := s.pending[channelId := p]),
              Provisioning(channelId))
  }

  function Activated(channels: map<Id, Channel>, id: Id): map<Id, Channel> {
    if id in channels then channels[id := channels[id].(status := Active)] else channels
  }

  /** Provisioning succeeded. */
  function TuneSucceed(s: State, channelId: Id, sessionId: Id): State
    requires channelId in s.pending
  {
    Attach(s.(channels := Activated(s.channels, channelId), pending := s.pending - {channelId}),
           channelId, sessionId, s.pending[channelId])
  }

  function Without(order: seq<Id>, id: Id): seq<Id> {
    if order == [] then []
    else if order[0] == id then order[1..]
    else [order[0]] + Without(order[1..], id)
  }

  /** Provisioning failed: the placeholder goes. */
  function TuneFail(s: State, channelId: Id): State {
    s.(channels := s.channels - {channelId}, order := Without(s.order, channelId), pending := s.pending - {channelId})
  }

  /** One listener fewer, never below zero. */
  function Decremented(channels: map<Id, Channel>, id: Id): map<Id, Channel> {
    if id !in channels then channels else
      var n := channels[id].listenerCount - 1;
      channels[id := channels[id].(listenerCount := if n > 0 then n else 0)]
  }

  function CloseSession(s: State, sessionId: Id): State {
    if sessionId !in s.sessions then s
    else s.(sessions := s.sessions - {sessionId}, channels := Decremented(s.channels, s.sessions[sessionId].channelId))
  }

  // ---- runs ----

  /** One step, with the window active at the time and the ids drawn. */
  datatype Step =
    | Begin(window: Option<ReceiverWindow>, req: TuneRequest, channelId: Id, sessionId: Id)
    | Succeed(resumed: Id, newSessionId: Id)
    | Fail(failed: Id)
    | Close(closing: Id)

  /** Drawn ids are new, and only suspended tunes resume. */
  predicate Enabled(s: State, step: Step) {
    match step
    case Begin(_, _, c, n) => c !in s.channels && n !in s.sessions
    case Succeed(c, n) => c in s.pending && n !in s.sessions
    case Fail(c) => c in s.pending
    case Close(_) => true
  }

  function Apply(config: SchedulerConfig, s: State, step: Step): State
    requires Enabled(s, step)
  {
    match step
    case Begin(w, req, c, n) => TuneBegin(config, s, w, req, c, n).0
    case Succeed(c, n) => TuneSucceed(s, c, n)
    case Fail(c) => TuneFail(s, c)
    case Close(n) => CloseSession(s, n)
  }

  /** The states a run goes through; `trace[0]` is the first. */
  ghost predicate IsRun(config: SchedulerConfig, trace: seq<State>, steps: seq<Step>) {
    && |trace| == |steps| + 1
    && trace[0] == INITIAL
    && forall i :: 0 <= i < |steps| ==> Enabled(trace[i], steps[i]) && trace[i + 1] == Apply(config, trace[i], steps[i])
  }
}
