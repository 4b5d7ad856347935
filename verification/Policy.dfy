/** Admission control: four checks, the first refusal wins. */
module AdmissionPolicy {
  import opened Contracts

  datatype Refusal = OutsideWindow | ChannelLimit | SessionLimit | WaterfallQuota

  datatype PolicyResult = Allowed | Denied(reason: Refusal)

  datatype PolicyContext = PolicyContext(
    activeChannels: nat, activeSessions: nat, activeWaterfallChannels: nat,
    definition: ChannelDefinition, window: ReceiverWindow)

  predicate InWindow(frequencyHz: real, w: ReceiverWindow) {
    w.serviceMinFrequencyHz <= frequencyHz <= w.serviceMaxFrequencyHz
  }

  function CheckFrequencyInWindow(ctx: PolicyContext): PolicyResult {
    if ctx.definition.frequencyHz < ctx.window.serviceMinFrequencyHz ||
       ctx.definition.frequencyHz > ctx.window.serviceMaxFrequencyHz
    then Denied(OutsideWindow) else Allowed
  }

  function CheckChannelLimit(config: SchedulerConfig, ctx: PolicyContext): PolicyResult {
    if ctx.activeChannels >= config.maxUniqueChannels then Denied(ChannelLimit) else Allowed
  }

  function CheckSessionLimit(config: SchedulerConfig, ctx: PolicyContext): PolicyResult {
    if ctx.activeSessions >= config.maxTotalSessions then Denied(SessionLimit) else Allowed
  }

  function CheckWaterfallQuota(config: SchedulerConfig, ctx: PolicyContext): PolicyResult {
    if ctx.definition.waterfallRequested && ctx.activeWaterfallChannels >= config.waterfallQuota
    then Denied(WaterfallQuota) else Allowed
  }

  function Checks(config: SchedulerConfig, ctx: PolicyContext): seq<PolicyResult> {
    [CheckFrequencyInWindow(ctx), CheckChannelLimit(config, ctx), CheckSessionLimit(config, ctx),
     CheckWaterfallQuota(config, ctx)]
  }

  function FirstRefusal(results: seq<PolicyResult>): PolicyResult {
    if results == [] then Allowed
    else if results[0].Denied? then results[0]
    else FirstRefusal(results[1..])
  }

  /** A request is admitted exactly when it is in the window and below every limit that concerns it. */
  ghost predicate Admissible(config: SchedulerConfig, ctx: PolicyContext) {
    && InWindow(ctx.definition.frequencyHz, ctx.window)
    && ctx.activeChannels < config.maxUniqueChannels
    && ctx.activeSessions < config.maxTotalSessions
    && (ctx.definition.waterfallRequested ==> ctx.activeWaterfallChannels < config.waterfallQuota)
  }

  function Evaluate(config: SchedulerConfig, ctx: PolicyContext): (r: PolicyResult)
    ensures r.Allowed? <==> Admissible(config, ctx)
    ensures r == Denied(OutsideWindow) <==> !InWindow(ctx.definition.frequencyHz, ctx.window)
    ensures r == Denied(ChannelLimit) <==>
      InWindow(ctx.definition.frequencyHz, ctx.window) && ctx.activeChannels >= config.maxUniqueChannels
    ensures r == Denied(SessionLimit) <==>
      && InWindow(ctx.definition.frequencyHz, ctx.window) && ctx.activeChannels < config.maxUniqueChannels
      && ctx.activeSessions >= config.maxTotalSessions
  {
    var c := Checks(config, ctx);
    assert c[3..][1..] == [] && c[2..][1..] == c[3..] && c[1..][1..] == c[2..];
    assert FirstRefusal(c[3..]) == c[3];
    assert FirstRefusal(c[2..]) == if c[2].Denied? then c[2] else c[3];
    assert FirstRefusal(c[1..]) == if c[1].Denied? then c[1] else FirstRefusal(c[2..]);
    FirstRefusal(c)
  }

  /** The verdict, limit by limit. */
  lemma Verdict(config: SchedulerConfig, ctx: PolicyContext)
    ensures Evaluate(config, ctx) ==
      if !InWindow(ctx.definition.frequencyHz, ctx.window) then Denied(OutsideWindow)
      else if ctx.activeChannels >= config.maxUniqueChannels then Denied(ChannelLimit)
      else if ctx.activeSessions >= config.maxTotalSessions then Denied(SessionLimit)
      else if ctx.definition.waterfallRequested && ctx.activeWaterfallChannels >= config.waterfallQuota
        then Denied(WaterfallQuota)
      else Allowed
  {
    var r := Evaluate(config, ctx);
    if r.Denied? {
      assert r.reason.OutsideWindow? || r.reason.ChannelLimit? || r.reason.SessionLimit? || r.reason.WaterfallQuota?;
    }
  }
}
