/** Receiver windows: the band served around a centre frequency, less a guard on each side. */
module WindowEngine {
  import opened ComplexNumbers
  import opened Results
  import opened Contracts
  import opened AdmissionPolicy
  import opened Channelising

  datatype WindowConfig = WindowConfig(defaultCentreHz: real, defaultSampleRateHz: real, guardBandHz: real)

  datatype CreateWindowRequest = CreateWindowRequest(
    receiverId: string, centreFrequencyHz: Option<real>, sampleRateHz: Option<real>)

  /** The window a request asks for. */
  function Requested(c: WindowConfig, id: Id, req: CreateWindowRequest): ReceiverWindow {
    var rate := req.sampleRateHz.GetOr(c.defaultSampleRateHz);
    var centre := req.centreFrequencyHz.GetOr(c.defaultCentreHz);
    var half := rate / 2.0;
    ReceiverWindow(id, req.receiverId, centre, rate, centre - half + c.guardBandHz, centre + half - c.guardBandHz,
                   c.guardBandHz, c.guardBandHz, Pending)
  }

  /** A frequency is served exactly when it keeps the guard distance from both band edges. */
  lemma ServiceRange(c: WindowConfig, id: Id, req: CreateWindowRequest, f: real)
    ensures var w := Requested(c, id, req);
      var offset := f - w.centreFrequencyHz;
      InWindow(f, w) <==> -(w.sampleRateHz / 2.0 - c.guardBandHz) <= offset <= w.sampleRateHz / 2.0 - c.guardBandHz
  {}

  // ---- windows over time ----

  /** The stored windows in the order they were created, and the one the scheduler was last told of. */
  datatype Desk = Desk(windows: map<Id, ReceiverWindow>, order: seq<Id>, told: Option<ReceiverWindow>)

  /** The oldest running window. */
  function DefaultOf(windows: map<Id, ReceiverWindow>, order: seq<Id>): Option<ReceiverWindow>
    requires forall id :: id in order ==> id in windows
  {
    if order == [] then None
    else if windows[order[0]].status.Running? then Some(windows[order[0]])
    else DefaultOf(windows, order[1..])
  }

  function RunningIds(windows: map<Id, ReceiverWindow>): set<Id> {
    set id | id in windows && windows[id].status.Running?
  }

  /** A request to open a window: create it, activate it, tell the scheduler. */
  function Opened(c: WindowConfig, s: Desk, req: CreateWindowRequest, id: Id): Desk {
    var w := Requested(c, id, req).(status := Running);
    Desk(s.windows[id := w], s.order + [id], Some(w))
  }

  /** A request to stop one; the scheduler is not told. */
  function Halted(s: Desk, id: Id): Desk {
    if id in s.windows then s.(windows := s.windows[id := s.windows[id].(status := Stopped)]) else s
  }

  datatype Request = OpenWindow(req: CreateWindowRequest, newId: Id) | StopWindow(id: Id)

  function Served(c: WindowConfig, s: Desk, r: Request): Desk {
    match r
    case OpenWindow(req, id) => Opened(c, s, req, id)
    case StopWindow(id) => Halted(s, id)
  }

  /** The states the requests lead through. Drawn ids are new. */
  ghost predicate IsHistory(c: WindowConfig, trace: seq<Desk>, requests: seq<Request>) {
    && |trace| == |requests| + 1
    && trace[0] == Desk(map[], [], None)
    && forall i :: 0 <= i < |requests| ==>
      && trace[i + 1] == Served(c, trace[i], requests[i])
      && (requests[i].OpenWindow? ==> requests[i].newId !in trace[i].windows)
  }

  ghost predicate WellKept(windows: map<Id, ReceiverWindow>, order: seq<Id>) {
    && (forall id :: id in order <==> id in windows)
    && (forall i, j :: 0 <= i < j < |order| ==> order[i] != order[j])
    && (forall id :: id in windows ==> windows[id].id == id)
  }

  /** The scheduler always knows of the newest window, whatever has become of it. */
  lemma {:induction false} ToldOfNewest(c: WindowConfig, trace: seq<Desk>, requests: seq<Request>, i: nat)
    requires IsHistory(c, trace, requests) && i < |trace|
    ensures var s := trace[i];
      && WellKept(s.windows, s.order)
      && (if s.order == [] then s.told.None? else s.told.Some? && s.told.value.id == s.order[|s.order| - 1])
  {
    if i > 0 {
      ToldOfNewest(c, trace, requests, i - 1);
      assert trace[i] == Served(c, trace[i - 1], requests[i - 1]);
    }
  }

  lemma {:induction false} DefaultIsOldest(windows: map<Id, ReceiverWindow>, order: seq<Id>)
    requires forall id :: id in order ==> id in windows
    ensures var d := DefaultOf(windows, order);
      && (d.None? <==> forall id :: id in order ==> !windows[id].status.Running?)
      && (d.Some? ==> exists i :: 0 <= i < |order| && IsOldestRunning(windows, order, i, d.value))
  {
    if order != [] && !windows[order[0]].status.Running? {
      DefaultIsOldest(windows, order[1..]);
      var d := DefaultOf(windows, order);
      if d.Some? {
        var i :| 0 <= i < |order| - 1 && IsOldestRunning(windows, order[1..], i, d.value);
        assert forall j :: 0 < j <= i + 1 ==> order[j] == order[1..][j - 1];
        assert IsOldestRunning(windows, order, i + 1, d.value);
      }
    } else if order != [] {
      assert IsOldestRunning(windows, order, 0, windows[order[0]]);
    }
  }

  ghost predicate IsOldestRunning(windows: map<Id, ReceiverWindow>, order: seq<Id>, i: nat, w: ReceiverWindow)
    requires i < |order| && forall id :: id in order ==> id in windows
  {
    && windows[order[i]] == w && w.status.Running?
    && forall j :: 0 <= j < i ==> !windows[order[j]].status.Running?
  }

  /** Opening a window does not take the default away from an older one. */
  lemma {:induction false} OpeningKeepsDefault(windows: map<Id, ReceiverWindow>, order: seq<Id>, id: Id,
                                               w: ReceiverWindow)
    requires (forall x :: x in order ==> x in windows) && id !in windows && w.status.Running?
    ensures DefaultOf(windows[id := w], order + [id]) ==
      if DefaultOf(windows, order).Some? then DefaultOf(windows, order) else Some(w)
  {
    if order == [] {
      assert ([] + [id])[0] == id;
    } else {
      assert (order + [id])[1..] == order[1..] + [id];
      OpeningKeepsDefault(windows, order[1..], id, w);
    }
  }

  /**
   * After every history the window the scheduler tunes into is the default
   * window exactly when it is the only one running: a second window moves the
   * scheduler but not the default, and stopping a window moves only the default.
   */
  lemma AgreementExactly(c: WindowConfig, trace: seq<Desk>, requests: seq<Request>, i: nat)
    requires IsHistory(c, trace, requests) && i < |trace| && trace[i].order != []
    ensures trace[i].told.Some? && forall id :: id in trace[i].order ==> id in trace[i].windows
    ensures var s := trace[i];
      var d := DefaultOf(s.windows, s.order);
      (d.Some? && d.value.id == s.told.value.id) <==> RunningIds(s.windows) == {s.told.value.id}
  {
    hide IsHistory, DefaultOf;
    ToldOfNewest(c, trace, requests, i);
    var s := trace[i];
    var d := DefaultOf(s.windows, s.order);
    var newest := s.order[|s.order| - 1];
    DefaultIsOldest(s.windows, s.order);
    if d.Some? && d.value.id == newest {
      var k :| 0 <= k < |s.order| && IsOldestRunning(s.windows, s.order, k, d.value);
      assert k == |s.order| - 1;
      forall id | id in RunningIds(s.windows) ensures id == newest {
        assert id in s.order;
      }
      assert newest in RunningIds(s.windows);
    }
    if RunningIds(s.windows) == {newest} {
      assert newest in RunningIds(s.windows) && newest in s.order;
      assert d.Some?;
      var k :| 0 <= k < |s.order| && IsOldestRunning(s.windows, s.order, k, d.value);
      assert s.order[k] in RunningIds(s.windows);
    }
  }

  class WindowManager {
    const config: WindowConfig
    var windows: map<Id, ReceiverWindow>
    /** Ids in the order they were first stored. */
    var order: seq<Id>

    ghost predicate Valid()
      reads this
    {
      WellKept(windows, order)
    }

    ghost function Current(told: Option<ReceiverWindow>): Desk
      reads this
    {
      Desk(windows, order, told)
    }

    constructor (config: WindowConfig)
      ensures Valid() && this.config == config && windows == map[] && order == []
    {
      this.config := config;
      windows, order := map[], [];
    }

    method Create(req: CreateWindowRequest, id: Id) returns (w: ReceiverWindow)
      requires Valid() && id !in windows
      modifies this
      ensures Valid() && w == Requested(config, id, req)
      ensures w.id == id && w.receiverId == req.receiverId && w.status == Pending
      ensures w.centreFrequencyHz ==
        if req.centreFrequencyHz.Some? then req.centreFrequencyHz.value else config.defaultCentreHz
      ensures w.sampleRateHz == if req.sampleRateHz.Some? then req.sampleRateHz.value else config.defaultSampleRateHz
      ensures w.guardLowerHz == config.guardBandHz && w.guardUpperHz == config.guardBandHz
      ensures windows == old(windows)[id := w] && order == old(order) + [id]
    {
      var rate := req.sampleRateHz.GetOr(config.defaultSampleRateHz);
      var centre := req.centreFrequencyHz.GetOr(config.defaultCentreHz);
      var halfBand := rate / 2.0;
      var guard := config.guardBandHz;
      w := ReceiverWindow(id, req.receiverId, centre, rate, centre - halfBand + guard, centre + halfBand - guard,
                          guard, guard, Pending);
      windows := windows[id := w];
      order := order + [id];
    }

    method SetStatus(id: Id, status: WindowStatus) returns (found: bool)
      requires Valid()
      modifies this`windows
      ensures Valid() && found == (id in old(windows))
      ensures windows == if found then old(windows)[id := old(windows)[id].(status := status)] else old(windows)
    {
      if id !in windows {
        return false;
      }
      windows := windows[id := windows[id].(status := status)];
      return true;
    }

    method Activate(id: Id) returns (found: bool)
      requires Valid()
      modifies this`windows
      ensures Valid() && found == (id in old(windows))
      ensures windows == if found then old(windows)[id := old(windows)[id].(status := Running)] else old(windows)
    {
      found := SetStatus(id, Running);
    }

    method Stop(id: Id, ghost told: Option<ReceiverWindow>) returns (found: bool)
      requires Valid()
      modifies this`windows
      ensures Valid() && found == (id in old(windows))
      ensures Current(told) == Halted(old(Current(told)), id)
      ensures windows == if found then old(windows)[id := old(windows)[id].(status := Stopped)] else old(windows)
    {
      found := SetStatus(id, Stopped);
    }

    /** The handler that opens a window; what it returns is what the scheduler is told. */
    method OpenAndTell(req: CreateWindowRequest, id: Id, ghost told: Option<ReceiverWindow>) returns (w: ReceiverWindow)
      requires Valid() && id !in windows
      modifies this
      ensures Valid() && Current(Some(w)) == Opened(config, old(Current(told)), req, id)
      ensures w == Requested(config, id, req).(status := Running) && windows == old(windows)[id := w]
    {
      w := Create(req, id);
      var found := Activate(w.id);
      w := windows[w.id];
    }

    /** The oldest running window, if there is one. */
    method GetDefault() returns (w: Option<ReceiverWindow>)
      requires Valid()
      ensures w == DefaultOf(windows, order)
    {
      var i := 0;
      while i < |order|
        invariant 0 <= i <= |order|
        invariant DefaultOf(windows, order[i..]) == DefaultOf(windows, order)
      {
        assert order[i..][0] == order[i] && order[i..][1..] == order[i + 1..];
        if windows[order[i]].status.Running? {
          return Some(windows[order[i]]);
        }
        i := i + 1;
      }
      return None;
    }
  }

  // ---- what admission means for the mixer ----

  /** A worker told its window's centre and rate, tuned to an admitted whole-hertz frequency. */
  ghost predicate Serves(w: ReceiverWindow, c: Config) {
    && w.sampleRateHz == c.windowSampleRateHz as real && c.windowSampleRateHz > 0
    && w.centreFrequencyHz == c.windowCentreHz as real
    && InWindow(c.channelCentreHz as real, w)
  }

  /** Admission makes the mixer step at most half a turn, so the wrapped phase never leaves [-pi, pi]. */
  lemma AdmissionBoundsPhase(wc: WindowConfig, id: Id, req: CreateWindowRequest, c: Config, pi: real, k: nat)
    requires pi > 0.0 && wc.guardBandHz >= 0.0 && Serves(Requested(wc, id, req), c)
    ensures -pi <= Increment(pi, c) <= pi
    ensures -pi <= Phase(pi, Increment(pi, c), k) <= pi
  {
    hide Phase, Increment;
    ServiceRange(wc, id, req, c.channelCentreHz as real);
    var r := c.windowSampleRateHz as real;
    var offset := c.channelCentreHz as real - c.windowCentreHz as real;
    assert -r <= 2.0 * offset <= r;
    IncrementBound(pi, c, r, offset);
    PhaseInRange(pi, Increment(pi, c), k);
  }

  lemma IncrementBound(pi: real, c: Config, r: real, offset: real)
    requires pi > 0.0 && c.windowSampleRateHz > 0 && r == c.windowSampleRateHz as real
    requires offset == c.channelCentreHz as real - c.windowCentreHz as real && -r <= 2.0 * offset <= r
    ensures -pi <= Increment(pi, c) <= pi
  {
    var inc := Increment(pi, c);
    assert inc * r == -(2.0 * pi) * offset;
    BoundByProduct(inc, r, pi, offset);
  }

  lemma BoundByProduct(inc: real, r: real, pi: real, offset: real)
    requires pi > 0.0 && r > 0.0 && inc * r == -(2.0 * pi) * offset && -r <= 2.0 * offset <= r
    ensures -pi <= inc <= pi
  {
    Positive(pi, r - 2.0 * offset, pi * (r - 2.0 * offset));
    Positive(pi, r + 2.0 * offset, pi * (r + 2.0 * offset));
    assert (pi - inc) * r >= 0.0 && (pi + inc) * r >= 0.0;
    Positive(inc - pi, r, (inc - pi) * r);
    Positive(-pi - inc, r, (-pi - inc) * r);
  }
}
