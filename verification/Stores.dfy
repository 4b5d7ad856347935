/** The scheduler's two in-memory stores. */
module Stores {
  import opened Results
  import opened Contracts
  import opened SchedulerStates
  import opened SchedulerInvariants

  class ChannelStore {
    var channels: map<Id, Channel>
    /** Ids in insertion order, which is the order every scan follows. */
    var order: seq<Id>

    ghost predicate Valid()
      reads this
    {
      OrderOf(order, channels.Keys)
    }

    constructor ()
      ensures Valid() && channels == map[] && order == []
    {
      channels, order := map[], [];
    }

    method CreatePlaceholder(id: Id, windowId: Id, d: ChannelDefinition)
      requires Valid() && id !in channels
      modifies this
      ensures Valid() && channels == old(channels)[id := NewChannel(id, windowId, d)] && order == old(order) + [id]
    {
      channels := channels[id := Channel(id, windowId, d, Starting, 0, true)];
      order := order + [id];
    }

    method Activate(id: Id) returns (found: bool)
      requires Valid()
      modifies this`channels
      ensures Valid() && found == (id in old(channels)) && channels == Activated(old(channels), id)
    {
      if id !in channels {
        return false;
      }
      channels := channels[id := channels[id].(status := Active)];
      return true;
    }

    method Remove(id: Id) returns (found: bool)
      requires Valid()
      modifies this
      ensures Valid() && found == (id in old(channels))
      ensures channels == old(channels) - {id} && order == Without(old(order), id)
    {
      WithoutMembers(order, id);
      found := id in channels;
      channels := channels - {id};
      order := Without(order, id);
    }

    method IncrementListeners(id: Id) returns (found: bool)
      requires Valid()
      modifies this`channels
      ensures Valid() && found == (id in old(channels))
      ensures channels == if found then
        old(channels)[id := old(channels)[id].(listenerCount := old(channels)[id].listenerCount + 1)] else old(channels)
    {
      if id !in channels {
        return false;
      }
      channels := channels[id := channels[id].(listenerCount := channels[id].listenerCount + 1)];
      return true;
    }

    method DecrementListeners(id: Id) returns (found: bool)
      requires Valid()
      modifies this`channels
      ensures Valid() && found == (id in old(channels)) && channels == Decremented(old(channels), id)
    {
      if id !in channels {
        return false;
      }
      var n := channels[id].listenerCount - 1;
      channels := channels[id := channels[id].(listenerCount := if n > 0 then n else 0)];
      return true;
    }

    /** The oldest stored channel that can be shared. */
    method Find(windowId: Id, d: ChannelDefinition) returns (r: Option<Id>)
      requires Valid()
      ensures r == FindReusable(channels, order, windowId, d)
      ensures r.Some? ==> r.value in channels && var c := channels[r.value];
        && c.windowId == windowId && c.reusable && c.status == Active && c.definition.frequencyHz == d.frequencyHz
        && c.definition.mode == d.mode && c.definition.bandwidthHz == d.bandwidthHz
      ensures r.None? ==> forall id :: id in channels ==> var c := channels[id];
        || c.windowId != windowId || !c.reusable || c.status != Active || c.definition.frequencyHz != d.frequencyHz
        || c.definition.mode != d.mode || c.definition.bandwidthHz != d.bandwidthHz
    {
      ReusableFound(channels, order, windowId, d);
      var i := 0;
      while i < |order|
        invariant 0 <= i <= |order|
        invariant FindReusable(channels, order[i..], windowId, d) == FindReusable(channels, order, windowId, d)
      {
        assert order[i] in order && order[i..][0] == order[i] && order[i..][1..] == order[i + 1..];
        if Reusable(channels[order[i]], windowId, d) {
          return Some(order[i]);
        }
        i := i + 1;
      }
      return None;
    }

    /** The size of a filtered scan of the store. */
    method CountWhere(p: Channel -> bool, ghost ids: set<Id>) returns (n: nat)
      requires Valid() && forall id :: id in ids <==> id in channels && p(channels[id])
      ensures n == |ids|
    {
      n := 0;
      ghost var met: set<Id> := {};
      var i := 0;
      while i < |order|
        invariant 0 <= i <= |order| && n == |met|
        invariant forall id :: id in met <==> id in order[..i] && id in ids
      {
        var id := order[i];
        assert id in order && id !in order[..i];
        assert order[..i + 1] == order[..i] + [id];
        if p(channels[id]) {
          n := n + 1;
          met := met + {id};
        }
        i := i + 1;
      }
      assert order[..i] == order;
      assert met == ids;
    }

    method CountActive() returns (n: nat)
      requires Valid()
      ensures n == |ActiveIds(channels)|
    {
      n := CountWhere((c: Channel) => c.status.Active?, ActiveIds(channels));
    }

    method CountWaterfall() returns (n: nat)
      requires Valid()
      ensures n == |WaterfallIds(channels)|
    {
      n := CountWhere((c: Channel) => c.status.Active? && c.definition.waterfallRequested, WaterfallIds(channels));
    }
  }

  class SessionStore {
    var sessions: map<Id, Session>

    constructor ()
      ensures sessions == map[]
    {
      sessions := map[];
    }

    method Create(id: Id, channelId: Id, p: Suspended) returns (x: Session)
      requires id !in sessions
      modifies this
      ensures x == NewSession(id, channelId, p) && sessions == old(sessions)[id := x]
    {
      x := Session(id, channelId, p.userId, p.supportsAudio, p.supportsWaterfall, Open);
      sessions := sessions[id := x];
    }

    method Close(id: Id) returns (found: bool)
      modifies this
      ensures found == (id in old(sessions)) && sessions == old(sessions) - {id}
    {
      found := id in sessions;
      sessions := sessions - {id};
    }

    method CountActive() returns (n: nat)
      ensures n == |OpenIds(sessions)|
    {
      n := 0;
      var todo := sessions.Keys;
      ghost var open: set<Id> := {};
      while todo != {}
        invariant todo <= sessions.Keys && n == |open|
        invariant forall id :: id in open <==> id in OpenIds(sessions) && id !in todo
        decreases todo
      {
        var id :| id in todo;
        if sessions[id].status.Open? {
          n := n + 1;
          open := open + {id};
        }
        todo := todo - {id};
      }
      assert open == OpenIds(sessions);
    }
  }
}
