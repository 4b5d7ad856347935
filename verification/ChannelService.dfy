/** The UDP receiver: decode a packet and hand its samples to every active worker of its window. */
module ChannelServices {
  import opened Samples
  import opened Packets
  import opened IqQueues
  import opened ChannelWorkers
  import opened Emulation

  datatype WorkerEntry = WorkerEntry(windowId: seq<byte>, worker: ChannelWorker)

  class ChannelService {
    var workers: map<string, WorkerEntry>

    ghost function Queues(): set<object>
      reads this
    {
      set id | id in workers :: workers[id].worker.queue as object
    }

    /** Every channel owns its worker and its queue. */
    ghost predicate Valid()
      reads this, Queues()
    {
      && (forall id :: id in workers ==>
        workers[id].worker.queue.Valid() && workers[id].worker.queue.maxDepth == MAX_DEPTH)
      && (forall a, b :: a in workers && b in workers && a != b ==> workers[a].worker.queue != workers[b].worker.queue)
      && this !in Queues()
    }

    /** A worker's queue took the block if it was wanted, and otherwise is as it was. */
    twostate predicate Offered(e: WorkerEntry, wanted: bool, iq: seq<int16>)
      reads e.worker.queue
    {
      e.worker.queue.Current() ==
        if wanted then old(e.worker.queue.Current()).Submit(MAX_DEPTH, iq) else old(e.worker.queue.Current())
    }

    /** One worker's turn of that scan. */
    method Offer(e: WorkerEntry, windowId: seq<byte>, iq: seq<int16>)
      requires e.worker.queue.Valid() && e.worker.queue.maxDepth == MAX_DEPTH
      modifies e.worker.queue
      ensures e.worker.queue.Valid() && Offered(e, old(e.windowId == windowId && e.worker.active), iq)
    {
      if e.windowId == windowId && e.worker.active {
        e.worker.queue.Submit(iq);
      }
    }

    /** Exactly the active workers of the window get the block; every other queue is as it was. */
    method FanOut(windowId: seq<byte>, iq: seq<int16>)
      requires Valid() && (forall id :: id in workers ==> workers[id].worker !in Queues())
      modifies Queues()
      ensures Valid()
      ensures forall id :: id in workers ==>
        Offered(workers[id], workers[id].windowId == windowId && workers[id].worker.active, iq)
    {
      hide IqQueue.Valid;
      var todo := workers.Keys;
      while todo != {}
        invariant todo <= workers.Keys && Valid()
        invariant forall id :: id in todo ==> Offered(workers[id], false, iq)
        invariant forall id :: id in workers && id !in todo ==>
          Offered(workers[id], workers[id].windowId == windowId && workers[id].worker.active, iq)
        decreases todo
      {
        var id :| id in todo;
        Offer(workers[id], windowId, iq);
        todo := todo - {id};
      }
    }

    /** One turn of the receive loop. A rejected packet changes nothing; a read out of bounds leaves nothing defined. */
    method ReceivePacket(datagram: seq<byte>) returns (d: Decoded)
      requires Valid() && (forall id :: id in workers ==> workers[id].worker !in Queues())
      modifies Queues()
      ensures d == Decode(Receive(datagram))
      ensures d != OutOfBounds ==> Valid() && forall id :: id in workers ==>
        if d.Accepted? then Offered(workers[id], workers[id].windowId == d.windowId && workers[id].worker.active, d.iq)
        else Offered(workers[id], false, [])
    {
      hide IqQueue.Valid, Decode;
      d := Decode(Receive(datagram));
      if d.Accepted? {
        FanOut(d.windowId, d.iq);
      }
    }

    /**
     * From the stream callback to the queues: a block reaches the active
     * workers of the window it is sent for exactly when it is not dropped and
     * fits one datagram. Otherwise no queue changes.
     */
    method Deliver(windowId: seq<byte>, block: IQBlock)
      requires Valid() && (forall id :: id in workers ==> workers[id].worker !in Queues())
      modifies Queues()
      ensures Valid()
      ensures forall id :: id in workers ==>
        Offered(workers[id],
                && workers[id].windowId == SentId(windowId) && workers[id].worker.active
                && !block.dropped && Transmissible(windowId, block.payload),
                block.payload)
    {
      hide IqQueue.Valid, Encode, Decode, Receive, SentId;
      Transmitted(windowId, block.payload);
      var pkt := BuildPacket(windowId, block.payload, block.dropped);
      if pkt.Some? {
        var datagram := Send(pkt.value);
        if datagram.Some? {
          var d := ReceivePacket(datagram.value);
        }
      }
    }

    /** No run of the emulator, whatever faults it meets, changes a queue: every one of its blocks is too long. */
    method DeliverRun(windowId: seq<byte>, ghost s: Scene, ghost plan: seq<Iteration>, ghost c: nat, run: seq<IQBlock>)
      requires Valid() && (forall id :: id in workers ==> workers[id].worker !in Queues())
      requires ValidScene(s) && ValidPlan(plan) && run == Emitted(s, plan, c)
      modifies Queues()
      ensures Valid()
      ensures forall id :: id in workers ==> Offered(workers[id], false, [])
    {
      hide IqQueue.Valid, ValidScene, Emitted, BlockPayload;
      for i := 0 to |run|
        invariant Valid()
        invariant forall id :: id in workers ==> Offered(workers[id], false, [])
      {
        StreamContinuity(s, plan, c, i);
        Deliver(windowId, run[i]);
      }
    }
  }
}
