/**
 * The bounded queue between a receiver thread and a worker thread. Each
 * critical section of the source is one atomic step.
 */
module IqQueues {

  /** A dequeued block: its index among all submitted blocks, and how many had been submitted by then. */
  datatype Taken = Taken(index: int, submittedThen: nat)

  /** The queue and everything that has happened to it. */
  datatype State<T> = State(queue: seq<T>, closed: bool, submitted: seq<T>, taken: seq<Taken>, dropped: seq<int>) {

    /** The index of the block at the head of the queue, or of the next one to come. */
    function Head(): int {
      |submitted| - |queue|
    }

    /** Append a block; a full queue first loses its oldest. */
    function Submit(depth: nat, b: T): State<T>
      requires depth > 0
    {
      if |queue| >= depth then
        State(queue[1..] + [b], closed, submitted + [b], taken, dropped + [Head()])
      else
        State(queue + [b], closed, submitted + [b], taken, dropped)
    }

    function Close(): State<T> {
      this.(closed := true)
    }

    /** The worker removes the head. */
    function Take(): State<T>
      requires queue != []
    {
      State(queue[1..], closed, submitted, taken + [Taken(Head(), |submitted|)], dropped)
    }

    /** The wait ends with a block in hand, or for good. */
    predicate Awake() {
      queue != [] || closed
    }

    predicate WorkerExits() {
      closed && queue == []
    }
  }

  function Empty<T>(): State<T> {
    State([], false, [], [], [])
  }

  ghost predicate WasTaken<T>(s: State<T>, i: int) {
    exists k :: 0 <= k < |s.taken| && s.taken[k].index == i
  }

  /** The queue is the newest part of what was submitted. */
  ghost predicate QueueIsNewest<T>(s: State<T>, depth: nat) {
    0 <= s.Head() && |s.queue| <= depth && s.queue == s.submitted[s.Head()..]
  }

  /** Every block before it was either taken or dropped, and none both. */
  ghost predicate AllAccounted<T>(s: State<T>) {
    && |s.taken| + |s.dropped| + |s.queue| == |s.submitted|
    && (forall i :: 0 <= i < s.Head() ==> WasTaken(s, i) || i in s.dropped)
    && (forall k :: 0 <= k < |s.taken| ==> 0 <= s.taken[k].index < s.Head() && s.taken[k].index !in s.dropped)
    && (forall i :: i in s.dropped ==> 0 <= i < s.Head())
  }

  /** Blocks are taken in order, each among the newest `depth` of its time. */
  ghost predicate TakenInOrder<T>(s: State<T>, depth: nat) {
    && (forall j, k :: 0 <= j < k < |s.taken| ==> s.taken[j].index < s.taken[k].index)
    && (forall k :: 0 <= k < |s.taken| ==>
      s.taken[k].submittedThen - depth <= s.taken[k].index < s.taken[k].submittedThen <= |s.submitted|)
  }

  /** A block was dropped only with `depth` newer ones to keep. */
  ghost predicate DroppedWhenFull<T>(s: State<T>, depth: nat) {
    forall i :: i in s.dropped ==> i + depth < |s.submitted|
  }

  /** The protocol's invariant for a queue of the given depth. */
  ghost predicate Inv<T>(s: State<T>, depth: nat) {
    QueueIsNewest(s, depth) && AllAccounted(s) && TakenInOrder(s, depth) && DroppedWhenFull(s, depth)
  }

  lemma SubmitAccounts<T>(s: State<T>, depth: nat, b: T)
    requires depth > 0 && 0 <= s.Head() && AllAccounted(s)
    ensures AllAccounted(s.Submit(depth, b))
  {
    var n := s.Submit(depth, b);
    forall i | 0 <= i < n.Head() ensures WasTaken(n, i) || i in n.dropped {
      if i == s.Head() {
        assert n.dropped[|s.dropped|] == i;
      } else if WasTaken(s, i) {
        var k :| 0 <= k < |s.taken| && s.taken[k].index == i;
        assert n.taken[k].index == i;
      }
    }
  }

  lemma SubmitKeeps<T>(s: State<T>, depth: nat, b: T)
    requires depth > 0 && Inv(s, depth)
    ensures Inv(s.Submit(depth, b), depth)
  {
    hide AllAccounted;
    SubmitAccounts(s, depth, b);
  }

  lemma TakeAccounts<T>(s: State<T>)
    requires s.queue != [] && 0 <= s.Head() && AllAccounted(s)
    ensures AllAccounted(s.Take())
  {
    var n := s.Take();
    forall i | 0 <= i < n.Head() ensures WasTaken(n, i) || i in n.dropped {
      if i == s.Head() {
        assert n.taken[|s.taken|].index == i;
      } else if WasTaken(s, i) {
        var k :| 0 <= k < |s.taken| && s.taken[k].index == i;
        assert n.taken[k].index == i;
      }
    }
  }

  lemma TakeKeeps<T>(s: State<T>, depth: nat)
    requires s.queue != [] && Inv(s, depth)
    ensures Inv(s.Take(), depth)
  {
    hide AllAccounted;
    TakeAccounts(s);
    LastTaken(s);
  }

  lemma LastTaken<T>(s: State<T>)
    requires AllAccounted(s)
    ensures forall k :: 0 <= k < |s.taken| ==> s.taken[k].index < s.Head()
  {}

  // ---- runs ----

  datatype Step<T> = DoSubmit(block: T) | DoClose | DoTake

  /** Any interleaving of submissions, one or more closes, and dequeues; a dequeue from an empty queue waits. */
  function Run<T>(s: State<T>, depth: nat, steps: seq<Step<T>>): (r: State<T>)
    requires depth > 0
    decreases |steps|
  {
    if steps == [] then s
    else
      var n := match steps[0]
        case DoSubmit(b) => s.Submit(depth, b)
        case DoClose => s.Close()
        case DoTake => if s.queue == [] then s else s.Take();
      Run(n, depth, steps[1..])
  }

  /** The invariant holds after every run. */
  lemma {:induction false} RunKeeps<T>(s: State<T>, depth: nat, steps: seq<Step<T>>)
    requires depth > 0 && Inv(s, depth)
    ensures Inv(Run(s, depth, steps), depth)
    decreases |steps|
  {
    if steps != [] {
      match steps[0]
      case DoSubmit(b) =>
        SubmitKeeps(s, depth, b);
        RunKeeps(s.Submit(depth, b), depth, steps[1..]);
      case DoClose =>
        RunKeeps(s.Close(), depth, steps[1..]);
      case DoTake =>
        if s.queue == [] {
          RunKeeps(s, depth, steps[1..]);
        } else {
          TakeKeeps(s, depth);
          RunKeeps(s.Take(), depth, steps[1..]);
        }
    }
  }

  function Takes<T>(steps: seq<Step<T>>): nat {
    if steps == [] then 0 else (if steps[0].DoTake? then 1 else 0) + Takes(steps[1..])
  }

  predicate Closes<T>(steps: seq<Step<T>>) {
    exists i :: 0 <= i < |steps| && steps[i].DoClose?
  }

  predicate NoSubmission<T>(steps: seq<Step<T>>) {
    forall i :: 0 <= i < |steps| ==> !steps[i].DoSubmit?
  }

  /** The blocks taken, in order. */
  function TakenBlocks<T>(s: State<T>): (r: seq<T>)
    requires forall k :: 0 <= k < |s.taken| ==> 0 <= s.taken[k].index < |s.submitted|
    ensures |r| == |s.taken|
  {
    seq(|s.taken|, k requires 0 <= k < |s.taken| => s.submitted[s.taken[k].index])
  }

  lemma SubmitTakesNothing<T>(s: State<T>, depth: nat, b: T)
    requires depth > 0 && Inv(s, depth)
    ensures Inv(s.Submit(depth, b), depth) && TakenBlocks(s.Submit(depth, b)) == TakenBlocks(s)
  {
    SubmitKeeps(s, depth, b);
  }

  lemma TakeAppends<T>(s: State<T>, depth: nat)
    requires s.queue != [] && Inv(s, depth)
    ensures Inv(s.Take(), depth)
    ensures TakenBlocks(s.Take()) == TakenBlocks(s) + [s.queue[0]]
  {
    TakeKeeps(s, depth);
  }

  function AtMost(n: nat, m: nat): (r: nat)
    ensures r <= n && r <= m && (r == n || r == m)
  {
    if n <= m then n else m
  }

  /** From `s` to `r` the first `n` queued blocks have been taken, in order, and nothing else has happened. */
  ghost predicate TookFirst<T>(s: State<T>, r: State<T>, depth: nat, n: nat)
    requires Inv(s, depth) && Inv(r, depth) && n <= |s.queue|
  {
    && r.submitted == s.submitted && r.dropped == s.dropped
    && r.queue == s.queue[n..] && TakenBlocks(r) == TakenBlocks(s) + s.queue[..n]
  }

  lemma TookNone<T>(s: State<T>, depth: nat)
    requires Inv(s, depth)
    ensures TookFirst(s, s, depth, 0)
  {
    hide TakenBlocks;
    NothingMore(TakenBlocks(s), s.queue);
  }

  lemma NothingMore<T>(taken: seq<T>, queue: seq<T>)
    ensures queue[0..] == queue && taken + queue[..0] == taken
  {}

  lemma TookMore<T>(s: State<T>, r: State<T>, depth: nat, n: nat)
    requires s.queue != [] && Inv(s, depth) && Inv(s.Take(), depth) && Inv(r, depth) && n < |s.queue|
    requires TookFirst(s.Take(), r, depth, n)
    ensures TookFirst(s, r, depth, n + 1)
  {
    hide TakenBlocks;
    TakeAppends(s, depth);
    OneMore(TakenBlocks(s), s.queue, n);
  }

  lemma OneMore<T>(taken: seq<T>, queue: seq<T>, n: nat)
    requires n < |queue|
    ensures queue[1..][n..] == queue[n + 1..] && taken + [queue[0]] + queue[1..][..n] == taken + queue[..n + 1]
  {}

  /**
   * In every run without submissions the worker takes the queued blocks in
   * order, nothing is dropped, and it can exit exactly once the queue has been
   * closed and there have been as many dequeues as there were blocks.
   */
  lemma {:induction false} CloseDrains<T>(s: State<T>, depth: nat, steps: seq<Step<T>>)
    requires depth > 0 && Inv(s, depth) && NoSubmission(steps)
    ensures var r := Run(s, depth, steps);
      && Inv(r, depth) && TookFirst(s, r, depth, AtMost(Takes(steps), |s.queue|))
      && (r.closed <==> s.closed || Closes(steps))
      && (r.WorkerExits() <==> r.closed && Takes(steps) >= |s.queue|)
    decreases |steps|
  {
    hide Inv, TookFirst, Closes;
    RunKeeps(s, depth, steps);
    if steps == [] {
      TookNone(s, depth);
      NothingCloses(steps);
    } else {
      var rest := steps[1..];
      ClosesSplit(steps);
      match steps[0]
      case DoClose =>
        ClosingKeeps(s, depth);
        CloseDrains(s.Close(), depth, rest);
        ClosedFirst(s, Run(s, depth, steps), depth, AtMost(Takes(rest), |s.queue|));
      case DoTake =>
        if s.queue == [] {
          CloseDrains(s, depth, rest);
        } else {
          TakeKeeps(s, depth);
          CloseDrains(s.Take(), depth, rest);
          TookMore(s, Run(s, depth, steps), depth, AtMost(Takes(rest), |s.queue| - 1));
        }
    }
    ExitsWhenTaken(s, Run(s, depth, steps), depth, AtMost(Takes(steps), |s.queue|));
  }

  lemma NothingCloses<T>(steps: seq<Step<T>>)
    requires steps == []
    ensures !Closes(steps)
  {}

  lemma ClosedFirst<T>(s: State<T>, r: State<T>, depth: nat, n: nat)
    requires Inv(s, depth) && Inv(s.Close(), depth) && Inv(r, depth) && n <= |s.queue|
    requires TookFirst(s.Close(), r, depth, n)
    ensures TookFirst(s, r, depth, n)
  {}

  lemma ExitsWhenTaken<T>(s: State<T>, r: State<T>, depth: nat, n: nat)
    requires Inv(s, depth) && Inv(r, depth) && n <= |s.queue| && TookFirst(s, r, depth, n)
    ensures r.WorkerExits() <==> r.closed && n == |s.queue|
  {
    hide TakenBlocks;
  }

  lemma ClosingKeeps<T>(s: State<T>, depth: nat)
    requires Inv(s, depth)
    ensures Inv(s.Close(), depth) && TakenBlocks(s.Close()) == TakenBlocks(s)
  {}

  lemma ClosesSplit<T>(steps: seq<Step<T>>)
    requires steps != []
    ensures Closes(steps) <==> steps[0].DoClose? || Closes(steps[1..])
    ensures NoSubmission(steps) ==> NoSubmission(steps[1..])
  {
    if Closes(steps[1..]) {
      var i :| 0 <= i < |steps| - 1 && steps[1..][i].DoClose?;
      assert steps[i + 1].DoClose?;
    }
    if Closes(steps) && !steps[0].DoClose? {
      var i :| 0 <= i < |steps| && steps[i].DoClose?;
      assert steps[1..][i - 1].DoClose?;
    }
  }

  // ---- the shared object ----

  class IqQueue<T> {
    const maxDepth: nat
    var queue: seq<T>
    var closed: bool
    ghost var submitted: seq<T>
    ghost var taken: seq<Taken>
    ghost var dropped: seq<int>

    ghost function Current(): State<T>
      reads this
    {
      State(queue, closed, submitted, taken, dropped)
    }

    ghost predicate Valid()
      reads this
    {
      maxDepth > 0 && Inv(Current(), maxDepth)
    }

    /** Every block the worker has dequeued, in order. */
    ghost function AllTaken(): (r: seq<T>)
      requires Valid()
      reads this
      ensures |r| == |taken|
    {
      TakenBlocks(Current())
    }

    constructor (maxDepth: nat)
      requires maxDepth > 0
      ensures Valid() && this.maxDepth == maxDepth && Current() == Empty() && queue == [] && !closed
    {
      this.maxDepth := maxDepth;
      queue, closed := [], false;
      submitted, taken, dropped := [], [], [];
    }

    method Submit(b: T)
      requires Valid()
      modifies this
      ensures Valid() && Current() == old(Current()).Submit(maxDepth, b)
      ensures AllTaken() == old(AllTaken())
      ensures queue == (if |old(queue)| < maxDepth then old(queue) else old(queue)[1..]) + [b] && closed == old(closed)
    {
      hide Inv, TakenBlocks;
      SubmitTakesNothing(Current(), maxDepth, b);
      if |queue| >= maxDepth {
        dropped := dropped + [|submitted| - |queue|];
        queue := queue[1..];
      }
      queue := queue + [b];
      submitted := submitted + [b];
    }

    method Close()
      requires Valid()
      modifies this
      ensures Valid() && Current() == old(Current()).Close()
      ensures AllTaken() == old(AllTaken()) && queue == old(queue) && closed
    {
      closed := true;
    }

    method Take() returns (b: T)
      requires Valid() && queue != []
      modifies this
      ensures Valid() && Current() == old(Current()).Take()
      ensures b == old(queue)[0] && AllTaken() == old(AllTaken()) + [b]
      ensures queue == old(queue)[1..] && closed == old(closed)
    {
      hide Inv, TakenBlocks;
      TakeAppends(Current(), maxDepth);
      b := queue[0];
      taken := taken + [Taken(|submitted| - |queue|, |submitted|)];
      queue := queue[1..];
    }
  }
}
