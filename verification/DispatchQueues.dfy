/**
 The GIL-free queues as objects.  Each method is one critical section (or, where noted,
 one call on the socket pair); `pushed` and `popped` record all traffic, and Valid() says
 that nothing is lost, duplicated or reordered on the way.
 */
module DispatchQueues {
  import opened Options
  import opened DispatchModel

  type OpId = nat

  // ── nng/cpp/dispatch.hpp ───────────────────────────────────────────────

  class DispatchQueue {
    var queue: seq<OpId>
    var stopped: bool
    ghost var pushed: seq<OpId>
    ghost var popped: seq<OpId>

    /** Items pushed are the items popped followed by the items still queued, in order. */
    ghost predicate Valid()
      reads this
    {
      pushed == popped + queue
    }

    constructor ()
      ensures Valid() && queue == [] && !stopped && pushed == [] && popped == []
    {
      queue, stopped, pushed, popped := [], false, [], [];
    }

    method Push(id: OpId)
      requires Valid()
      modifies this
      ensures Valid() && queue == old(queue) + [id] && stopped == old(stopped)
      ensures pushed == old(pushed) + [id] && popped == old(popped)
      ensures (queue, []) == Perform(old(queue), DoPush(id))
    {
      queue := queue + [id];
      pushed := pushed + [id];
    }

    method GetReady() returns (r: Option<OpId>)
      requires Valid()
      modifies this
      ensures Valid() && pushed == old(pushed) && stopped == old(stopped)
      ensures r.None? <==> old(queue) == []
      ensures old(queue) == Taken(r) + queue && popped == old(popped) + Taken(r)
      ensures (queue, Taken(r)) == Perform(old(queue), DoGetReady)
    {
      if queue == [] {
        return None;
      }
      r := Some(queue[0]);
      popped := popped + [queue[0]];
      queue := queue[1..];
    }

    /** Other threads push, and possibly stop, while the lock is free. */
    method LetOthersIn(w: Wait)
      requires Valid()
      modifies this`queue, this`pushed, this`stopped
      ensures Valid() && queue == old(queue) + w.arrived && pushed == old(pushed) + w.arrived
      ensures stopped == (old(stopped) || w.stop)
    {
      queue := queue + w.arrived;
      pushed := pushed + w.arrived;
      stopped := stopped || w.stop;
    }

    /** `_cv.wait_for`: until the predicate holds or the time is up, other threads have the lock. */
    method Await(waits: seq<Wait>) returns (k: nat)
      requires Valid()
      modifies this`queue, this`pushed, this`stopped
      ensures Valid() && k <= |waits|
      ensures queue == old(queue) + Arrived(waits[..k]) && pushed == old(pushed) + Arrived(waits[..k])
      ensures stopped == (old(stopped) || Stops(waits[..k]))
      ensures queue == [] ==> stopped || k == |waits|
      ensures old(queue) != [] || old(stopped) ==> k == 0
    {
      k := 0;
      while !(queue != [] || stopped) && k < |waits|
        invariant Valid() && k <= |waits|
        invariant queue == old(queue) + Arrived(waits[..k]) && pushed == old(pushed) + Arrived(waits[..k])
        invariant stopped == (old(stopped) || Stops(waits[..k]))
        invariant old(queue) != [] || old(stopped) ==> k == 0
      {
        ArrivedSnoc(waits[..k], waits[k]);
        assert waits[..k + 1] == waits[..k] + [waits[k]];
        LetOthersIn(waits[k]);
        k := k + 1;
      }
    }

    /**
     wait_for: `waits` is what other threads did in each interval in which the lock was free, up
     to the timeout, and `k` how many such intervals there were.  False is returned only on an
     empty queue, after a stop or at the timeout.
     */
    method WaitFor(waits: seq<Wait>) returns (r: Option<OpId>, k: nat)
      requires Valid()
      modifies this
      ensures Valid() && k <= |waits| && pushed == old(pushed) + Arrived(waits[..k])
      ensures stopped == (old(stopped) || Stops(waits[..k]))
      ensures (queue, Taken(r)) == Perform(old(queue) + Arrived(waits[..k]), DoWaitFor)
      ensures popped == old(popped) + Taken(r)
      ensures r.None? ==> queue == [] && (stopped || k == |waits|)
      ensures old(queue) != [] || old(stopped) ==> k == 0
    {
      k := Await(waits);
      var woken := queue != [] || stopped;
      if woken && queue != [] {
        assert queue[..1] == [queue[0]];
        r := Some(queue[0]);
        popped := popped + [queue[0]];
        queue := queue[1..];
      } else {
        assert popped + [] == popped;
        r := None;
      }
    }

    /** Nothing is dropped by stopping. */
    method Stop()
      requires Valid()
      modifies this
      ensures Valid() && stopped && queue == old(queue) && pushed == old(pushed) && popped == old(popped)
      ensures (queue, []) == Perform(old(queue), DoStop)
    {
      stopped := true;
    }

    /**
     One pass of the dispatcher thread: get_ready until it fails.  Between two calls other threads
     may push, as `waits` says; `k` is how many of those intervals the pass had.  It hands out
     what was queued and what arrived, in order, and leaves nothing.
     */
    method DrainPass(waits: seq<Wait>) returns (items: seq<OpId>, k: nat)
      requires Valid()
      modifies this
      ensures Valid() && k <= |waits| && queue == [] && items == old(queue) + Arrived(waits[..k])
      ensures pushed == old(pushed) + Arrived(waits[..k]) && popped == old(popped) + items
      ensures stopped == (old(stopped) || Stops(waits[..k])) && (old(queue) == [] ==> k == 0)
    {
      items, k := [], 0;
      var r := GetReady();
      while r.Some?
        invariant Valid() && k <= |waits| && (old(queue) == [] ==> r.None? && k == 0) && (r.None? ==> queue == [])
        invariant items + (Taken(r) + queue) == old(queue) + Arrived(waits[..k])
        invariant pushed == old(pushed) + Arrived(waits[..k]) && stopped == (old(stopped) || Stops(waits[..k]))
        decreases |waits| - k, |queue|, r.Some?
      {
        Associates(items, [r.value], queue);
        items := items + [r.value];
        ghost var rest := queue;
        if k < |waits| {
          ArrivedSnoc(waits[..k], waits[k]);
          assert waits[..k + 1] == waits[..k] + [waits[k]];
          LetOthersIn(waits[k]);
          Associates(items, rest, waits[k].arrived);
          Associates(old(queue), Arrived(waits[..k]), waits[k].arrived);
          Associates(old(pushed), Arrived(waits[..k]), waits[k].arrived);
          k := k + 1;
        }
        assert items + queue == old(queue) + Arrived(waits[..k]);
        r := GetReady();
      }
      Associates(old(popped), old(queue), Arrived(waits[..k]));
    }
  }

  function Taken(r: Option<OpId>): seq<OpId> {
    if r.Some? then [r.value] else []
  }

  lemma Associates(a: seq<OpId>, b: seq<OpId>, c: seq<OpId>)
    ensures a + (b + c) == (a + b) + c
  {
  }

  /** What other threads do while the consumer does not have the lock. */
  datatype Wait = Wait(arrived: seq<OpId>, stop: bool)

  function Arrived(waits: seq<Wait>): seq<OpId> {
    if waits == [] then [] else Arrived(waits[..|waits| - 1]) + waits[|waits| - 1].arrived
  }

  function Stops(waits: seq<Wait>): bool {
    if waits == [] then false else Stops(waits[..|waits| - 1]) || waits[|waits| - 1].stop
  }

  lemma ArrivedSnoc(waits: seq<Wait>, w: Wait)
    ensures Arrived(waits + [w]) == Arrived(waits) + w.arrived && Stops(waits + [w]) == (Stops(waits) || w.stop)
  {
    assert (waits + [w])[..|waits|] == waits;
  }

  /** The operations of the queue in the order in which they got the lock. */
  datatype QueueOp = DoPush(id: OpId) | DoGetReady | DoWaitFor | DoStop

  /** What one operation leaves in the queue, and what it hands out (nothing or one id). */
  function Perform(queue: seq<OpId>, op: QueueOp): (r: (seq<OpId>, seq<OpId>))
    ensures (op == DoGetReady || op == DoWaitFor) ==> (r.1 == [] <==> queue == [])
  {
    match op
    case DoPush(id) => (queue + [id], [])
    case DoStop => (queue, [])
    case _ => if queue == [] then (queue, []) else (queue[1..], queue[..1])
  }

  function PerformAll(queue: seq<OpId>, ops: seq<QueueOp>): (seq<OpId>, seq<OpId>)
    decreases ops
  {
    if ops == [] then (queue, [])
    else
      var (queue', out) := Perform(queue, ops[0]);
      var (final, outs) := PerformAll(queue', ops[1..]);
      (final, out + outs)
  }

  function Pushes(ops: seq<QueueOp>): seq<OpId> {
    if ops == [] then []
    else (if ops[0].DoPush? then [ops[0].id] else []) + Pushes(ops[1..])
  }

  /** Whatever the order of operations: first in, first out, nothing lost, nothing invented. */
  lemma {:induction false} QueueConservation(queue: seq<OpId>, ops: seq<QueueOp>)
    ensures var (final, outs) := PerformAll(queue, ops);
      queue + Pushes(ops) == outs + final
    decreases ops
  {
    if ops != [] {
      var (queue', out) := Perform(queue, ops[0]);
      QueueConservation(queue', ops[1..]);
      var (final, outs) := PerformAll(queue', ops[1..]);
      calc {
        queue + Pushes(ops);
        out + queue' + Pushes(ops[1..]);
        out + (queue' + Pushes(ops[1..]));
        out + (outs + final);
        (out + outs) + final;
      }
    }
  }

  // ── nng/cpp/platform.hpp (POSIX) ───────────────────────────────────────

  class SockDispatchQueue {
    var queue: seq<OpId>
    var bytes: nat          // unread wakeup bytes in the socket pair
    const capacity: nat     // how many the kernel buffers
    ghost var pushed: seq<OpId>
    ghost var batches: seq<seq<OpId>>   // what drain_ready and get_ready handed out

    ghost predicate Valid()
      reads this
    {
      pushed == Concat(batches) + queue && bytes <= capacity
    }

    constructor (capacity: nat)
      ensures Valid() && queue == [] && bytes == 0 && this.capacity == capacity && pushed == [] && batches == []
    {
      this.capacity := capacity;
      queue, bytes, pushed, batches := [], 0, [], [];
    }

    /** The critical section of push. */
    method PushLocked(id: OpId) returns (wasEmpty: bool)
      requires Valid()
      modifies this
      ensures Valid() && queue == old(queue) + [id] && wasEmpty == (old(queue) == [])
      ensures bytes == old(bytes) && batches == old(batches) && pushed == old(pushed) + [id]
    {
      wasEmpty := queue == [];
      queue := queue + [id];
      pushed := pushed + [id];
    }

    /** send(.., MSG_DONTWAIT) of one byte; the result is ignored. */
    method SendWakeup()
      requires Valid()
      modifies this`bytes
      ensures Valid() && bytes == Send(old(bytes), capacity)
    {
      if bytes < capacity {
        bytes := bytes + 1;
      }
    }

    method Push(id: OpId)
      requires Valid()
      modifies this
      ensures Valid() && queue == old(queue) + [id] && batches == old(batches) && pushed == old(pushed) + [id]
      ensures bytes == if old(queue) == [] then Send(old(bytes), capacity) else old(bytes)
    {
      var wasEmpty := PushLocked(id);
      if wasEmpty {
        SendWakeup();
      }
    }

    method GetReady() returns (r: Option<OpId>)
      requires Valid()
      modifies this
      ensures Valid() && pushed == old(pushed) && bytes == old(bytes)
      ensures r.None? <==> old(queue) == []
      ensures r.Some? ==> old(queue) == [r.value] + queue && batches == old(batches) + [[r.value]]
      ensures r.None? ==> queue == [] && batches == old(batches)
    {
      if queue == [] {
        return None;
      }
      r := Some(queue[0]);
      ConcatSnoc(batches, [queue[0]]);
      batches := batches + [[queue[0]]];
      queue := queue[1..];
    }

    /** Everything queued is appended to `out`, in push order. */
    method DrainReady(out: seq<OpId>) returns (r: seq<OpId>)
      requires Valid()
      modifies this
      ensures Valid() && r == out + old(queue) && queue == []
      ensures pushed == old(pushed) && bytes == old(bytes) && batches == old(batches) + [old(queue)]
    {
      r := out + queue;
      ConcatSnoc(batches, queue);
      batches := batches + [queue];
      queue := [];
    }

    /** recv() until it reports that nothing is left. */
    method DrainWakeup()
      requires Valid()
      modifies this`bytes
      ensures Valid() && bytes == 0
    {
      while bytes > 0
        invariant Valid()
        decreases bytes
      {
        bytes := Recv(bytes);
      }
    }

    /** The concatenated batches are a prefix of the push order. */
    lemma DrainedIsPrefix()
      requires Valid()
      ensures Concat(batches) <= pushed
    {
    }
  }

  ghost function Concat(batches: seq<seq<OpId>>): seq<OpId> {
    if batches == [] then [] else batches[0] + Concat(batches[1..])
  }

  lemma {:induction false} ConcatSnoc(batches: seq<seq<OpId>>, batch: seq<OpId>)
    ensures Concat(batches + [batch]) == Concat(batches) + batch
  {
    if batches == [] {
      assert [batch][1..] == [];
    } else {
      ConcatSnoc(batches[1..], batch);
      assert (batches + [batch])[1..] == batches[1..] + [batch];
    }
  }

  /** The per-op container: one flag raced for by fire() and reach_skip_point(). */
  class DispatchQueueContainer {
    const queue: SockDispatchQueue
    const opId: OpId
    var skipPointReached: bool

    constructor (queue: SockDispatchQueue, opId: OpId)
      ensures this.queue == queue && this.opId == opId && !skipPointReached
    {
      this.queue, this.opId, skipPointReached := queue, opId, false;
    }

    /** compare_exchange_strong(0, 1) */
    method SwapFlag() returns (won: bool)
      modifies this
      ensures won == !old(skipPointReached) && skipPointReached
    {
      won := !skipPointReached;
      skipPointReached := true;
    }

    /** First to the flag: nothing is pushed.  Second: the id is pushed exactly once. */
    method Fire()
      requires queue.Valid()
      modifies this, queue
      ensures queue.Valid() && skipPointReached
      ensures queue.pushed == if old(skipPointReached) then old(queue.pushed) + [opId] else old(queue.pushed)
      ensures queue.queue == if old(skipPointReached) then old(queue.queue) + [opId] else old(queue.queue)
      ensures queue.batches == old(queue.batches)
    {
      var won := SwapFlag();
      if !won {
        queue.Push(opId);
      }
    }

    /** True when fire() came first. */
    method ReachSkipPoint() returns (skipped: bool)
      modifies this
      ensures skipped == old(skipPointReached) && skipPointReached
    {
      var won := SwapFlag();
      skipped := !won;
    }
  }
}
