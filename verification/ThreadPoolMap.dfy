/**
 NngThreadPool.map as the generator it is: each Next() runs to the following yield.
 Futures are named by the position of their item.  `accepts` says which submit() calls
 succeed and `outcomes` what each future's result(timeout) does.
 */
module ThreadPoolMap {
  import opened Options

  const DEFAULT_SEND_BUF := 8192

  datatype Outcome<T> = Value(value: T) | Error

  datatype Reply<T> = Yield(value: T) | Raise | Stop

  datatype Phase = Unstarted | Submitting | Draining | Over

  function Max(a: int, b: int): int {
    if a >= b then a else b
  }

  /** How many futures may be outstanding. */
  function Window(buffersize: Option<int>): nat {
    Max(1, if buffersize.Some? then buffersize.value else DEFAULT_SEND_BUF)
  }

  /** The send buffer once the generator has started. */
  function StartBuf(buffersize: Option<int>, workers: nat, before: nat): nat {
    if buffersize.Some? then Max(0, buffersize.value - workers) else before
  }

  /** Result number k cannot be delivered: its future fails, or an item that must be submitted first is refused. */
  ghost predicate Blocked<T>(accepts: seq<bool>, outcomes: seq<Outcome<T>>, window: nat, k: nat)
    requires |accepts| == |outcomes| && k < |outcomes|
  {
    outcomes[k].Error? || exists j :: 0 <= j < |accepts| && j < k + window && !accepts[j]
  }

  class MapGenerator<T> {
    const accepts: seq<bool>
    const outcomes: seq<Outcome<T>>
    const buffersize: Option<int>
    const workers: nat

    var phase: Phase
    var sendBuf: nat
    var submitted: nat
    var futures: seq<nat>        // the deque
    var drained: nat             // position of the second loop in it
    ghost var yielded: seq<T>
    ghost var peak: nat          // most futures submitted and not yet delivered

    ghost predicate Valid()
      reads this
    {
      && |accepts| == |outcomes| && submitted <= |outcomes| && drained <= |futures|
      && |yielded| <= submitted && peak <= Window(buffersize) && submitted - |yielded| <= Window(buffersize)
      && (forall k :: 0 <= k < |yielded| ==> outcomes[k] == Value(yielded[k]))
      && (forall j :: 0 <= j < submitted ==> accepts[j])
      && (phase == Unstarted ==> submitted == 0)
      && (phase == Unstarted || phase == Submitting || phase == Draining ==> Deque())
      && (phase == Unstarted || phase == Submitting ==> drained == 0 && |futures| < Window(buffersize))
      && (phase == Draining ==> submitted == |outcomes| && |futures| < Window(buffersize))
    }

    /** The undelivered futures, in submission order. */
    ghost predicate Deque()
      reads this
    {
      && |yielded| + |futures| - drained == submitted
      && forall j :: 0 <= j < |futures| ==> futures[j] == |yielded| - drained + j
    }

    constructor (accepts: seq<bool>, outcomes: seq<Outcome<T>>, buffersize: Option<int>, workers: nat)
      requires |accepts| == |outcomes|
      ensures Valid() && phase == Unstarted && yielded == []
      ensures this.accepts == accepts && this.outcomes == outcomes && this.buffersize == buffersize
    {
      this.accepts, this.outcomes, this.buffersize, this.workers := accepts, outcomes, buffersize, workers;
      phase, sendBuf, submitted, futures, drained, yielded, peak := Unstarted, DEFAULT_SEND_BUF, 0, [], 0, [], 0;
    }

    /** One delivery: the oldest future's result, or the end of the generator. */
    method Deliver(f: nat) returns (r: Reply<T>)
      requires f < |outcomes|
      modifies this`phase, this`yielded
      ensures outcomes[f].Error? ==> r == Raise && phase == Over && yielded == old(yielded)
      ensures outcomes[f].Value? ==>
        r == Yield(outcomes[f].value) && phase == old(phase) && yielded == old(yielded) + [outcomes[f].value]
    {
      match outcomes[f]
      case Value(v) =>
        yielded := yielded + [v];
        r := Yield(v);
      case Error =>
        phase := Over;
        r := Raise;
    }

    /** `futures.append(self.submit(fn, *args))`. */
    method Append()
      requires Valid() && phase == Submitting && submitted < |outcomes| && accepts[submitted]
      modifies this`futures, this`submitted, this`peak
      ensures submitted == old(submitted) + 1 && |futures| == old(|futures|) + 1
      ensures Deque() && peak <= Window(buffersize) && (|futures| < Window(buffersize) ==> Valid())
    {
      futures := futures + [submitted];
      submitted := submitted + 1;
      peak := Max(peak, submitted - |yielded|);
    }

    /** `yield futures.popleft().result(timeout=timeout)` on a full window. */
    method DeliverOldest() returns (r: Reply<T>)
      requires phase == Submitting && |futures| == Window(buffersize) && Deque() && drained == 0
      requires |accepts| == |outcomes| && submitted <= |outcomes| && peak <= Window(buffersize)
      requires forall k :: 0 <= k < |yielded| ==> outcomes[k] == Value(yielded[k])
      requires forall j :: 0 <= j < submitted ==> accepts[j]
      modifies this`futures, this`phase, this`yielded
      ensures Valid() && !r.Stop?
      ensures r.Yield? ==> phase == Submitting && yielded == old(yielded) + [r.value] && |yielded| <= |outcomes|
      ensures r == Raise ==> phase == Over && yielded == old(yielded) && |yielded| < |outcomes|
      ensures r == Raise <==> Blocked(accepts, outcomes, Window(buffersize), |old(yielded)|)
    {
      var f := futures[0];
      futures := futures[1..];
      r := Deliver(f);
    }

    /** The first loop, up to its next yield; Stop means that it ended without one. */
    method SubmitLoop() returns (r: Reply<T>)
      requires Valid() && phase == Submitting
      modifies this
      ensures Valid() && sendBuf == old(sendBuf)
      ensures r == Stop ==> phase == Draining && yielded == old(yielded)
      ensures r.Yield? ==> phase == Submitting && yielded == old(yielded) + [r.value] && |yielded| <= |outcomes|
      ensures r == Raise ==> phase == Over && yielded == old(yielded) && |yielded| < |outcomes|
      ensures r != Stop ==> (r == Raise <==> Blocked(accepts, outcomes, Window(buffersize), |old(yielded)|))
    {
      var limit := if buffersize.Some? then buffersize.value else DEFAULT_SEND_BUF;
      while submitted < |outcomes|
        invariant Valid() && phase == Submitting && yielded == old(yielded) && sendBuf == old(sendBuf)
        decreases |outcomes| - submitted
      {
        if !accepts[submitted] {
          phase := Over;
          return Raise;
        }
        Append();
        if |futures| >= limit {
          r := DeliverOldest();
          return;
        }
      }
      phase := Draining;
      return Stop;
    }

    /** The second loop, up to its next yield; at its end the send buffer is restored. */
    method DrainLoop() returns (r: Reply<T>)
      requires Valid() && phase == Draining
      modifies this
      ensures Valid()
      ensures r == Stop ==>
        phase == Over && |yielded| == |outcomes| && yielded == old(yielded) && sendBuf == DEFAULT_SEND_BUF
      ensures r.Yield? ==> phase == Draining && yielded == old(yielded) + [r.value] && |yielded| <= |outcomes|
      ensures r == Raise ==> phase == Over && yielded == old(yielded) && |yielded| < |outcomes|
      ensures r != Stop ==> sendBuf == old(sendBuf)
      ensures r != Stop ==> (r == Raise <==> Blocked(accepts, outcomes, Window(buffersize), |old(yielded)|))
    {
      if drained < |futures| {
        var f := futures[drained];
        drained := drained + 1;
        r := Deliver(f);
      } else {
        sendBuf := DEFAULT_SEND_BUF;
        phase := Over;
        r := Stop;
      }
    }

    /**
     next() on the generator.  Results come in input order; the k-th comes exactly when it is
     not blocked; after the end or an error nothing comes; the window is never exceeded.
     */
    method Next() returns (r: Reply<T>)
      requires Valid()
      modifies this
      ensures Valid()
      ensures submitted - |yielded| <= 1 || submitted - |yielded| <= buffersize.GetOr(DEFAULT_SEND_BUF)
      ensures peak <= 1 || peak <= buffersize.GetOr(DEFAULT_SEND_BUF)
      ensures old(phase) == Over ==> r == Stop && phase == Over && yielded == old(yielded)
      ensures old(phase) != Over && r == Stop ==> |old(yielded)| == |outcomes| && sendBuf == DEFAULT_SEND_BUF
      ensures r != Stop ==>
        sendBuf == if old(phase) == Unstarted then StartBuf(buffersize, workers, old(sendBuf)) else old(sendBuf)
      ensures r.Yield? ==> phase != Over && |yielded| <= |outcomes| && yielded == old(yielded) + [r.value]
      ensures !r.Yield? ==> phase == Over && yielded == old(yielded)
      ensures old(phase) != Over && r != Stop ==>
        |old(yielded)| < |outcomes| && (r == Raise <==> Blocked(accepts, outcomes, Window(buffersize), |old(yielded)|))
    {
      if phase == Over {
        return Stop;
      }
      if phase == Unstarted {
        if buffersize.Some? {
          sendBuf := Max(0, buffersize.value - workers);
        }
        phase := Submitting;
      }
      if phase == Submitting {
        r := SubmitLoop();
        if r != Stop {
          return;
        }
      }
      r := DrainLoop();
    }
  }

  /** list(pool.map(...)), with the flag set when the generator raised. */
  method Collect<T>(accepts: seq<bool>, outcomes: seq<Outcome<T>>, buffersize: Option<int>, workers: nat)
    returns (results: seq<T>, raised: bool)
    requires |accepts| == |outcomes|
    ensures |results| <= |outcomes| && forall k :: 0 <= k < |results| ==> outcomes[k] == Value(results[k])
    ensures forall k :: 0 <= k < |results| ==> !Blocked(accepts, outcomes, Window(buffersize), k)
    ensures raised <==> |results| < |outcomes|
    ensures raised ==> Blocked(accepts, outcomes, Window(buffersize), |results|)
  {
    var g := new MapGenerator(accepts, outcomes, buffersize, workers);
    results, raised := [], false;
    while true
      invariant fresh(g) && g.Valid() && g.phase != Over && !raised && results == g.yielded
      invariant g.accepts == accepts && g.outcomes == outcomes && g.buffersize == buffersize
      invariant forall k :: 0 <= k < |results| ==> !Blocked(accepts, outcomes, Window(buffersize), k)
      decreases |outcomes| - |results|
    {
      var r := g.Next();
      match r
      case Yield(v) => results := results + [v];
      case Raise => return results, true;
      case Stop => return;
    }
  }
}
