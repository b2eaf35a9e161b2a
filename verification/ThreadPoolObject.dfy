/**
 NngThreadPool as the object it is.  Its methods are the threads of the step relation run
 without interruption: what they do to _pending and to the futures is what those steps do.
 */
module ThreadPoolObject {
  import opened Options
  import opened ThreadPool

  function Futures(calls: map<CallRef, Call>): map<CallRef, Future> {
    map c | c in calls :: calls[c].fut
  }

  // ── The cancel loop ────────────────────────────────────────────────────

  /** The futures in `taken` that were undone are cancelled; the others stay as they are. */
  function CancelAll(taken: set<CallRef>, futures: map<CallRef, Future>): map<CallRef, Future> {
    map c | c in futures :: if c in taken && futures[c] == Undone then Cancelled else futures[c]
  }

  lemma CancelMore(taken: set<CallRef>, c: CallRef, futures: map<CallRef, Future>)
    ensures CancelAll(taken + {c}, futures) == CancelAll(taken, CancelAll({c}, futures))
  {
  }

  predicate CanCancel(s: State, k: ShutRef) {
    ShutAt(s, k, Cancelling) && forall i :: i in s.pending ==> s.pending[i] in s.calls
  }

  /** One round: popitem takes entry i, cancel() its future. */
  lemma CancelRound(s: State, k: ShutRef, i: nat) returns (s2: State)
    requires CanCancel(s, k) && i in s.pending
    ensures Run(s, [TakeItem(k, i), CancelItem(k)], s2) && CanCancel(s2, k)
    ensures s2.pending == s.pending - {i} && Futures(s2.calls) == CancelAll({s.pending[i]}, Futures(s.calls))
  {
    var s1 := TakeRuns(s, k, i);
    s2 := Next(s1, CancelItem(k));
    RunOne(s1, CancelItem(k));
    CancelEffect(s1, k, s.pending[i]);
    RunConcat(s, [TakeItem(k, i)], s1, [CancelItem(k)], s2);
    assert [TakeItem(k, i)] + [CancelItem(k)] == [TakeItem(k, i), CancelItem(k)];
  }

  lemma TakeRuns(s: State, k: ShutRef, i: nat) returns (s1: State)
    requires CanCancel(s, k) && i in s.pending
    ensures Run(s, [TakeItem(k, i)], s1) && Futures(s1.calls) == Futures(s.calls) && s1.calls.Keys == s.calls.Keys
    ensures s1.pending == s.pending - {i} && k in s1.shuts && s1.shuts[k].pc == Holding(s.pending[i])
  {
    RunOne(s, TakeItem(k, i));
    s1 := Next(s, TakeItem(k, i));
    var c := s.pending[i];
    FuturesSet(s.calls, c, s1.calls[c]);
  }

  lemma CancelEffect(s: State, k: ShutRef, c: CallRef)
    requires k in s.shuts && s.shuts[k].pc == Holding(c) && c in s.calls
    ensures var s1 := DoCancelItem(s, k);
      && Futures(s1.calls) == CancelAll({c}, Futures(s.calls)) && s1.calls.Keys == s.calls.Keys
      && s1.pending == s.pending && ShutAt(s1, k, Cancelling)
  {
    var q := DoCancelItem(s, k).calls[c];
    FuturesSet(s.calls, c, q);
    assert q.fut == if s.calls[c].fut == Undone then Cancelled else s.calls[c].fut;
  }

  /** The whole loop is a run: it empties _pending and cancels what was pending and undone. */
  lemma {:induction false} CancelLoopRuns(s: State, k: ShutRef) returns (trace: seq<Step>, s1: State)
    requires CanCancel(s, k)
    ensures Run(s, trace, s1) && Enabled(s1, SawEmpty(k)) && s1.pending == map[]
    ensures Futures(s1.calls) == CancelAll(s.pending.Values, Futures(s.calls))
    decreases |s.pending|
  {
    if s.pending == map[] {
      trace, s1 := [], s;
      assert Futures(s1.calls) == CancelAll({}, Futures(s.calls));
    } else {
      var i :| i in s.pending;
      var s2 := CancelRound(s, k, i);
      var rest: seq<Step>;
      rest, s1 := CancelLoopRuns(s2, k);
      trace := [TakeItem(k, i), CancelItem(k)] + rest;
      RunConcat(s, [TakeItem(k, i), CancelItem(k)], s2, rest, s1);
      CancelMore(s2.pending.Values, s.pending[i], Futures(s.calls));
      ValuesWithout(s.pending, i);
    }
  }

  lemma ValuesWithout(m: map<nat, CallRef>, i: nat)
    requires i in m
    ensures m.Values == (m - {i}).Values + {m[i]}
  {
    forall c | c in m.Values ensures c in (m - {i}).Values + {m[i]} {
      var j :| j in m && m[j] == c;
      assert j != i ==> j in m - {i} && (m - {i})[j] == c;
    }
  }

  // ── submit and the worker loop ─────────────────────────────────────────

  /** An uninterrupted submit before shutdown: the next number is handed out, stored and sent. */
  lemma SubmitRuns(s: State, c: CallRef) returns (trace: seq<Step>, s1: State)
    requires c !in s.calls && s.lock == None && !s.shutdown
    ensures Run(s, trace, s1) && s1.lock == None && s1.next == s.next + 1
    ensures s1.pending == s.pending[s.next := c] && Futures(s1.calls) == Futures(s.calls)[c := Undone]
    ensures s1.channel == if s.closed then s.channel else s.channel + multiset{s.next}
    ensures s1.callOf == s.callOf[s.next := c] && c in s1.calls
  {
    var s2 := NumberRuns(s, c);
    var rest: seq<Step>;
    rest, s1 := FileRuns(s2, c);
    trace := [Enter(c), ReadId(c), BumpId(c)] + rest;
    RunConcat(s, [Enter(c), ReadId(c), BumpId(c)], s2, rest, s1);
    FuturesAdd(s.calls, c, s2.calls[c]);
  }

  lemma FuturesAdd(calls: map<CallRef, Call>, c: CallRef, p: Call)
    ensures Futures(calls[c := p]) == Futures(calls)[c := p.fut]
  {
  }

  lemma FileRuns(s: State, c: CallRef) returns (trace: seq<Step>, s1: State)
    requires CallAt(s, c, Allocated)
    ensures Run(s, trace, s1) && s1.next == s.next && s1.lock == s.lock && s1.callOf == s.callOf && c in s1.calls
    ensures s1.pending == s.pending[s.calls[c].id := c] && Futures(s1.calls) == Futures(s.calls)
    ensures s1.channel == if s.closed then s.channel else s.channel + multiset{s.calls[c].id}
  {
    var s2 := Next(s, Store(c));
    RunOne(s, Store(c));
    FuturesSet(s.calls, c, s2.calls[c]);
    var last := if s.closed then SendFails(c) else Send(c);
    s1 := SendRuns(s2, c, last);
    trace := [Store(c)] + [last];
    RunConcat(s, [Store(c)], s2, [last], s1);
  }

  lemma SendRuns(s: State, c: CallRef, last: Step) returns (s1: State)
    requires CallAt(s, c, Stored) && last == if s.closed then SendFails(c) else Send(c)
    ensures Run(s, [last], s1) && Futures(s1.calls) == Futures(s.calls) && c in s1.calls
    ensures s1 == s.(calls := s1.calls, channel := s1.channel)
    ensures s1.channel == if s.closed then s.channel else s.channel + multiset{s.calls[c].id}
  {
    s1 := Next(s, last);
    RunOne(s, last);
    FuturesSet(s.calls, c, s1.calls[c]);
  }

  lemma NumberRuns(s: State, c: CallRef) returns (s1: State)
    requires c !in s.calls && s.lock == None && !s.shutdown
    ensures Run(s, [Enter(c), ReadId(c), BumpId(c)], s1)
    ensures s1 == s.(calls := s.calls[c := NewCall().(pc := Allocated, id := s.next)], next := s.next + 1,
                     callOf := s.callOf[s.next := c])
  {
    var s2 := s.(calls := s.calls[c := NewCall()]);
    RunOne(s, Enter(c));
    s1 := AllocateRuns(s2, c);
    RunConcat(s, [Enter(c)], s2, [ReadId(c), BumpId(c)], s1);
    assert [Enter(c)] + [ReadId(c), BumpId(c)] == [Enter(c), ReadId(c), BumpId(c)];
    assert s1.calls == s.calls[c := NewCall().(pc := Allocated, id := s.next)];
  }

  lemma AllocateRuns(s: State, c: CallRef) returns (s1: State)
    requires c in s.calls && s.calls[c] == NewCall() && s.lock == None
    ensures Run(s, [ReadId(c), BumpId(c)], s1)
    ensures s1 == s.(calls := s.calls[c := NewCall().(pc := Allocated, id := s.next)], next := s.next + 1,
                     callOf := s.callOf[s.next := c])
  {
    var s2 := Next(s, ReadId(c));
    RunOne(s, ReadId(c));
    s1 := Next(s2, BumpId(c));
    RunOne(s2, BumpId(c));
    RunConcat(s, [ReadId(c)], s2, [BumpId(c)], s1);
    assert [ReadId(c)] + [BumpId(c)] == [ReadId(c), BumpId(c)];
    assert s1.calls == s.calls[c := NewCall().(pc := Allocated, id := s.next)];
  }

  predicate HasOutcome(f: Future) {
    f == Result || f == Failure
  }

  function Settled(futures: map<CallRef, Future>, c: CallRef, ok: bool): map<CallRef, Future> {
    if c in futures then futures[c := Outcome(futures[c], ok)] else futures
  }

  /** What one turn of the worker loop does to the futures. */
  function AfterTurn(futures: map<CallRef, Future>, pending: map<nat, CallRef>, i: nat, ok: bool): map<CallRef, Future>
  {
    if i in pending then Settled(futures, pending[i], ok) else futures
  }

  /** An uninterrupted turn of the worker that receives message i. */
  lemma TurnRuns(s: State, w: Worker, i: nat, ok: bool) returns (trace: seq<Step>, s1: State)
    requires Enabled(s, Recv(w, i)) && (i in s.pending ==> s.pending[i] in s.calls)
    ensures Run(s, trace, s1) && s1.pending == s.pending - {i} && s1.channel == s.channel - multiset{i}
    ensures Futures(s1.calls) == AfterTurn(Futures(s.calls), s.pending, i, ok)
    ensures w in s1.workers && (s1.workers[w] == Waiting || s1.workers[w].Crashed?)
    ensures s1.workers[w].Crashed? <==> i in s.pending && HasOutcome(s.calls[s.pending[i]].fut)
  {
    var s2 := PopRuns(s, w, i);
    if i in s.pending {
      var rest: seq<Step>;
      rest, s1 := FinishRuns(s2, w, i, s.pending[i], ok);
      trace := [Recv(w, i), Pop(w)] + rest;
      RunConcat(s, [Recv(w, i), Pop(w)], s2, rest, s1);
    } else {
      trace, s1 := [Recv(w, i), Pop(w)], s2;
    }
  }

  lemma FuturesSet(calls: map<CallRef, Call>, c: CallRef, p: Call)
    requires c in calls
    ensures Futures(calls[c := p]) == Futures(calls)[c := p.fut]
    ensures p.fut == calls[c].fut ==> Futures(calls[c := p]) == Futures(calls)
  {
  }

  lemma RecvRuns(s: State, w: Worker, i: nat) returns (s1: State)
    requires Enabled(s, Recv(w, i))
    ensures Run(s, [Recv(w, i)], s1) && Futures(s1.calls) == Futures(s.calls) && s1.calls.Keys == s.calls.Keys
    ensures s1 == s.(calls := s1.calls, workers := s.workers[w := Got(i)], channel := s.channel - multiset{i})
  {
    s1 := Next(s, Recv(w, i));
    RunOne(s, Recv(w, i));
    if i in s.callOf && s.callOf[i] in s.calls {
      FuturesSet(s.calls, s.callOf[i], s.calls[s.callOf[i]].(mail := With(w)));
    }
  }

  lemma PopEffect(s: State, w: Worker, i: nat)
    requires i in s.pending ==> s.pending[i] in s.calls
    ensures var s1 := DoPop(s, w, i);
      && s1.pending == s.pending - {i} && s1.channel == s.channel && Futures(s1.calls) == Futures(s.calls)
      && s1.workers == s.workers[w := if i in s.pending then Popped(i, s.pending[i]) else Waiting]
      && s1.calls.Keys == s.calls.Keys
  {
    if i in s.pending {
      var c := s.pending[i];
      FuturesSet(s.calls, c, s.calls[c].(place := AtWorker(w), taker := SomeWorker, mail := Consumed));
    } else {
      assert s.pending == s.pending - {i};
      if i in s.callOf && s.callOf[i] in s.calls {
        FuturesSet(s.calls, s.callOf[i], s.calls[s.callOf[i]].(mail := Consumed));
      }
    }
  }

  lemma PopRuns(s: State, w: Worker, i: nat) returns (s1: State)
    requires Enabled(s, Recv(w, i)) && (i in s.pending ==> s.pending[i] in s.calls)
    ensures Run(s, [Recv(w, i), Pop(w)], s1) && s1.pending == s.pending - {i} && s1.channel == s.channel - multiset{i}
    ensures Futures(s1.calls) == Futures(s.calls) && w in s1.workers && s1.calls.Keys == s.calls.Keys
    ensures s1.workers[w] == if i in s.pending then Popped(i, s.pending[i]) else Waiting
  {
    var s2 := RecvRuns(s, w, i);
    s1 := Next(s2, Pop(w));
    RunOne(s2, Pop(w));
    RunConcat(s, [Recv(w, i)], s2, [Pop(w)], s1);
    assert [Recv(w, i)] + [Pop(w)] == [Recv(w, i), Pop(w)];
    PopEffect(s2, w, i);
  }

  lemma CheckEffect(s: State, w: Worker, i: nat, c: CallRef)
    requires c in s.calls
    ensures Futures(DoCheck(s, w, i, c).calls) == Futures(s.calls)
  {
    if s.calls[c].fut == Cancelled {
      FuturesSet(s.calls, c, s.calls[c].(place := Retired));
    } else {
      assert DoCheck(s, w, i, c).calls == s.calls;
    }
  }

  lemma SettleEffect(s: State, w: Worker, c: CallRef, ok: bool)
    requires c in s.calls
    ensures Futures(DoFinish(s, w, c, ok).calls) == Settled(Futures(s.calls), c, ok)
  {
    FuturesSet(s.calls, c, DoFinish(s, w, c, ok).calls[c]);
  }

  lemma SettleRuns(s: State, w: Worker, i: nat, c: CallRef, ok: bool)
    requires w in s.workers && s.workers[w] == Running(i, c) && c in s.calls
    ensures Run(s, [Finish(w, ok)], DoFinish(s, w, c, ok))
  {
    RunOne(s, Finish(w, ok));
  }

  lemma CheckRuns(s: State, w: Worker, i: nat, c: CallRef)
    requires w in s.workers && s.workers[w] == Popped(i, c) && c in s.calls
    ensures Run(s, [Check(w)], DoCheck(s, w, i, c))
  {
    RunOne(s, Check(w));
  }

  lemma SkipRuns(s: State, w: Worker, i: nat, c: CallRef, ok: bool)
    requires w in s.workers && s.workers[w] == Popped(i, c) && c in s.calls && s.calls[c].fut == Cancelled
    ensures Run(s, [Check(w)], DoCheck(s, w, i, c))
    ensures DoCheck(s, w, i, c).workers == s.workers[w := Waiting] && DoCheck(s, w, i, c).channel == s.channel
    ensures DoCheck(s, w, i, c).pending == s.pending && EndOfTurn(s.calls[c].fut, c) == Waiting
    ensures Futures(DoCheck(s, w, i, c).calls) == Settled(Futures(s.calls), c, ok)
  {
    CheckRuns(s, w, i, c);
    CheckEffect(s, w, i, c);
    assert Settled(Futures(s.calls), c, ok) == Futures(s.calls);
  }

  lemma CompleteRuns(s: State, w: Worker, i: nat, c: CallRef, ok: bool) returns (s1: State)
    requires w in s.workers && s.workers[w] == Popped(i, c) && c in s.calls && s.calls[c].fut != Cancelled
    ensures Run(s, [Check(w), Finish(w, ok)], s1) && Futures(s1.calls) == Settled(Futures(s.calls), c, ok)
    ensures s1 == s.(calls := s1.calls, workers := s.workers[w := EndOfTurn(s.calls[c].fut, c)])
  {
    CheckRuns(s, w, i, c);
    var s2 := DoCheck(s, w, i, c);
    SettleRuns(s2, w, i, c, ok);
    SettleEffect(s2, w, c, ok);
    s1 := DoFinish(s2, w, c, ok);
    RunConcat(s, [Check(w)], s2, [Finish(w, ok)], s1);
    assert [Check(w)] + [Finish(w, ok)] == [Check(w), Finish(w, ok)];
  }

  lemma FinishRuns(s: State, w: Worker, i: nat, c: CallRef, ok: bool) returns (trace: seq<Step>, s1: State)
    requires w in s.workers && s.workers[w] == Popped(i, c) && c in s.calls
    ensures Run(s, trace, s1) && s1.pending == s.pending && s1.channel == s.channel
    ensures Futures(s1.calls) == Settled(Futures(s.calls), c, ok)
    ensures w in s1.workers && s1.workers[w] == EndOfTurn(s.calls[c].fut, c)
  {
    if s.calls[c].fut == Cancelled {
      SkipRuns(s, w, i, c, ok);
      trace, s1 := [Check(w)], DoCheck(s, w, i, c);
    } else {
      s1 := CompleteRuns(s, w, i, c, ok);
      trace := [Check(w), Finish(w, ok)];
    }
  }

  /** A worker survives its turn unless the future already has an outcome. */
  function EndOfTurn(f: Future, c: CallRef): WorkerPc {
    if HasOutcome(f) then Crashed(c) else Waiting
  }

  // ── The object ─────────────────────────────────────────────────────────

  class NngThreadPool {
    var next: nat
    var pending: map<nat, CallRef>
    var futures: map<CallRef, Future>
    var channel: multiset<nat>
    var shutdown: bool
    var closed: bool

    constructor ()
      ensures next == 0 && pending == map[] && futures == map[] && channel == multiset{} && !shutdown && !closed
    {
      next, pending, futures, channel, shutdown, closed := 0, map[], map[], multiset{}, false, false;
    }

    /** Refused after shutdown; otherwise as SubmitRuns, with an error when the channel is closed. */
    method Submit(c: CallRef) returns (ok: bool)
      requires c !in futures
      modifies this
      ensures ok == (!old(shutdown) && !old(closed)) && shutdown == old(shutdown) && closed == old(closed)
      ensures old(shutdown) ==> next == old(next) && pending == old(pending) && futures == old(futures)
      ensures !old(shutdown) ==>
        next == old(next) + 1 && pending == old(pending)[old(next) := c] && futures == old(futures)[c := Undone]
      ensures channel == if ok then old(channel) + multiset{old(next)} else old(channel)
    {
      if shutdown {
        return false;
      }
      futures := futures[c := Undone];
      var id := next;
      next := next + 1;
      pending := pending[id := c];
      ok := !closed;
      if ok {
        channel := channel + multiset{id};
      }
    }

    /** The worker's turn on message i, as TurnRuns; a done future refuses the result. */
    method Turn(i: nat, ok: bool) returns (refused: bool)
      requires i in channel && (i in pending ==> pending[i] in futures)
      modifies this`pending, this`futures, this`channel
      ensures pending == old(pending) - {i} && channel == old(channel) - multiset{i}
      ensures futures.Keys == old(futures).Keys
      ensures forall c :: c in futures ==>
        (futures[c] == if i in old(pending) && old(pending)[i] == c && old(futures)[c] == Undone
                       then (if ok then Result else Failure) else old(futures)[c])
      ensures futures == AfterTurn(old(futures), old(pending), i, ok)
      ensures refused <==>
        && i in old(pending)
        && HasOutcome(old(futures)[old(pending)[i]])
    {
      refused := false;
      channel := channel - multiset{i};
      if i !in pending {
        assert pending - {i} == pending;
        return;
      }
      var c := pending[i];
      pending := pending - {i};
      if futures[c] == Cancelled {
        return;
      }
      if futures[c] == Undone {
        futures := futures[c := if ok then Result else Failure];
      } else {
        refused := true;
      }
    }

    /** shutdown(): a second call does nothing; with `cancel` the popitem loop runs first, as CancelLoopRuns. */
    method Shutdown(cancel: bool)
      requires forall i :: i in pending ==> pending[i] in futures
      modifies this
      ensures shutdown && next == old(next) && channel == old(channel)
      ensures old(shutdown) ==> pending == old(pending) && futures == old(futures) && closed == old(closed)
      ensures !old(shutdown) ==> closed
      ensures !old(shutdown) && cancel ==> pending == map[] && futures == CancelAll(old(pending).Values, old(futures))
      ensures futures.Keys == old(futures).Keys
      ensures forall c :: c in futures ==>
        (futures[c] == if !old(shutdown) && cancel && c in old(pending).Values && old(futures)[c] == Undone
                       then Cancelled else old(futures)[c])
      ensures !old(shutdown) && !cancel ==> pending == old(pending) && futures == old(futures)
    {
      if shutdown {
        return;
      }
      shutdown := true;
      if cancel {
        while pending != map[]
          invariant forall i :: i in pending ==> pending[i] in futures
          invariant CancelAll(pending.Values, futures) == CancelAll(old(pending).Values, old(futures))
          invariant shutdown && next == old(next) && channel == old(channel)
          decreases |pending|
        {
          var i :| i in pending;
          ValuesWithout(pending, i);
          CancelMore((pending - {i}).Values, pending[i], futures);
          CancelNext(i);
        }
        assert CancelAll({}, futures) == futures;
      }
      closed := true;
    }

    /** `popitem` and `future.cancel()`. */
    method CancelNext(i: nat)
      requires i in pending && pending[i] in futures
      modifies this`pending, this`futures
      ensures pending == old(pending) - {i} && futures == CancelAll({old(pending)[i]}, old(futures))
    {
      var c := pending[i];
      pending := pending - {i};
      if futures[c] == Undone {
        futures := futures[c := Cancelled];
      }
    }
  }
}
