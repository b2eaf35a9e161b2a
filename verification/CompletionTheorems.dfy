/** What holds in every state of every interleaving of the completion pipeline. */
module CompletionTheorems {
  import opened Options
  import opened CompletionPipeline
  import opened CompletionInvariant
  import opened CompletionSteps

  /** `s` is reached from the empty pipeline by some interleaving. */
  ghost predicate Reachable(s: State) {
    exists poll: bool, capacity: nat, trace: seq<Step> :: capacity > 0 && Run(Init(poll, capacity), trace, s)
  }

  lemma ReachableInv(s: State)
    requires Reachable(s)
    ensures Inv(s)
  {
    var poll: bool, capacity: nat, trace: seq<Step> :| capacity > 0 && Run(Init(poll, capacity), trace, s);
    InitInv(poll, capacity);
    RunKeepsInv(Init(poll, capacity), trace, s);
  }

  // ── No lost wakeup ─────────────────────────────────────────────────────

  /**
   A non-empty queue is always announced: a byte is readable, a producer stands between its
   critical section and its send, or the consumer stands between consuming bytes and
   drain_ready.  The last case is a consumer that release() has cancelled.
   */
  lemma NoLostWakeup(s: State)
    requires Reachable(s) && s.queue != []
    ensures
      || s.bytes > 0
      || (exists o :: o in s.ops && s.ops[o].fire == Unsent)
      || s.drain == DWoken || s.drain == DReading || s.drain == DCollecting
      || (s.drain == DEnded && !s.poll && s.release != RNotYet)
  {
    ReachableInv(s);
  }

  /**
   No thread is inside fire(), the drain waits and nothing is readable: then nothing is queued
   and every op whose callback has run after submit returned False has a finished future.
   */
  lemma QuiescentMeansDelivered(s: State)
    requires Reachable(s) && s.release == RNotYet
    requires s.drain == DIdle && s.bytes == 0
    requires forall o :: o in s.ops ==> s.ops[o].fire == Unfired || s.ops[o].fire == Fired
    ensures s.queue == []
    ensures forall o :: o in s.ops && s.ops[o].submit == Returned(false) && s.ops[o].fire == Fired ==>
      s.ops[o].fut != Waiting
  {
    ReachableInv(s);
    forall o | o in s.ops && s.ops[o].submit == Returned(false) && s.ops[o].fire == Fired
      ensures s.ops[o].fut != Waiting
    {
      assert OpInv(s, o, s.ops[o]);
    }
  }

  // ── Addresses as ids ───────────────────────────────────────────────────

  ghost predicate InTransit(s: State, e: Entry) {
    e in s.queue || e in s.ready
  }

  /**
   Until release detaches the dictionary, every id in transit is a key of the dictionary and
   leads to the very op that pushed it, that op is alive, and two ids in transit differ.
   */
  lemma AddressAsIdIsSafe(s: State)
    requires Reachable(s) && !s.detached
    ensures forall e :: InTransit(s, e) ==>
      e.from in s.ops && Holds(s.dict, e.id, e.from) && !s.ops[e.from].freed
    ensures forall e1, e2 :: InTransit(s, e1) && InTransit(s, e2) && e1 != e2 ==> e1.id != e2.id
    ensures NoDup(s.queue) && NoDup(s.ready) && (forall e :: e in s.ready ==> e !in s.queue)
  {
    ReachableInv(s);
    forall e | InTransit(s, e)
      ensures e.from in s.ops && Holds(s.dict, e.id, e.from) && !s.ops[e.from].freed
    {
      assert EntryOk(s.ops, e);
      assert OpInv(s, e.from, s.ops[e.from]);
    }
  }

  /** Until release, a registered op that the drain has not taken is alive and nobody else has its address. */
  lemma RegisteredStaysAlive(s: State, o: OpRef)
    requires Reachable(s) && !s.detached && o in s.ops && IsRegistered(s.ops[o]) && !s.ops[o].drainTook
    ensures !s.ops[o].freed && Holds(s.dict, s.ops[o].addr, o)
    ensures forall q :: q in s.ops && q != o && !s.ops[q].freed ==> s.ops[q].addr != s.ops[o].addr
  {
    ReachableInv(s);
    assert OpInv(s, o, s.ops[o]);
  }

  /** The pop of a drained id yields the callback of the op that pushed it, and of no other. */
  lemma CompletionReachesItsOp(s: State)
    requires Reachable(s) && Enabled(s, PopOne)
    ensures Next(s, PopOne).callbacks == s.callbacks + [s.ready[0].from]
    ensures !s.detached && s.ready[0].from in s.ops && s.ops[s.ready[0].from].pushes == 1
  {
    ReachableInv(s);
    ReadyHead(s);
  }

  // ── One completion route ───────────────────────────────────────────────

  lemma {:induction false} ReturnIsFinal(s0: State, trace: seq<Step>, s1: State, o: OpRef)
    requires Run(s0, trace, s1) && o in s0.ops && s0.ops[o].submit.Returned?
    ensures o in s1.ops && s1.ops[o].submit == s0.ops[o].submit
    decreases trace
  {
    if trace != [] {
      var s := Next(s0, trace[0]);
      assert o in s.ops && s.ops[o].submit == s0.ops[o].submit by { StepKeepsReturn(s0, trace[0], o); }
      ReturnIsFinal(s, trace[1..], s1, o);
    }
  }

  lemma StepKeepsReturn(s: State, t: Step, o: OpRef)
    requires Enabled(s, t) && o in s.ops && s.ops[o].submit.Returned?
    ensures o in Next(s, t).ops && Next(s, t).ops[o].submit == s.ops[o].submit
  {
    if BySubmitter(t) {
      SubmitterKeepsReturn(s, t, o);
    } else if ByOwner(t) {
      OwnerKeepsReturn(s, t, o);
    } else if ByNng(t) {
      NngKeepsReturn(s, t, o);
    } else if ByDrain(t) {
      DrainKeepsReturn(s, t, o);
    } else if ByRelease(t) {
      ReleaseKeepsReturn(s, t, o);
    }
  }

  lemma DrainKeepsReturn(s: State, t: Step, o: OpRef)
    requires Enabled(s, t) && o in s.ops && ByDrain(t)
    ensures o in Next(s, t).ops && Next(s, t).ops[o].submit == s.ops[o].submit
  {
    match t
    case DrainReady =>
    case PopOne => PopKeepsReturn(s, o);
    case CbTake => assert DoCbTake(s).ops.Keys == s.ops.Keys;
    case CbSettle =>
  }

  lemma PopKeepsReturn(s: State, o: OpRef)
    requires Enabled(s, PopOne) && o in s.ops
    ensures o in DoPop(s).ops && DoPop(s).ops[o].submit == s.ops[o].submit
  {
  }

  lemma ReleaseKeepsReturn(s: State, t: Step, o: OpRef)
    requires Enabled(s, t) && o in s.ops && ByRelease(t)
    ensures o in Next(s, t).ops && Next(s, t).ops[o].submit == s.ops[o].submit
  {
    match t
    case RelSnapshot =>
    case RelTake(a) => assert DoRelTake(s, a).ops.Keys == s.ops.Keys;
    case RelSettle(_) =>
  }

  lemma SubmitterKeepsReturn(s: State, t: Step, o: OpRef)
    requires Enabled(s, t) && o in s.ops && s.ops[o].submit.Returned? && BySubmitter(t)
    ensures o in Next(s, t).ops && Next(s, t).ops[o].submit == s.ops[o].submit
  {
  }

  lemma OwnerKeepsReturn(s: State, t: Step, o: OpRef)
    requires Enabled(s, t) && o in s.ops && s.ops[o].submit.Returned? && ByOwner(t)
    ensures o in Next(s, t).ops && Next(s, t).ops[o].submit == s.ops[o].submit
  {
  }

  lemma NngKeepsReturn(s: State, t: Step, o: OpRef)
    requires Enabled(s, t) && o in s.ops && s.ops[o].submit.Returned? && ByNng(t)
    ensures o in Next(s, t).ops && Next(s, t).ops[o].submit == s.ops[o].submit
  {
    match t
    case FireCas(q, code) => assert Next(s, t).ops == s.ops[q := FireSwap(s.ops[q], code)];
    case PushId(q) =>
    case SendByte(q) =>
  }

  /**
   Once submit has returned in state `s0`, however the run goes on to `s1`: if it returned
   True the id is never pushed and the registration is gone; if it returned False the id is
   pushed exactly once by the time the callback has finished, and the registration survives
   until the drain takes it.
   */
  lemma ExactlyOneRoute(s0: State, trace: seq<Step>, s1: State, o: OpRef)
    requires Reachable(s0) && Run(s0, trace, s1) && o in s0.ops && s0.ops[o].submit.Returned?
    ensures o in s1.ops
    ensures s0.ops[o].submit.completed ==>
      s1.ops[o].pushes == 0 && !Holds(s1.dict, s1.ops[o].addr, o) && !s1.ops[o].drainTook && s1.ops[o].fire == Fired
    ensures !s0.ops[o].submit.completed ==>
      && s1.ops[o].pushes <= 1
      && (s1.ops[o].fire == Fired ==> s1.ops[o].pushes == 1)
      && (Holds(s1.dict, s1.ops[o].addr, o) || s1.ops[o].drainTook)
  {
    ReachableInv(s0);
    RunKeepsInv(s0, trace, s1);
    ReturnIsFinal(s0, trace, s1, o);
    ReturnedOp(s1, o);
  }

  lemma ReturnedOp(s: State, o: OpRef)
    requires Inv(s) && o in s.ops && s.ops[o].submit.Returned?
    ensures s.ops[o].submit.completed ==>
      s.ops[o].pushes == 0 && !Holds(s.dict, s.ops[o].addr, o) && !s.ops[o].drainTook && s.ops[o].fire == Fired
    ensures !s.ops[o].submit.completed ==>
      && s.ops[o].pushes <= 1
      && (s.ops[o].fire == Fired ==> s.ops[o].pushes == 1)
      && (Holds(s.dict, s.ops[o].addr, o) || s.ops[o].drainTook)
  {
    assert OpInv(s, o, s.ops[o]);
    ReturnedRoute(s.ops[o], o, s.dict);
  }

  lemma ReturnedRoute(p: Op, o: OpRef, dict: Table)
    requires RouteInv(p) && FutureInv(p) && RegistrationInv(o, p, dict) && p.submit.Returned?
    requires Holds(dict, p.addr, o) ==> IsRegistered(p)
    ensures p.submit.completed ==> p.pushes == 0 && !Holds(dict, p.addr, o) && !p.drainTook && p.fire == Fired
    ensures !p.submit.completed ==>
      p.pushes <= 1 && (p.fire == Fired ==> p.pushes == 1) && (Holds(dict, p.addr, o) || p.drainTook)
  {
  }

  // ── release() against the drain ────────────────────────────────────────

  /** No op is taken by both drain and release, and no future is completed twice. */
  lemma TakenAndSettledOnce(s: State, o: OpRef)
    requires Reachable(s) && o in s.ops
    ensures !(s.ops[o].drainTook && Holds(s.snapshot, s.ops[o].addr, o))
    ensures s.ops[o].attempts <= 1
    ensures s.ops[o].attempts == 1 ==> s.ops[o].drainTook || Holds(s.snapshot, s.ops[o].addr, o)
    ensures s.ops[o].fut.Resolved? ==> s.ops[o].attempts == 1
  {
    ReachableInv(s);
    assert OpInv(s, o, s.ops[o]);
  }

  /** release() has returned and the drain executes nothing. */
  predicate BothFinished(s: State) {
    s.release == RDone && s.drain != DPopping && s.drain != DDispatching
  }

  /**
   When both have finished, every op registered before the snapshot is settled, scheduled to
   settle, or was reported complete by its own submit call.
   */
  lemma ReleaseLeavesNoneBehind(s: State, o: OpRef)
    requires Reachable(s) && BothFinished(s)
    requires o in s.ops && s.ops[o].submit != Created && !s.ops[o].late
    ensures s.ops[o].fut != Waiting || s.ops[o].scheduled || s.ops[o].submit == Returned(true)
  {
    ReachableInv(s);
    assert OpInv(s, o, s.ops[o]);
  }

  /** The condition is exact: an op registered after the snapshot is completed by nobody, in any run. */
  lemma LateOpIsStranded(s: State, o: OpRef)
    requires Reachable(s) && o in s.ops && s.ops[o].late
    ensures !s.ops[o].fut.Resolved? && !s.ops[o].scheduled && s.ops[o].submit != Created
    ensures s.ops[o].submit == Returned(true) || Holds(s.dict, s.ops[o].addr, o)
  {
    ReachableInv(s);
    assert OpInv(s, o, s.ops[o]);
  }

  lemma {:induction false} ExtendRun(s0: State, trace: seq<Step>, s: State, t: Step)
    requires Run(s0, trace, s) && Enabled(s, t)
    ensures Run(s0, trace + [t], Next(s, t))
    decreases trace
  {
    if trace == [] {
      assert [t][1..] == [];
    } else {
      ExtendRun(Next(s0, trace[0]), trace[1..], s, t);
      assert (trace + [t])[1..] == trace[1..] + [t];
    }
  }

  lemma ReachableStep(s: State, t: Step)
    requires Reachable(s) && Enabled(s, t)
    ensures Reachable(Next(s, t))
  {
    var poll: bool, capacity: nat, trace: seq<Step> :| capacity > 0 && Run(Init(poll, capacity), trace, s);
    ExtendRun(Init(poll, capacity), trace, s, t);
  }

  /** The op's future is still pending although everybody has finished. */
  ghost predicate Stranded(s: State, o: OpRef) {
    && BothFinished(s) && o in s.ops && s.ops[o].late && s.ops[o].fut == Waiting
    && s.ops[o].submit == Returned(false) && s.ops[o].fire == Fired
  }

  /** An op created before and registered after release() does end up stranded in some run. */
  lemma StrandedOpExists() returns (s: State)
    ensures Reachable(s) && Stranded(s, 0)
  {
    s := SubmittedLate();
    ReachableStep(s, FireCas(0, true));
    s := Next(s, FireCas(0, true));
    ReachableStep(s, PushId(0));
    s := Next(s, PushId(0));
    ReachableStep(s, SendByte(0));
    s := Next(s, SendByte(0));
  }

  lemma SubmittedLate() returns (s: State)
    ensures Reachable(s)
    ensures var p := NewOp(5).(submit := Returned(false), skip := SubmitFirst, late := true);
      s == Init(true, 1).(ops := map[0 := p], release := RDone, detached := true, dict := map[5 := 0])
  {
    s := StartedLate();
    ReachableStep(s, ReachSkip(0));
    s := Next(s, ReachSkip(0));
  }

  lemma StartedLate() returns (s: State)
    ensures Reachable(s)
    ensures s == Init(true, 1).(ops := map[0 := NewOp(5).(submit := Started, late := true)],
                                release := RDone, detached := true, dict := map[5 := 0])
  {
    s := RegisteredLate();
    ReachableStep(s, Start(0));
    s := Next(s, Start(0));
  }

  lemma RegisteredLate() returns (s: State)
    ensures Reachable(s)
    ensures s == Init(true, 1).(ops := map[0 := NewOp(5).(submit := Registered, late := true)],
                                release := RDone, detached := true, dict := map[5 := 0])
  {
    s := ReleasedWithOneOp();
    ReachableStep(s, Register(0));
    s := Next(s, Register(0));
  }

  lemma ReleasedWithOneOp() returns (s: State)
    ensures Reachable(s)
    ensures s == Init(true, 1).(ops := map[0 := NewOp(5)], release := RDone, detached := true)
  {
    s := SnapshotWithOneOp();
    ReachableStep(s, RelDetach);
    s := Next(s, RelDetach);
    ReachableStep(s, RelEnd);
    s := Next(s, RelEnd);
  }

  lemma SnapshotWithOneOp() returns (s: State)
    ensures Reachable(s)
    ensures s == Init(true, 1).(ops := map[0 := NewOp(5)], release := RSnapped)
  {
    s := OneOpCreated();
    ReachableStep(s, RelLock);
    s := s.(release := RLocked);
    ReachableStep(s, RelSnapshot);
    s := s.(release := RSnapped);
  }

  lemma OneOpCreated() returns (s: State)
    ensures Reachable(s)
    ensures s == Init(true, 1).(ops := map[0 := NewOp(5)])
  {
    s := Init(true, 1);
    assert Run(s, [], s);
    ReachableStep(s, Create(0, 5));
    s := Init(true, 1).(ops := map[0 := NewOp(5)]);
  }
}
