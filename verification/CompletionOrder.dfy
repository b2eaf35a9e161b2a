/**
 The order of completions and the progress of the parties.  What was pushed, popped and
 called is told from the steps of a run, not from the state.
 */
module CompletionOrder {
  import opened Options
  import opened CompletionPipeline
  import opened CompletionInvariant
  import opened CompletionSteps
  import opened CompletionTheorems

  // ── First in, first out ────────────────────────────────────────────────

  /** The ops of the critical sections of push(), in order. */
  function Pushers(trace: seq<Step>): seq<OpRef> {
    if trace == [] then []
    else PushedNow(trace[0]) + Pushers(trace[1..])
  }

  /** What one step of the drain pops from the dictionary. */
  ghost function PoppedNow(s: State, t: Step): seq<OpRef>
    requires Enabled(s, t)
  {
    var id := if s.ready != [] then s.ready[0].id else 0;
    if t == PopOne && id in s.dict then [s.dict[id]] else []
  }

  /** The callbacks popped in a run, in order. */
  ghost function Popped(s: State, trace: seq<Step>): seq<OpRef>
    decreases trace
  {
    if trace == [] || !Enabled(s, trace[0]) then []
    else PoppedNow(s, trace[0]) + Popped(Next(s, trace[0]), trace[1..])
  }

  /** The callbacks called by the drain in a run, in order. */
  ghost function Called(s: State, trace: seq<Step>): seq<OpRef>
    decreases trace
  {
    if trace == [] || !Enabled(s, trace[0]) then []
    else CalledNow(s, trace[0]) + Called(Next(s, trace[0]), trace[1..])
  }

  function Sources(entries: seq<Entry>): (r: seq<OpRef>)
    ensures |r| == |entries|
  {
    seq(|entries|, i requires 0 <= i < |entries| => entries[i].from)
  }

  lemma SourcesConcat(a: seq<Entry>, b: seq<Entry>)
    ensures Sources(a + b) == Sources(a) + Sources(b)
  {
  }

  /** All ids on their way, oldest first. */
  function InTransitOps(s: State): seq<OpRef> {
    Sources(s.ready + s.lost + s.queue)
  }

  predicate MovesIds(t: Step) {
    t.PushId? || t == DrainReady || t == PopOne
  }

  lemma PushOrder(s: State, o: OpRef)
    requires o in s.ops
    ensures InTransitOps(DoPush(s, o)) == InTransitOps(s) + [o]
  {
    var e := Entry(s.ops[o].addr, o);
    assert s.ready + s.lost + (s.queue + [e]) == (s.ready + s.lost + s.queue) + [e];
    SourcesConcat(s.ready + s.lost + s.queue, [e]);
    assert Sources([e]) == [o];
  }

  lemma DrainOrder(s: State)
    requires PhaseInv(s) && s.drain == DCollecting
    ensures InTransitOps(DoDrainReady(s)) == InTransitOps(s)
  {
    assert s.ready == [];
    if s.detached {
      assert s.ready + (s.lost + s.queue) + [] == s.ready + s.lost + s.queue;
    } else {
      assert s.lost == [];
      assert (s.ready + s.queue) + s.lost + [] == s.ready + s.lost + s.queue;
    }
  }

  lemma PopOrder(s: State)
    requires s.ready != [] && Holds(s.dict, s.ready[0].id, s.ready[0].from) && s.ready[0].from in s.ops
    ensures [s.ready[0].from] + InTransitOps(DoPop(s)) == InTransitOps(s)
  {
    var rest := s.ready[1..] + s.lost + s.queue;
    assert s.ready + s.lost + s.queue == [s.ready[0]] + rest;
    SourcesConcat([s.ready[0]], rest);
  }

  /** Queue, drained ids and callbacks belong to four kinds of steps. */
  predicate SameLists(s: State, s1: State) {
    s1.queue == s.queue && s1.ready == s.ready && s1.lost == s.lost && s1.callbacks == s.callbacks
  }

  lemma SubmittersKeepLists(s: State, t: Step)
    requires Enabled(s, t) && (BySubmitter(t) || ByOwner(t))
    ensures SameLists(s, Next(s, t))
  {
  }

  lemma NngKeepsLists(s: State, t: Step)
    requires Enabled(s, t) && (t.FireCas? || t.SendByte?)
    ensures SameLists(s, Next(s, t))
  {
  }

  lemma ReleaseKeepsLists(s: State, t: Step)
    requires Enabled(s, t) && ByRelease(t)
    ensures SameLists(s, Next(s, t))
  {
    match t
    case RelTake(a) => TakeKeepsLists(s, a);
    case RelSettle(onLoop) => assert SameLists(s, DoRelSettle(s, onLoop));
    case RelSnapshot =>
  }

  lemma TakeKeepsLists(s: State, a: Addr)
    requires Enabled(s, RelTake(a))
    ensures SameLists(s, DoRelTake(s, a))
  {
  }

  lemma ReleaseControlKeepsLists(s: State, t: Step)
    requires Enabled(s, t) && ReleaseControls(t)
    ensures SameLists(s, Next(s, t))
  {
  }

  lemma DrainKeepsLists(s: State, t: Step)
    requires Enabled(s, t) && DrainControls(t)
    ensures SameLists(s, Next(s, t))
  {
  }

  lemma SettleKeepsLists(s: State)
    requires Enabled(s, CbSettle)
    ensures SameLists(s, DoCbSettle(s))
  {
  }

  lemma ListsStay(s: State, t: Step)
    requires Enabled(s, t) && !MovesIds(t) && t != CbTake
    ensures SameLists(s, Next(s, t))
  {
    if BySubmitter(t) || ByOwner(t) {
      SubmittersKeepLists(s, t);
    } else if ByNng(t) {
      NngKeepsLists(s, t);
    } else if ByRelease(t) {
      ReleaseKeepsLists(s, t);
    } else if ReleaseControls(t) {
      ReleaseControlKeepsLists(s, t);
    } else if t == CbSettle {
      SettleKeepsLists(s);
    } else {
      DrainKeepsLists(s, t);
    }
  }

  lemma IdsStay(s: State, t: Step)
    requires Enabled(s, t) && !MovesIds(t)
    ensures InTransitOps(Next(s, t)) == InTransitOps(s)
  {
    if t != CbTake {
      ListsStay(s, t);
    }
  }

  function PushedNow(t: Step): seq<OpRef> {
    if t.PushId? then [t.o] else []
  }

  /** One step: what it pops followed by what is on its way is what was on its way and what it pushes. */
  ghost predicate KeepsOrder(s: State, t: Step)
    requires Enabled(s, t)
  {
    PoppedNow(s, t) + InTransitOps(Next(s, t)) == InTransitOps(s) + PushedNow(t)
  }

  lemma PushKeepsOrder(s: State, o: OpRef)
    requires Enabled(s, PushId(o))
    ensures KeepsOrder(s, PushId(o))
  {
    PushOrder(s, o);
  }

  lemma DrainKeepsOrder(s: State)
    requires PhaseInv(s) && Enabled(s, DrainReady)
    ensures KeepsOrder(s, DrainReady)
  {
    DrainOrder(s);
  }

  lemma PopKeepsOrder(s: State)
    requires Inv(s) && Enabled(s, PopOne)
    ensures KeepsOrder(s, PopOne)
  {
    ReadyHead(s);
    PopOrder(s);
  }

  lemma OthersKeepOrder(s: State, t: Step)
    requires Enabled(s, t) && !MovesIds(t)
    ensures KeepsOrder(s, t)
  {
    IdsStay(s, t);
    assert [] + InTransitOps(s) == InTransitOps(s) + [];
  }

  lemma StepKeepsOrder(s: State, t: Step)
    requires Inv(s) && Enabled(s, t)
    ensures KeepsOrder(s, t)
  {
    if t.PushId? {
      PushKeepsOrder(s, t.o);
    } else if t == DrainReady {
      DrainKeepsOrder(s);
    } else if t == PopOne {
      PopKeepsOrder(s);
    } else {
      OthersKeepOrder(s, t);
    }
  }

  /** Two laws of the form "out, then left = there, then in" follow one another. */
  lemma Splice(out: seq<OpRef>, there: seq<OpRef>, new_: seq<OpRef>, mid: seq<OpRef>,
               out': seq<OpRef>, new': seq<OpRef>, left: seq<OpRef>)
    requires out + mid == there + new_ && out' + left == mid + new'
    ensures (out + out') + left == there + (new_ + new')
  {
    calc {
      (out + out') + left;
      out + (out' + left);
      out + (mid + new');
      (out + mid) + new';
      (there + new_) + new';
      there + (new_ + new');
    }
  }

  lemma {:induction false} RunKeepsOrder(s0: State, trace: seq<Step>, s1: State)
    requires Inv(s0) && Run(s0, trace, s1)
    ensures Popped(s0, trace) + InTransitOps(s1) == InTransitOps(s0) + Pushers(trace)
    decreases trace
  {
    if trace == [] {
      assert [] + InTransitOps(s1) == InTransitOps(s0) + [];
    } else {
      var (t, rest) := (trace[0], trace[1..]);
      var s := Next(s0, t);
      StepKeepsInv(s0, t);
      StepKeepsOrder(s0, t);
      RunKeepsOrder(s, rest, s1);
      Splice(PoppedNow(s0, t), InTransitOps(s0), PushedNow(t), InTransitOps(s),
             Popped(s, rest), Pushers(rest), InTransitOps(s1));
    }
  }

  ghost function CalledNow(s: State, t: Step): seq<OpRef>
    requires Enabled(s, t)
  {
    if t == CbTake then [s.callbacks[0]] else []
  }

  /** What a step pops joins the end of the callback list, what it calls leaves the front. */
  ghost predicate KeepsCallbacks(s: State, t: Step)
    requires Enabled(s, t)
  {
    CalledNow(s, t) + Next(s, t).callbacks == s.callbacks + PoppedNow(s, t)
  }

  lemma PopKeepsCallbacks(s: State)
    requires Inv(s) && Enabled(s, PopOne)
    ensures KeepsCallbacks(s, PopOne)
  {
    ReadyHead(s);
    PopAppends(s);
    assert [] + DoPop(s).callbacks == DoPop(s).callbacks;
  }

  lemma PopAppends(s: State)
    requires s.ready != [] && s.ready[0].id in s.dict && s.dict[s.ready[0].id] in s.ops
    ensures DoPop(s).callbacks == s.callbacks + [s.dict[s.ready[0].id]]
  {
  }

  lemma CallKeepsCallbacks(s: State)
    requires Enabled(s, CbTake)
    ensures KeepsCallbacks(s, CbTake)
  {
    assert s.callbacks == [s.callbacks[0]] + s.callbacks[1..];
  }

  lemma CallbacksStay(s: State, t: Step)
    requires Enabled(s, t) && t != PopOne && t != CbTake
    ensures Next(s, t).callbacks == s.callbacks
  {
    if !MovesIds(t) {
      ListsStay(s, t);
    }
  }

  lemma StepKeepsCallbacks(s: State, t: Step)
    requires Inv(s) && Enabled(s, t)
    ensures KeepsCallbacks(s, t)
  {
    if t == PopOne {
      PopKeepsCallbacks(s);
    } else if t == CbTake {
      CallKeepsCallbacks(s);
    } else {
      OthersKeepCallbacks(s, t);
    }
  }

  lemma OthersKeepCallbacks(s: State, t: Step)
    requires Enabled(s, t) && t != PopOne && t != CbTake
    ensures KeepsCallbacks(s, t)
  {
    CallbacksStay(s, t);
    assert [] + s.callbacks == s.callbacks + [];
  }

  lemma {:induction false} RunKeepsCallbacks(s0: State, trace: seq<Step>, s1: State)
    requires Inv(s0) && Run(s0, trace, s1)
    ensures Called(s0, trace) + s1.callbacks == s0.callbacks + Popped(s0, trace)
    decreases trace
  {
    if trace == [] {
      assert [] + s1.callbacks == s0.callbacks + [];
    } else {
      var (t, rest) := (trace[0], trace[1..]);
      var s := Next(s0, t);
      StepKeepsInv(s0, t);
      StepKeepsCallbacks(s0, t);
      RunKeepsCallbacks(s, rest, s1);
      Splice(CalledNow(s0, t), s0.callbacks, PoppedNow(s0, t), s.callbacks,
             Called(s, rest), Popped(s, rest), s1.callbacks);
    }
  }

  /**
   Over every run from the start: the ops popped so far, then those of the ids drained, lost
   and queued, are the ops that pushed, in push order; and the callbacks called so far, then
   those waiting, are the ones popped, in that order.
   */
  lemma CompletionsAreFifo(poll: bool, capacity: nat, trace: seq<Step>, s: State)
    requires capacity > 0 && Run(Init(poll, capacity), trace, s)
    ensures
      Popped(Init(poll, capacity), trace) + Sources(s.ready) + Sources(s.lost) + Sources(s.queue) == Pushers(trace)
    ensures Called(Init(poll, capacity), trace) + s.callbacks == Popped(Init(poll, capacity), trace)
    ensures !s.detached ==> s.lost == []
  {
    InitInv(poll, capacity);
    FifoFrom(Init(poll, capacity), trace, s);
  }

  lemma FifoFrom(s0: State, trace: seq<Step>, s: State)
    requires Inv(s0) && Run(s0, trace, s)
    requires s0.ready == s0.lost == s0.queue == [] && s0.callbacks == []
    ensures Popped(s0, trace) + Sources(s.ready) + Sources(s.lost) + Sources(s.queue) == Pushers(trace)
    ensures Called(s0, trace) + s.callbacks == Popped(s0, trace)
    ensures !s.detached ==> s.lost == []
  {
    RunKeepsInv(s0, trace, s);
    OrderFrom(s0, trace, s);
    RunKeepsCallbacks(s0, trace, s);
    assert [] + Popped(s0, trace) == Popped(s0, trace);
  }

  lemma OrderFrom(s0: State, trace: seq<Step>, s: State)
    requires Inv(s0) && Run(s0, trace, s) && s0.ready == s0.lost == s0.queue == []
    ensures Popped(s0, trace) + Sources(s.ready) + Sources(s.lost) + Sources(s.queue) == Pushers(trace)
  {
    RunKeepsOrder(s0, trace, s);
    Apart(Popped(s0, trace), s);
    assert InTransitOps(s0) == [];
    assert [] + Pushers(trace) == Pushers(trace);
  }

  lemma Apart(popped: seq<OpRef>, s: State)
    ensures popped + InTransitOps(s) == popped + Sources(s.ready) + Sources(s.lost) + Sources(s.queue)
  {
    SourcesConcat(s.ready + s.lost, s.queue);
    SourcesConcat(s.ready, s.lost);
    assert popped + (Sources(s.ready) + Sources(s.lost) + Sources(s.queue))
        == popped + Sources(s.ready) + Sources(s.lost) + Sources(s.queue);
  }

  // ── Who settles a future ───────────────────────────────────────────────

  /** The steps that run on the loop thread and may settle a future, or cancel it for the user. */
  predicate OnLoop(t: Step, o: OpRef) {
    t == UserCancel(o) || t == CbSettle || t == RelSettle(true) || t == RunScheduled(o)
  }

  lemma SubmitLeavesFutures(s: State, t: Step, o: OpRef)
    requires Enabled(s, t) && o in s.ops && BySubmitter(t)
    ensures o in Next(s, t).ops && Next(s, t).ops[o].fut == s.ops[o].fut
  {
    match t
    case ReachSkip(q) => assert Next(s, t).ops == s.ops[q := SkipCas(s.ops[q])];
    case _ =>
  }

  lemma NngLeavesFutures(s: State, t: Step, o: OpRef)
    requires Enabled(s, t) && o in s.ops && ByNng(t)
    ensures o in Next(s, t).ops && Next(s, t).ops[o].fut == s.ops[o].fut
  {
    match t
    case FireCas(q, code) => assert Next(s, t).ops == s.ops[q := FireSwap(s.ops[q], code)];
    case PushId(q) =>
    case SendByte(q) =>
  }

  lemma OwnerLeavesFutures(s: State, t: Step, o: OpRef)
    requires Enabled(s, t) && o in s.ops && ByOwner(t) && !OnLoop(t, o)
    ensures o in Next(s, t).ops && Next(s, t).ops[o].fut == s.ops[o].fut
  {
  }

  lemma PopLeavesFutures(s: State, o: OpRef)
    requires Enabled(s, PopOne) && o in s.ops
    ensures o in DoPop(s).ops && DoPop(s).ops[o].fut == s.ops[o].fut
  {
  }

  lemma CallLeavesFutures(s: State, o: OpRef)
    requires Enabled(s, CbTake) && o in s.ops
    ensures o in DoCbTake(s).ops && DoCbTake(s).ops[o].fut == s.ops[o].fut
  {
    var q := s.callbacks[0];
    assert DoCbTake(s).ops == s.ops || DoCbTake(s).ops == s.ops[q := s.ops[q].(hasFuture := false)];
  }

  lemma TakeLeavesFutures(s: State, a: Addr, o: OpRef)
    requires Enabled(s, RelTake(a)) && o in s.ops
    ensures o in DoRelTake(s, a).ops && DoRelTake(s, a).ops[o].fut == s.ops[o].fut
  {
  }

  lemma ScheduleLeavesFutures(s: State, o: OpRef)
    requires Enabled(s, RelSettle(false)) && o in s.ops
    ensures o in Next(s, RelSettle(false)).ops && Next(s, RelSettle(false)).ops[o].fut == s.ops[o].fut
  {
  }

  predicate LeavesOps(t: Step) {
    DrainControls(t) || ReleaseControls(t) || t == DrainReady || t == RelSnapshot
  }

  lemma OpsStay(s: State, t: Step)
    requires Enabled(s, t) && LeavesOps(t)
    ensures Next(s, t).ops == s.ops
  {
    if DrainControls(t) {
      DrainControlsOnly(s, t);
    } else if ReleaseControls(t) {
      ReleaseControlsOnly(s, t);
    }
  }

  lemma DrainControlsOnly(s: State, t: Step)
    requires Enabled(s, t) && DrainControls(t)
    ensures Next(s, t).ops == s.ops
  {
  }

  lemma ReleaseControlsOnly(s: State, t: Step)
    requires Enabled(s, t) && ReleaseControls(t)
    ensures Next(s, t).ops == s.ops
  {
  }

  ghost predicate FutureRule(s: State, t: Step, o: OpRef)
    requires Enabled(s, t) && o in s.ops
  {
    o in Next(s, t).ops && (Next(s, t).ops[o].fut != s.ops[o].fut ==> OnLoop(t, o) && s.ops[o].fut == Waiting)
  }

  /** A future changes only on the loop thread: by the drain, by release() there, or by a scheduled call. */
  lemma SettledOnTheLoop(s: State, t: Step, o: OpRef)
    requires Enabled(s, t) && o in s.ops
    ensures FutureRule(s, t, o)
  {
    if OnLoop(t, o) {
      SettleOnce(s, t, o);
    } else if BySubmitter(t) {
      SubmitLeavesFutures(s, t, o);
    } else if ByNng(t) {
      NngLeavesFutures(s, t, o);
    } else if ByOwner(t) {
      OwnerLeavesFutures(s, t, o);
    } else if LeavesOps(t) {
      OpsStay(s, t);
    } else if t == PopOne {
      PopLeavesFutures(s, o);
    } else if t == CbTake {
      CallLeavesFutures(s, o);
    } else if t.RelTake? {
      TakeLeavesFutures(s, t.a, o);
    } else {
      ScheduleLeavesFutures(s, o);
    }
  }

  /** There a waiting future gets what the result code says, and a finished one is left alone. */
  lemma SettleOnce(s: State, t: Step, o: OpRef)
    requires Enabled(s, t) && o in s.ops && OnLoop(t, o)
    ensures o in Next(s, t).ops && (s.ops[o].fut != Waiting ==> Next(s, t).ops[o].fut == s.ops[o].fut)
    ensures t == RunScheduled(o) && s.ops[o].fut == Waiting ==> Next(s, t).ops[o].fut == Resolved(s.ops[o].plan)
    ensures t == CbSettle && s.running == Some(o) && s.ops[o].fut == Waiting ==>
      Next(s, t).ops[o].fut == Resolved(s.ops[o].code)
    ensures t == RelSettle(true) && s.relRunning == Some(o) && s.ops[o].fut == Waiting ==>
      Next(s, t).ops[o].fut == Resolved(s.ops[o].code)
  {
  }

  /** release() on another thread leaves the future alone and queues one call on the loop. */
  lemma ElsewhereItIsScheduled(s: State)
    requires Reachable(s) && Enabled(s, RelSettle(false))
    ensures var (o, s1) := (s.relRunning.value, Next(s, RelSettle(false)));
      && o in s1.ops && s1.ops[o].scheduled && !s.ops[o].scheduled && s1.ops[o].fut == s.ops[o].fut
      && s1.ops[o].plan == s.ops[o].code
  {
    ReachableInv(s);
    assert OpInv(s, s.relRunning.value, s.ops[s.relRunning.value]);
  }

  // ── Nobody is stuck ────────────────────────────────────────────────────

  /** The drain can always go on, except for waiting for a byte or for the lock. */
  lemma DrainCanGoOn(s: State)
    requires !ReleaseLocked(s)
    ensures s.drain == DIdle && s.bytes > 0 && s.poll ==> Enabled(s, LockDrain)
    ensures s.drain == DIdle && s.bytes > 0 && !s.poll ==> Enabled(s, SockRecv)
    ensures s.drain == DWoken && !s.poll ==> Enabled(s, LockDrain)
  {
  }

  lemma LockedDrainCanGoOn(s: State)
    requires DrainLocked(s)
    ensures s.drain == DReading ==> Enabled(s, RecvBytes) || Enabled(s, BytesGone)
    ensures s.drain == DCollecting ==> Enabled(s, DrainReady)
    ensures s.drain == DPopping ==> Enabled(s, PopOne) || Enabled(s, PopEnd)
  {
  }

  /** The calling loop can go on, except for waiting for a callback to return. */
  lemma DispatchCanGoOn(s: State)
    requires Reachable(s) && s.drain == DDispatching
    ensures CallingSteps(s)
  {
    ReachableInv(s);
    CallbacksCallable(s);
  }

  ghost predicate CallingSteps(s: State) {
    && (s.running == None && s.callbacks == [] ==> Enabled(s, CbEnd))
    && (s.running == None && s.callbacks != [] ==> Enabled(s, CbTake))
    && (s.running.Some? ==> s.running.value in s.ops && (Enabled(s, CbSettle) || Busy(s.ops[s.running.value])))
  }

  lemma CallbacksCallable(s: State)
    requires CallbackInv(s.ops, s.callbacks, s.running) && s.drain == DDispatching
    ensures CallingSteps(s)
  {
    RunningExists(s.ops, s.callbacks, s.running);
  }

  lemma RunningExists(ops: Ops, callbacks: seq<OpRef>, running: Option<OpRef>)
    requires CallbackInv(ops, callbacks, running)
    ensures callbacks != [] ==> callbacks[0] in ops
    ensures running.Some? ==> running.value in ops
  {
    assert callbacks != [] ==> callbacks[0] in callbacks;
  }

  /** release() can always go on, except for waiting for the lock or for a callback to return. */
  lemma ReleaseCanGoOn(s: State)
    ensures s.release == RNotYet ==> Enabled(s, RelLock) || DrainLocked(s)
    ensures s.release == RLocked ==> Enabled(s, RelSnapshot)
    ensures s.release == RSnapped ==> Enabled(s, RelDetach)
  {
  }

  lemma CallingCanGoOn(s: State)
    requires Reachable(s) && s.release == RCalling
    ensures ReleaseSteps(s)
  {
    ReachableInv(s);
    CalleesCallable(s);
  }

  ghost predicate ReleaseSteps(s: State) {
    && (s.relRunning == None && s.toCall == map[] ==> Enabled(s, RelEnd))
    && (s.relRunning == None ==> forall a :: a in s.toCall ==> Enabled(s, RelTake(a)))
    && (s.relRunning.Some? ==>
          && s.relRunning.value in s.ops
          && (Busy(s.ops[s.relRunning.value]) || (Enabled(s, RelSettle(true)) && Enabled(s, RelSettle(false)))))
  }

  lemma CalleesCallable(s: State)
    requires ToCallInv(s.ops, s.snapshot, s.toCall, s.relRunning) && s.release == RCalling
    ensures ReleaseSteps(s)
  {
    CalleesExist(s.ops, s.snapshot, s.toCall, s.relRunning);
    if s.relRunning == None {
      forall a | a in s.toCall ensures Enabled(s, RelTake(a)) {
      }
    } else if !Busy(s.ops[s.relRunning.value]) {
      RunningCallee(s);
    }
  }

  lemma RunningCallee(s: State)
    requires s.relRunning.Some? && s.relRunning.value in s.ops && !Busy(s.ops[s.relRunning.value])
    ensures Enabled(s, RelSettle(true)) && Enabled(s, RelSettle(false))
  {
  }

  lemma CalleesExist(ops: Ops, snapshot: Table, toCall: Table, running: Option<OpRef>)
    requires ToCallInv(ops, snapshot, toCall, running)
    ensures forall a :: a in toCall ==> toCall[a] in ops
    ensures running.Some? ==> running.value in ops
  {
  }

  /** And what a callback waits for comes: a started op can always get closer to the end of fire(). */
  lemma FireCanGoOn(s: State, o: OpRef)
    requires o in s.ops && Busy(s.ops[o])
    ensures (forall code :: Enabled(s, FireCas(o, code))) || Enabled(s, PushId(o)) || Enabled(s, SendByte(o))
  {
  }
}
