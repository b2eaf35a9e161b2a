/**
 The asynchronous completion pipeline as a step relation.

 Every interleaving of the following parties is a sequence of steps:
   - submitters (_AioSockASync._prepare_submit, the nng call, reach_skip_point, _cancel_dispatch),
   - nng threads (DispatchQueueContainer.fire: compare-and-swap, locked push, byte send),
   - the drain (_poll_readable_callback or _proactor_drain_loop),
   - _AioAsyncManager.release(), possibly on another thread.

 A step is one critical section, one compare-and-swap, one byte sent or received, one
 dictionary access, or one part of a completion callback.  Python object addresses are
 reused once an op has been deallocated; `OpRef` is the identity that never is.
 Fields and constructors marked "history" are never read by the modelled code.
 */
module CompletionPipeline {
  import opened Options
  import opened DispatchModel

  type Addr = nat
  type OpRef = nat

  /** Where the submitting coroutine is inside submit_*(). */
  datatype SubmitPc = Created | Registered | Started | Skipping | Returned(completed: bool)

  /** `_skip_point_reached`; the two non-open values differ only in who won (history). */
  datatype Skip = Open | FireFirst | SubmitFirst

  /** Where the nng thread is inside fire(). */
  datatype FirePc = Unfired | LostRace | Unsent | Fired

  /** Resolved holds a result, or else the exception for the error code. */
  datatype Future = Waiting | Resolved(ok: bool) | Cancelled

  datatype Op = Op(
    addr: Addr,          // id(op), also the id stored in the container
    submit: SubmitPc,
    skip: Skip,
    fire: FirePc,
    hasFuture: bool,     // _future and _loop are still set
    fut: Future,
    scheduled: bool,     // a call_soon_threadsafe(_set_future_*) is queued on the loop
    held: bool,          // the submitter still references the op
    freed: bool,         // deallocated: the address may be reused
    pushes: nat,         // history: how often the id was pushed
    attempts: nat,       // history: completions performed (settled or scheduled)
    drainTook: bool,     // history: popped from the dictionary by the drain
    late: bool,          // history: registered after release() took its snapshot
    code: bool,          // nng_aio_result() is NNG_OK, as it is before the operation
    plan: bool)          // the code that the queued call was given

  datatype Entry = Entry(id: Addr, from: OpRef)   // `from` is history

  datatype DrainPc = DIdle | DWoken | DReading | DCollecting | DPopping | DDispatching | DEnded

  datatype ReleasePc = RNotYet | RLocked | RSnapped | RCalling | RDone

  datatype State = State(
    poll: bool,                    // POLL mode, otherwise PROACTOR
    capacity: nat,                 // size of the socket buffer
    ops: map<OpRef, Op>,
    queue: seq<Entry>,
    bytes: nat,
    dict: map<Addr, OpRef>,        // the _dispatch_callables object
    detached: bool,                // manager._dispatch_callables is None
    drain: DrainPc,
    ready: seq<Entry>,
    callbacks: seq<OpRef>,
    running: Option<OpRef>,        // callback being executed by the drain
    release: ReleasePc,
    snapshot: map<Addr, OpRef>,    // the list taken by release(), by key (history: never shrinks)
    toCall: map<Addr, OpRef>,      // what release() has not called yet
    relRunning: Option<OpRef>,     // callback being executed by release()
    lost: seq<Entry>)              // history: ids drained after detaching

  datatype Step =
    | Create(o: OpRef, a: Addr)
    | Register(o: OpRef)
    | Start(o: OpRef)
    | ReachSkip(o: OpRef)
    | CancelDispatch(o: OpRef)
    | Drop(o: OpRef)
    | Free(o: OpRef)
    | UserCancel(o: OpRef)
    | RunScheduled(o: OpRef)
    | FireCas(o: OpRef, code: bool)
    | PushId(o: OpRef)
    | SendByte(o: OpRef)
    | SockRecv
    | LockDrain
    | RecvBytes
    | BytesGone
    | DrainReady
    | PopOne
    | PopEnd
    | CbTake
    | CbSettle
    | CbEnd
    | DrainCancelled
    | RelLock
    | RelSnapshot
    | RelDetach
    | RelTake(a: Addr)
    | RelSettle(onLoop: bool)
    | RelEnd

  function Init(poll: bool, capacity: nat): State {
    State(poll, capacity, map[], [], 0, map[], false, DIdle, [], [], None, RNotYet, map[], map[], None, [])
  }

  predicate DrainLocked(s: State) {
    s.drain == DReading || s.drain == DCollecting || s.drain == DPopping
  }

  predicate ReleaseLocked(s: State) {
    s.release == RLocked || s.release == RSnapped
  }

  /** The submitter is inside submit_*(), so it holds a reference. */
  predicate InSubmit(p: Op) {
    p.submit == Registered || p.submit == Started || p.submit == Skipping
  }

  predicate IsStarted(p: Op) {
    p.submit != Created && p.submit != Registered
  }

  predicate Busy(p: Op) {
    IsStarted(p) && p.fire != Fired
  }

  /** The op is referenced by the dictionary, by a list of callbacks or by a running callback. */
  ghost predicate Referenced(s: State, o: OpRef)
    requires o in s.ops
  {
    var a := s.ops[o].addr;
    || (a in s.dict && s.dict[a] == o)
    || (a in s.toCall && s.toCall[a] == o)
    || o in s.callbacks
    || s.running == Some(o)
    || s.relRunning == Some(o)
  }

  ghost predicate AddressFree(s: State, a: Addr) {
    forall o :: o in s.ops && !s.ops[o].freed ==> s.ops[o].addr != a
  }

  ghost predicate Enabled(s: State, t: Step) {
    match t
    case Create(o, a) => o !in s.ops && !s.detached && !DrainLocked(s) && !ReleaseLocked(s) && AddressFree(s, a)
    case Register(o) => o in s.ops && s.ops[o].submit == Created && s.ops[o].held
    case Start(o) => o in s.ops && s.ops[o].submit == Registered
    case ReachSkip(o) => o in s.ops && s.ops[o].submit == Started
    case CancelDispatch(o) => o in s.ops && s.ops[o].submit == Skipping
    case Drop(o) => o in s.ops && s.ops[o].held && !InSubmit(s.ops[o])
    case Free(o) => o in s.ops && !s.ops[o].held && !s.ops[o].freed && !Referenced(s, o) && !Busy(s.ops[o])
    case UserCancel(o) => o in s.ops && s.ops[o].fut == Waiting
    case RunScheduled(o) => o in s.ops && s.ops[o].scheduled
    // nng calls the trampoline once per started aio
    case FireCas(o, _) => o in s.ops && IsStarted(s.ops[o]) && s.ops[o].fire == Unfired
    case PushId(o) => o in s.ops && s.ops[o].fire == LostRace
    case SendByte(o) => o in s.ops && s.ops[o].fire == Unsent
    case SockRecv => !s.poll && s.drain == DIdle && s.bytes > 0
    case LockDrain =>
      && !ReleaseLocked(s)
      && (if s.poll then s.drain == DIdle && s.bytes > 0 else s.drain == DWoken)
    case RecvBytes => s.drain == DReading && s.bytes > 0
    case BytesGone => s.drain == DReading && s.bytes == 0
    case DrainReady => s.drain == DCollecting
    case PopOne => s.drain == DPopping && s.ready != []
    case PopEnd => s.drain == DPopping && s.ready == []
    case CbTake =>
      && s.drain == DDispatching && s.running == None && s.callbacks != []
      && s.callbacks[0] in s.ops
    case CbSettle => s.running.Some? && s.running.value in s.ops && !Busy(s.ops[s.running.value])
    case CbEnd => s.drain == DDispatching && s.running == None && s.callbacks == []
    // release() cancels the drain task of PROACTOR mode; user cancellation is not modelled
    case DrainCancelled => !s.poll && (s.drain == DIdle || s.drain == DWoken) && s.release != RNotYet
    case RelLock => s.release == RNotYet && !DrainLocked(s)
    case RelSnapshot => s.release == RLocked
    case RelDetach => s.release == RSnapped
    case RelTake(a) => s.release == RCalling && s.relRunning == None && a in s.toCall && s.toCall[a] in s.ops
    case RelSettle(_) => s.relRunning.Some? && s.relRunning.value in s.ops && !Busy(s.ops[s.relRunning.value])
    case RelEnd => s.release == RCalling && s.relRunning == None && s.toCall == map[]
  }

  function SetOp(s: State, o: OpRef, p: Op): State {
    s.(ops := s.ops[o := p])
  }

  /** set_result()/set_exception() behind `if not fut.done()`. */
  function Settle(p: Op, code: bool): Op {
    p.(fut := if p.fut == Waiting then Resolved(code) else p.fut)
  }

  function NewOp(a: Addr): Op {
    Op(a, Created, Open, Unfired, true, Waiting, false, true, false, 0, 0, false, false, true, true)
  }

  // ── Submitter ──────────────────────────────────────────────────────────

  /** _prepare_submit: the callable is stored under id(self). */
  function DoRegister(s: State, o: OpRef): State
    requires o in s.ops
  {
    var p := s.ops[o];
    s.(ops := s.ops[o := p.(submit := Registered, late := (s.release != RNotYet && s.release != RLocked))],
       dict := s.dict[p.addr := o])
  }

  /** The submitter's compare-and-swap. */
  function SkipCas(p: Op): (r: Op)
    ensures r == p.(skip := r.skip, submit := r.submit)
  {
    if p.skip == Open then p.(skip := SubmitFirst, submit := Returned(false)) else p.(submit := Skipping)
  }

  /** _cancel_dispatch: pop by own id, whatever is stored there. */
  function DoCancel(s: State, o: OpRef): State
    requires o in s.ops
  {
    s.(ops := s.ops[o := s.ops[o].(submit := Returned(true))], dict := s.dict - {s.ops[o].addr})
  }

  // ── nng thread ─────────────────────────────────────────────────────────

  /** The compare-and-swap of fire(); the operation has its result code by then. */
  function FireSwap(p: Op, code: bool): (r: Op)
    ensures r == p.(skip := r.skip, fire := r.fire, code := code) && r.fire != Unfired
  {
    if p.skip == Open then p.(skip := FireFirst, fire := Fired, code := code) else p.(fire := LostRace, code := code)
  }

  /** The critical section of SockDispatchQueue.push. */
  function DoPush(s: State, o: OpRef): State
    requires o in s.ops
  {
    var p := s.ops[o];
    s.(ops := s.ops[o := p.(fire := if s.queue == [] then Unsent else Fired, pushes := p.pushes + 1)],
       queue := s.queue + [Entry(p.addr, o)])
  }

  // ── Drain ──────────────────────────────────────────────────────────────

  /** drain_ready; without a dictionary the ids are dropped: POLL returns to the loop, the PROACTOR task ends. */
  function DoDrainReady(s: State): State {
    if s.detached then s.(queue := [], lost := s.lost + s.queue, drain := if s.poll then DIdle else DEnded)
    else s.(queue := [], ready := s.ready + s.queue, drain := DPopping)
  }

  /** `cb = _dispatch_callables.pop(op_id, None)` and the append to `callbacks`. */
  function DoPop(s: State): State
    requires s.ready != []
  {
    var id := s.ready[0].id;
    if id in s.dict && s.dict[id] in s.ops then
      var o := s.dict[id];
      s.(ready := s.ready[1..], dict := s.dict - {id}, callbacks := s.callbacks + [o],
         ops := s.ops[o := s.ops[o].(drainTook := true)])
    else s.(ready := s.ready[1..])
  }

  /** First half of _dispatch_complete on the loop thread: take the future, or return if it is gone. */
  function DoCbTake(s: State): State
    requires s.callbacks != [] && s.callbacks[0] in s.ops
  {
    var o := s.callbacks[0];
    if s.ops[o].hasFuture then
      s.(callbacks := s.callbacks[1..], ops := s.ops[o := s.ops[o].(hasFuture := false)], running := Some(o))
    else s.(callbacks := s.callbacks[1..])
  }

  /** Second half: the aio is idle, the future is settled in place. */
  function DoCbSettle(s: State): State
    requires s.running.Some? && s.running.value in s.ops
  {
    var o := s.running.value;
    s.(ops := s.ops[o := Settle(s.ops[o], s.ops[o].code).(attempts := s.ops[o].attempts + 1)], running := None)
  }

  // ── release() ──────────────────────────────────────────────────────────

  function DoRelTake(s: State, a: Addr): State
    requires a in s.toCall && s.toCall[a] in s.ops
  {
    var o := s.toCall[a];
    if s.ops[o].hasFuture then
      s.(toCall := s.toCall - {a}, ops := s.ops[o := s.ops[o].(hasFuture := false)], relRunning := Some(o))
    else s.(toCall := s.toCall - {a})
  }

  /** On the loop thread the future is settled in place, elsewhere by call_soon_threadsafe. */
  function DoRelSettle(s: State, onLoop: bool): State
    requires s.relRunning.Some? && s.relRunning.value in s.ops
  {
    var o := s.relRunning.value;
    var p := s.ops[o].(attempts := s.ops[o].attempts + 1);
    var r := if onLoop then Settle(p, p.code) else p.(scheduled := true, plan := p.code);
    s.(ops := s.ops[o := r], relRunning := None)
  }

  function Next(s: State, t: Step): State
    requires Enabled(s, t)
  {
    match t
    case Create(o, a) => SetOp(s, o, NewOp(a))
    case Register(o) => DoRegister(s, o)
    case Start(o) => SetOp(s, o, s.ops[o].(submit := Started))
    case ReachSkip(o) => SetOp(s, o, SkipCas(s.ops[o]))
    case CancelDispatch(o) => DoCancel(s, o)
    case Drop(o) => SetOp(s, o, s.ops[o].(held := false))
    case Free(o) => SetOp(s, o, s.ops[o].(freed := true))
    case UserCancel(o) => SetOp(s, o, s.ops[o].(fut := Cancelled))
    case RunScheduled(o) => SetOp(s, o, Settle(s.ops[o], s.ops[o].plan).(scheduled := false))
    case FireCas(o, code) => SetOp(s, o, FireSwap(s.ops[o], code))
    case PushId(o) => DoPush(s, o)
    case SendByte(o) => SetOp(s, o, s.ops[o].(fire := Fired)).(bytes := Send(s.bytes, s.capacity))
    case SockRecv => s.(bytes := Recv(s.bytes), drain := DWoken)
    case LockDrain => s.(drain := DReading)
    case RecvBytes => s.(bytes := Recv(s.bytes))
    case BytesGone => s.(drain := DCollecting)
    case DrainReady => DoDrainReady(s)
    case PopOne => DoPop(s)
    case PopEnd => s.(drain := DDispatching)
    case CbTake => DoCbTake(s)
    case CbSettle => DoCbSettle(s)
    case CbEnd => s.(drain := DIdle)
    case DrainCancelled => s.(drain := DEnded)
    case RelLock => s.(release := RLocked)
    case RelSnapshot => s.(release := RSnapped, snapshot := s.dict, toCall := s.dict)
    case RelDetach => s.(release := RCalling, detached := true)
    case RelTake(a) => DoRelTake(s, a)
    case RelSettle(onLoop) => DoRelSettle(s, onLoop)
    case RelEnd => s.(release := RDone)
  }

  /** `s1` is reached from `s0` by performing exactly the steps of `trace`. */
  ghost predicate Run(s0: State, trace: seq<Step>, s1: State)
    decreases trace
  {
    if trace == [] then s0 == s1
    else Enabled(s0, trace[0]) && Run(Next(s0, trace[0]), trace[1..], s1)
  }
}
