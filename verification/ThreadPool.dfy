/**
 NngThreadPool as a step relation: any number of submit() calls, of worker threads and of
 shutdown() calls, interleaved at every access to shared data.

 A call is known by the reference of its future; `id` is the number that travels over the
 channel.  The fields `callOf`, `asked`, `emptied` and, in a call, everything after `fut` are history:
 the modelled code never reads them.
 */
module ThreadPool {
  import opened Options

  type CallRef = nat
  type Worker = nat
  type ShutRef = nat

  /** Where submit() is; Reading is between reading and incrementing _next_id under the lock. */
  datatype SubmitPc = Entered | Reading | Allocated | Stored | Returned | Raised

  datatype Future = Undone | Result | Failure | Cancelled

  /** Who holds the call (history). */
  datatype Place = Storing | Pending | AtWorker(w: Worker) | AtCancelLoop(k: ShutRef) | Retired

  /** Where the message of the call is (history). */
  datatype Mail = Unsent | Queued | With(w: Worker) | Consumed | Lost

  /** Who took the entry out of _pending (history). */
  datatype Taker = Nobody | SomeWorker | CancelLoop

  datatype Call = Call(
    pc: SubmitPc,
    id: nat,
    fut: Future,
    userCancelled: bool,
    settles: nat,          // how often the pool settled or cancelled the future
    place: Place,
    mail: Mail,
    taker: Taker,
    late: bool)            // stored after a cancel loop had found _pending empty

  datatype WorkerPc =
    | Waiting
    | Got(id: nat)
    | Popped(id: nat, c: CallRef)
    | Running(id: nat, c: CallRef)
    | Exited
    | Crashed(c: CallRef)

  datatype ShutPc = Passed | Cancelling | Holding(c: CallRef) | Closing | Closed

  datatype Shut = Shut(pc: ShutPc, cancel: bool)

  datatype State = State(
    next: nat,
    lock: Option<CallRef>,
    calls: map<CallRef, Call>,
    pending: map<nat, CallRef>,
    channel: multiset<nat>,
    workers: map<Worker, WorkerPc>,
    shutdown: bool,
    closed: bool,
    shuts: map<ShutRef, Shut>,
    asked: bool,           // a shutdown(cancel_futures=True) went ahead
    emptied: bool,         // a cancel loop has found _pending empty
    callOf: map<nat, CallRef>)

  datatype Step =
    | Enter(c: CallRef)
    | ReadId(c: CallRef)
    | BumpId(c: CallRef)
    | Store(c: CallRef)
    | Send(c: CallRef)
    | SendFails(c: CallRef)
    | UserCancel(c: CallRef)
    | Recv(w: Worker, i: nat)
    | Lose(i: nat)
    | Pop(w: Worker)
    | Check(w: Worker)
    | Finish(w: Worker, ok: bool)
    | Exit(w: Worker)
    | ShutBegin(k: ShutRef, cancel: bool)
    | ShutSet(k: ShutRef)
    | TakeItem(k: ShutRef, i: nat)
    | CancelItem(k: ShutRef)
    | SawEmpty(k: ShutRef)
    | Close(k: ShutRef)

  function Init(workers: set<Worker>): State {
    State(0, None, map[], map[], multiset{}, map w | w in workers :: Waiting, false, false, map[], false, false, map[])
  }

  function NewCall(): Call {
    Call(Entered, 0, Undone, false, 0, Storing, Unsent, Nobody, false)
  }

  predicate CallAt(s: State, c: CallRef, pc: SubmitPc) {
    c in s.calls && s.calls[c].pc == pc
  }

  predicate ShutAt(s: State, k: ShutRef, pc: ShutPc) {
    k in s.shuts && s.shuts[k].pc == pc
  }

  predicate Enabled(s: State, t: Step) {
    match t
    // submit() looks at _shutdown once, before anything else
    case Enter(c) => c !in s.calls && !s.shutdown
    case ReadId(c) => CallAt(s, c, Entered) && s.lock == None
    case BumpId(c) => CallAt(s, c, Reading)
    case Store(c) => CallAt(s, c, Allocated)
    case Send(c) => CallAt(s, c, Stored) && !s.closed
    case SendFails(c) => CallAt(s, c, Stored)
    case UserCancel(c) => CallAt(s, c, Returned) && s.calls[c].fut == Undone
    case Recv(w, i) => w in s.workers && s.workers[w] == Waiting && s.channel[i] > 0
    // the channel may drop messages only once the push socket is closed
    case Lose(i) => s.closed && s.channel[i] > 0
    case Pop(w) => w in s.workers && s.workers[w].Got?
    case Check(w) => w in s.workers && s.workers[w].Popped? && s.workers[w].c in s.calls
    case Finish(w, _) => w in s.workers && s.workers[w].Running? && s.workers[w].c in s.calls
    case Exit(w) => w in s.workers && s.workers[w] == Waiting && s.closed
    case ShutBegin(k, _) => k !in s.shuts && !s.shutdown
    case ShutSet(k) => ShutAt(s, k, Passed)
    // popitem takes the newest entry; that it takes some entry is all that is used
    case TakeItem(k, i) => ShutAt(s, k, Cancelling) && i in s.pending && s.pending[i] in s.calls
    case CancelItem(k) => k in s.shuts && s.shuts[k].pc.Holding? && s.shuts[k].pc.c in s.calls
    case SawEmpty(k) => ShutAt(s, k, Cancelling) && s.pending == map[]
    case Close(k) => ShutAt(s, k, Closing)
  }

  function SetCall(s: State, c: CallRef, p: Call): State {
    s.(calls := s.calls[c := p])
  }

  /** History: the message of call number i moves on. */
  function SetMail(s: State, i: nat, m: Mail): State {
    if i in s.callOf && s.callOf[i] in s.calls then SetCall(s, s.callOf[i], s.calls[s.callOf[i]].(mail := m)) else s
  }

  /** `self._pending.pop(call_id, None)`. */
  function DoPop(s: State, w: Worker, i: nat): State {
    if i in s.pending && s.pending[i] in s.calls then
      var c := s.pending[i];
      SetCall(s, c, s.calls[c].(place := AtWorker(w), taker := SomeWorker, mail := Consumed))
        .(pending := s.pending - {i}, workers := s.workers[w := Popped(i, c)])
    else SetMail(s, i, Consumed).(workers := s.workers[w := Waiting])
  }

  /** `if future.cancelled(): continue`. */
  function DoCheck(s: State, w: Worker, i: nat, c: CallRef): State
    requires c in s.calls
  {
    if s.calls[c].fut == Cancelled then
      SetCall(s, c, s.calls[c].(place := Retired)).(workers := s.workers[w := Waiting])
    else s.(workers := s.workers[w := Running(i, c)])
  }

  /** set_result or set_exception: both refuse a future that is done. */
  function Outcome(f: Future, ok: bool): Future {
    if f != Undone then f else if ok then Result else Failure
  }

  /** The refusal ends the thread. */
  function DoFinish(s: State, w: Worker, c: CallRef, ok: bool): State
    requires c in s.calls
  {
    var p := s.calls[c];
    var n := if p.fut == Undone then 1 else 0;
    SetCall(s, c, p.(place := Retired, fut := Outcome(p.fut, ok), settles := p.settles + n))
      .(workers := s.workers[w := if p.fut == Undone then Waiting else Crashed(c)])
  }

  /** `future.cancel()` has no effect on a future that is done. */
  function DoCancelItem(s: State, k: ShutRef): State
    requires k in s.shuts && s.shuts[k].pc.Holding? && s.shuts[k].pc.c in s.calls
  {
    var c := s.shuts[k].pc.c;
    var p := s.calls[c].(place := Retired);
    SetCall(s, c, if p.fut == Undone then p.(fut := Cancelled, settles := p.settles + 1) else p)
      .(shuts := s.shuts[k := s.shuts[k].(pc := Cancelling)])
  }

  function Next(s: State, t: Step): State
    requires Enabled(s, t)
  {
    match t
    case Enter(c) => SetCall(s, c, NewCall())
    case ReadId(c) => SetCall(s, c, s.calls[c].(pc := Reading, id := s.next)).(lock := Some(c))
    case BumpId(c) =>
      SetCall(s, c, s.calls[c].(pc := Allocated))
        .(next := s.next + 1, lock := None, callOf := s.callOf[s.calls[c].id := c])
    case Store(c) =>
      SetCall(s, c, s.calls[c].(pc := Stored, place := Pending, late := s.emptied))
        .(pending := s.pending[s.calls[c].id := c])
    case Send(c) =>
      SetCall(s, c, s.calls[c].(pc := Returned, mail := Queued))
        .(channel := s.channel + multiset{s.calls[c].id})
    case SendFails(c) => SetCall(s, c, s.calls[c].(pc := Raised))
    case UserCancel(c) => SetCall(s, c, s.calls[c].(fut := Cancelled, userCancelled := true))
    case Recv(w, i) =>
      SetMail(s, i, With(w)).(channel := s.channel - multiset{i}, workers := s.workers[w := Got(i)])
    case Lose(i) => SetMail(s, i, Lost).(channel := s.channel - multiset{i})
    case Pop(w) => DoPop(s, w, s.workers[w].id)
    case Check(w) => DoCheck(s, w, s.workers[w].id, s.workers[w].c)
    case Finish(w, ok) => DoFinish(s, w, s.workers[w].c, ok)
    case Exit(w) => s.(workers := s.workers[w := Exited])
    case ShutBegin(k, cancel) => s.(shuts := s.shuts[k := Shut(Passed, cancel)])
    case ShutSet(k) =>
      s.(shutdown := true, asked := s.asked || s.shuts[k].cancel,
         shuts := s.shuts[k := s.shuts[k].(pc := if s.shuts[k].cancel then Cancelling else Closing)])
    case TakeItem(k, i) =>
      var c := s.pending[i];
      SetCall(s, c, s.calls[c].(place := AtCancelLoop(k), taker := CancelLoop))
        .(pending := s.pending - {i}, shuts := s.shuts[k := s.shuts[k].(pc := Holding(c))])
    case CancelItem(k) => DoCancelItem(s, k)
    case SawEmpty(k) => s.(emptied := true, shuts := s.shuts[k := s.shuts[k].(pc := Closing)])
    case Close(k) => s.(closed := true, shuts := s.shuts[k := s.shuts[k].(pc := Closed)])
  }

  ghost predicate Run(s0: State, trace: seq<Step>, s1: State)
    decreases trace
  {
    if trace == [] then s0 == s1
    else Enabled(s0, trace[0]) && Run(Next(s0, trace[0]), trace[1..], s1)
  }

  lemma {:induction false} RunConcat(s0: State, a: seq<Step>, s1: State, b: seq<Step>, s2: State)
    requires Run(s0, a, s1) && Run(s1, b, s2)
    ensures Run(s0, a + b, s2)
    decreases a
  {
    if a == [] {
      assert a + b == b;
    } else {
      RunConcat(Next(s0, a[0]), a[1..], s1, b, s2);
      assert (a + b)[1..] == a[1..] + b;
    }
  }

  lemma RunOne(s: State, t: Step)
    requires Enabled(s, t)
    ensures Run(s, [t], Next(s, t))
  {
    assert [t][1..] == [];
    assert Run(Next(s, t), [], Next(s, t));
  }
}
