/**
 The REP conversation server as a step relation over its asyncio tasks: n dispatch loops,
 one manager task per client, pipe status callbacks and task done callbacks.  A step is the
 code between two awaits.  User code (the conversation callback) is arbitrary: it may call
 arecv and asend in any order, from several tasks, and may return, raise or be cancelled at
 any time.  Fields marked "history" are never read by the modelled code.
 */
module RepServer {
  import opened Options
  import opened ConversationManager

  type MgrId = nat
  type LoopId = nat

  datatype LoopPc = Receiving | Replying | Waiting(ev: EventId) | Exited

  datatype Loop = Loop(ctx: Ctx, pc: LoopPc)

  /** A manager task; NeverRan: cancelled before its first step. */
  datatype Task = Unstarted | Active | Over | NeverRan

  /** What a conversation does with its slots (history). */
  datatype Act = Got(slot: Slot) | Sent(slot: Slot, reply: seq<char>) | Dropped(slot: Slot)

  datatype Client = Client(
    m: Mgr,
    task: Task,
    sends: set<Slot>,          // asend calls in flight
    callbackDone: bool,        // its done callback has run
    gone: bool,                // history: _disconnect has been called
    log: seq<Act>,             // history
    delivered: set<EventId>)   // history: sends that ended without an error

  /** Who was given which slot, by whom (history). */
  datatype Handoff = Handoff(mgr: MgrId, slot: Slot, loop: LoopId)

  datatype State = State(
    clients: map<MgrId, Client>,     // every manager ever created
    table: map<Pipe, MgrId>,         // _clients
    loops: map<LoopId, Loop>,
    isSet: set<EventId>,
    usedCtx: set<Ctx>,
    handed: map<EventId, Handoff>,
    removed: set<Pipe>)              // history: pipes whose removal has been handled

  datatype Step =
    | OpenLoop(l: LoopId, c: Ctx)
    | Receive(l: LoopId, msg: Msg, ev: EventId, spare: MgrId)
    | StateError(l: LoopId, c: Ctx)
    | Replied(l: LoopId)
    | Wake(l: LoopId)
    | Exit(l: LoopId)
    | PipeRemoved(p: Pipe)
    | Begin(m: MgrId)
    | RecvItem(m: MgrId)
    | SendStart(m: MgrId, reply: seq<char>)
    | SendEnd(m: MgrId, slot: Slot, ok: bool)
    | Finish(m: MgrId)
    | CancelUnstarted(m: MgrId)
    | DoneCallback(m: MgrId)

  function Init(): State {
    State(map[], map[], map[], {}, {}, map[], {})
  }

  function NewClient(p: Pipe): Client {
    Client(NewMgr(p), Unstarted, {}, false, false, [], {})
  }

  predicate Enabled(s: State, t: Step) {
    match t
    case OpenLoop(l, c) => l !in s.loops && c !in s.usedCtx
    case Receive(l, msg, ev, spare) =>
      && l in s.loops && s.loops[l].pc == Receiving
      && ev !in s.handed && spare !in s.clients
      && (msg.pipe.Some? && msg.pipe.value in s.table ==> s.table[msg.pipe.value] in s.clients)
    case StateError(l, c) => l in s.loops && s.loops[l].pc == Receiving && c !in s.usedCtx
    case Replied(l) => l in s.loops && s.loops[l].pc == Replying
    case Wake(l) => l in s.loops && s.loops[l].pc.Waiting? && s.loops[l].pc.ev in s.isSet
    case Exit(l) => l in s.loops
    case PipeRemoved(p) => p in s.table ==> s.table[p] in s.clients
    case Begin(m) => m in s.clients && s.clients[m].task == Unstarted
    case RecvItem(m) => m in s.clients && s.clients[m].task == Active && s.clients[m].m.inbox != []
    case SendStart(m, _) => m in s.clients && s.clients[m].m.current.Some?
    case SendEnd(m, slot, _) => m in s.clients && slot in s.clients[m].sends
    case Finish(m) => m in s.clients && s.clients[m].task == Active
    case CancelUnstarted(m) => m in s.clients && s.clients[m].task == Unstarted
    case DoneCallback(m) =>
      && m in s.clients && !s.clients[m].callbackDone
      && (s.clients[m].task == Over || s.clients[m].task == NeverRan)
  }

  function SetClient(s: State, m: MgrId, c: Client): State {
    s.(clients := s.clients[m := c])
  }

  function SetPc(s: State, l: LoopId, pc: LoopPc): State
    requires l in s.loops
  {
    s.(loops := s.loops[l := s.loops[l].(pc := pc)])
  }

  /** The known client of the pipe, or a new one under the name `spare`. */
  function Route(s: State, p: Pipe, spare: MgrId): (MgrId, Client)
    requires p in s.table ==> s.table[p] in s.clients
  {
    if p in s.table then (s.table[p], s.clients[s.table[p]]) else (spare, NewClient(p))
  }

  /** _recv_dispatch from the return of arecv to its next await. */
  function DoReceive(s: State, l: LoopId, msg: Msg, ev: EventId, spare: MgrId): State
    requires Enabled(s, Receive(l, msg, ev, spare))
  {
    if msg.pipe.None? then SetPc(s, l, Replying)
    else
      var p := msg.pipe.value;
      var (m, c) := Route(s, p, spare);
      var slot := Slot(msg, s.loops[l].ctx, ev);
      var (m', outcome) := Dispatch(c.m, slot);
      s.(clients := s.clients[m := c.(m := m')],
         table := s.table[p := m],
         loops := s.loops[l := s.loops[l].(pc := if outcome == DoubleMessage then Replying else Waiting(ev))],
         isSet := if outcome == Queued then s.isSet else s.isSet + {ev},
         handed := s.handed[ev := Handoff(m, slot, l)])
  }

  /** _handle_pipe_status_change for REMOVED. */
  function DoPipeRemoved(s: State, p: Pipe): State
    requires p in s.table ==> s.table[p] in s.clients
  {
    if p in s.table then
      var m := s.table[p];
      var c := s.clients[m];
      s.(clients := s.clients[m := c.(m := Disconnect(c.m), gone := true)],
         table := s.table - {p}, removed := s.removed + {p})
    else s.(removed := s.removed + {p})
  }

  function AfterRecv(c: Client): Client
    requires c.m.inbox != []
  {
    c.(m := Arecv(c.m), log := if c.m.inbox[0].Message? then c.log + [Got(c.m.inbox[0].slot)] else c.log)
  }

  function AfterSendStart(c: Client, reply: seq<char>): Client
    requires c.m.current.Some?
  {
    var slot := c.m.current.value;
    c.(m := TakeCurrent(c.m), sends := c.sends + {slot}, log := c.log + [Sent(slot, reply)])
  }

  function SendEnded(c: Client, slot: Slot, ok: bool): Client {
    c.(sends := c.sends - {slot}, delivered := if ok then c.delivered + {slot.ev} else c.delivered)
  }

  /** asend after its await: whatever happened, the reply event is set. */
  function DoSendEnd(s: State, m: MgrId, slot: Slot, ok: bool): State
    requires m in s.clients
  {
    s.(clients := s.clients[m := SendEnded(s.clients[m], slot, ok)], isSet := s.isSet + {slot.ev})
  }

  function Finished(c: Client): Client {
    c.(m := Cleanup(c.m), task := Over,
       log := if c.m.current.Some? then c.log + [Dropped(c.m.current.value)] else c.log)
  }

  /** _execute ends, however: its finally block runs. */
  function DoFinish(s: State, m: MgrId): State
    requires m in s.clients
  {
    s.(clients := s.clients[m := Finished(s.clients[m])], isSet := s.isSet + HeldEvents(s.clients[m].m))
  }

  function Next(s: State, t: Step): State
    requires Enabled(s, t)
  {
    match t
    case OpenLoop(l, c) => s.(loops := s.loops[l := Loop(c, Receiving)], usedCtx := s.usedCtx + {c})
    case Receive(l, msg, ev, spare) => DoReceive(s, l, msg, ev, spare)
    case StateError(l, c) => s.(loops := s.loops[l := Loop(c, Receiving)], usedCtx := s.usedCtx + {c})
    case Replied(l) => SetPc(s, l, Receiving)
    case Wake(l) => SetPc(s, l, Receiving)
    case Exit(l) => SetPc(s, l, Exited)
    case PipeRemoved(p) => DoPipeRemoved(s, p)
    case Begin(m) => SetClient(s, m, s.clients[m].(task := Active))
    case RecvItem(m) => SetClient(s, m, AfterRecv(s.clients[m]))
    case SendStart(m, reply) => SetClient(s, m, AfterSendStart(s.clients[m], reply))
    case SendEnd(m, slot, ok) => DoSendEnd(s, m, slot, ok)
    case Finish(m) => DoFinish(s, m)
    case CancelUnstarted(m) => SetClient(s, m, s.clients[m].(task := NeverRan))
    case DoneCallback(m) =>
      // the entry is removed by pipe, whichever manager it leads to by now
      SetClient(s, m, s.clients[m].(callbackDone := true)).(table := s.table - {s.clients[m].m.pipe})
  }

  ghost predicate Run(s0: State, trace: seq<Step>, s1: State)
    decreases trace
  {
    if trace == [] then s0 == s1
    else Enabled(s0, trace[0]) && Run(Next(s0, trace[0]), trace[1..], s1)
  }
}
