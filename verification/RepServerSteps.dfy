/** Every step of the REP conversation server keeps the invariant. */
module RepServerSteps {
  import opened Options
  import opened ConversationManager
  import opened RepServer
  import opened RepServerInvariant

  // ── Loops ──────────────────────────────────────────────────────────────

  lemma NewCtxStep(s: State, l: LoopId, c: Ctx)
    requires Inv(s) && c !in s.usedCtx && (l in s.loops ==> s.loops[l].pc == Receiving)
    ensures Inv(s.(loops := s.loops[l := Loop(c, Receiving)], usedCtx := s.usedCtx + {c}))
  {
  }

  /** A loop leaves its place only when the event it may be waiting for is set, or by ending. */
  predicate MayMove(lp: Loop, pc: LoopPc, isSet: set<EventId>) {
    match pc
    case Exited => true
    case Receiving => lp.pc == Replying || (lp.pc.Waiting? && lp.pc.ev in isSet)
    case Replying => lp.pc == Receiving
    case Waiting(_) => false
  }

  lemma SetPcStep(s: State, l: LoopId, pc: LoopPc)
    requires Inv(s) && l in s.loops && MayMove(s.loops[l], pc, s.isSet)
    ensures Inv(SetPc(s, l, pc))
  {
    SetPcLoops(s, l, pc);
  }

  lemma SetPcLoops(s: State, l: LoopId, pc: LoopPc)
    requires LoopInv(s.loops, s.handed, s.isSet) && CtxInv(s.loops, s.usedCtx)
    requires l in s.loops && MayMove(s.loops[l], pc, s.isSet)
    ensures var s' := SetPc(s, l, pc); LoopInv(s'.loops, s'.handed, s'.isSet) && CtxInv(s'.loops, s'.usedCtx)
  {
  }

  // ── Steps of one client that move no slot across its border ────────────

  /** The client keeps what it owns, under the same pipe. */
  lemma ClientStep(s: State, m: MgrId, c: Client)
    requires Inv(s) && m in s.clients && ClientInv(c)
    requires c.m.pipe == s.clients[m].m.pipe && (forall p :: p in s.table && s.table[p] == m ==> !c.gone)
    requires forall slot :: Owns(s.clients[m], slot) ==> Owns(c, slot)
    requires OwnInv(m, c, s.handed, s.isSet)
    ensures Inv(SetClient(s, m, c))
  {
    ClientHanded(s, m, c);
    SwapClient(s, m, c);
  }

  lemma ClientHanded(s: State, m: MgrId, c: Client)
    requires HandedInv(s.clients, s.handed, s.isSet) && m in s.clients && c.m.pipe == s.clients[m].m.pipe
    requires forall slot :: Owns(s.clients[m], slot) ==> Owns(c, slot)
    ensures HandedInv(s.clients[m := c], s.handed, s.isSet)
  {
  }

  lemma BeginStep(s: State, m: MgrId, task: Task)
    requires Inv(s) && m in s.clients && s.clients[m].task == Unstarted && (task == Active || task == NeverRan)
    ensures Inv(SetClient(s, m, s.clients[m].(task := task)))
  {
    ClientStep(s, m, s.clients[m].(task := task));
  }

  lemma DoneStep(s: State, m: MgrId)
    requires Inv(s) && m in s.clients
    ensures Inv(SetClient(s, m, s.clients[m].(callbackDone := true)).(table := s.table - {s.clients[m].m.pipe}))
  {
    ClientStep(s, m, s.clients[m].(callbackDone := true));
  }

  lemma RecvStep(s: State, m: MgrId)
    requires Inv(s) && m in s.clients && s.clients[m].task == Active && s.clients[m].m.inbox != []
    ensures Inv(SetClient(s, m, AfterRecv(s.clients[m])))
  {
    RecvClient(s.clients[m]);
    ClientStep(s, m, AfterRecv(s.clients[m]));
  }

  lemma RecvClient(c: Client)
    requires ClientInv(c) && c.task == Active && c.m.inbox != []
    ensures ClientInv(AfterRecv(c))
    ensures forall slot :: Owns(AfterRecv(c), slot) <==> Owns(c, slot)
  {
  }

  lemma SendStartStep(s: State, m: MgrId, reply: seq<char>)
    requires Inv(s) && m in s.clients && s.clients[m].m.current.Some?
    ensures Inv(SetClient(s, m, AfterSendStart(s.clients[m], reply)))
  {
    SendStartClient(s.clients[m], reply);
    ClientStep(s, m, AfterSendStart(s.clients[m], reply));
  }

  lemma SendStartClient(c: Client, reply: seq<char>)
    requires ClientInv(c) && c.m.current.Some?
    ensures ClientInv(AfterSendStart(c, reply))
    ensures forall slot :: Owns(AfterSendStart(c, reply), slot) <==> Owns(c, slot)
  {
  }

  lemma PipeRemovedStep(s: State, p: Pipe)
    requires Inv(s)
    ensures Inv(DoPipeRemoved(s, p))
  {
    if p in s.table {
      var m := s.table[p];
      var c := s.clients[m];
      var c' := c.(m := Disconnect(c.m), gone := true);
      DisconnectClient(c);
      ClientStep(s.(table := s.table - {p}), m, c');
    }
  }

  lemma DisconnectClient(c: Client)
    requires ClientInv(c) && !c.gone
    ensures ClientInv(c.(m := Disconnect(c.m), gone := true))
    ensures forall slot :: Owns(c, slot) <==> Owns(c.(m := Disconnect(c.m), gone := true), slot)
  {
  }

  // ── Releasing slots ────────────────────────────────────────────────────

  /** The client gives up exactly the slots whose events are set. */
  lemma ReleaseStep(s: State, m: MgrId, c: Client, released: set<EventId>)
    requires Inv(s) && m in s.clients && ClientInv(c)
    requires c.m.pipe == s.clients[m].m.pipe && (forall p :: p in s.table && s.table[p] == m ==> !c.gone)
    requires forall ev :: ev in released ==> ev in s.handed && s.handed[ev].mgr == m
    requires forall slot :: Owns(c, slot) <==> Owns(s.clients[m], slot) && slot.ev !in released
    requires forall i :: 0 <= i < |c.log| && c.log[i].Got? ==> SlotOf(s.handed, m, c.log[i].slot)
    ensures Inv(s.(clients := s.clients[m := c], isSet := s.isSet + released))
  {
    ReleaseHanded(s, m, c, released);
    ReleaseOwners(s, m, c, released);
    ReleaseLoops(s, released);
    SwapClient(s, m, c);
  }

  lemma ReleaseLoops(s: State, released: set<EventId>)
    requires LoopInv(s.loops, s.handed, s.isSet)
    ensures LoopInv(s.loops, s.handed, s.isSet + released)
  {
  }

  lemma SwapClient(s: State, m: MgrId, c: Client)
    requires ClientsInv(s.clients) && TableInv(s.clients, s.table) && m in s.clients && ClientInv(c)
    requires c.m.pipe == s.clients[m].m.pipe && (forall p :: p in s.table && s.table[p] == m ==> !c.gone)
    ensures ClientsInv(s.clients[m := c]) && TableInv(s.clients[m := c], s.table)
  {
  }

  lemma ReleaseHanded(s: State, m: MgrId, c: Client, released: set<EventId>)
    requires HandedInv(s.clients, s.handed, s.isSet) && m in s.clients && c.m.pipe == s.clients[m].m.pipe
    requires forall ev :: ev in released ==> ev in s.handed
    requires forall slot :: Owns(c, slot) <==> Owns(s.clients[m], slot) && slot.ev !in released
    ensures HandedInv(s.clients[m := c], s.handed, s.isSet + released)
  {
  }

  lemma ReleaseOwners(s: State, m: MgrId, c: Client, released: set<EventId>)
    requires OwnersInv(s) && m in s.clients
    requires forall ev :: ev in released ==> ev in s.handed && s.handed[ev].mgr == m
    requires forall slot :: Owns(c, slot) <==> Owns(s.clients[m], slot) && slot.ev !in released
    requires forall i :: 0 <= i < |c.log| && c.log[i].Got? ==> SlotOf(s.handed, m, c.log[i].slot)
    ensures OwnersInv(s.(clients := s.clients[m := c], isSet := s.isSet + released))
  {
    assert OwnInv(m, s.clients[m], s.handed, s.isSet);
  }

  lemma SendEndStep(s: State, m: MgrId, slot: Slot, ok: bool)
    requires Inv(s) && m in s.clients && slot in s.clients[m].sends
    ensures Inv(DoSendEnd(s, m, slot, ok))
  {
    SendEndClient(m, s.clients[m], slot, ok, s.handed, s.isSet);
    ReleaseStep(s, m, SendEnded(s.clients[m], slot, ok), {slot.ev});
  }

  lemma SendEndClient(m: MgrId, c: Client, slot: Slot, ok: bool, handed: Handed, isSet: set<EventId>)
    requires ClientInv(c) && OwnInv(m, c, handed, isSet) && slot in c.sends
    ensures ClientInv(SendEnded(c, slot, ok))
    ensures slot.ev in handed && handed[slot.ev].mgr == m
    ensures forall x :: Owns(SendEnded(c, slot, ok), x) <==> Owns(c, x) && x.ev !in {slot.ev}
  {
    assert Owns(c, slot);
    assert forall x :: Owns(c, x) && x.ev == slot.ev ==> x == slot;
  }

  lemma FinishStep(s: State, m: MgrId)
    requires Inv(s) && m in s.clients && s.clients[m].task == Active
    ensures Inv(DoFinish(s, m))
  {
    var c := s.clients[m];
    FinishReleases(m, c, s.handed, s.isSet);
    ReleaseStep(s, m, Finished(c), HeldEvents(c.m));
  }

  lemma FinishClient(c: Client)
    requires ClientInv(c) && c.task == Active
    ensures ClientInv(Finished(c))
    ensures forall i :: 0 <= i < |Finished(c).log| && Finished(c).log[i].Got? ==>
      i < |c.log| && Finished(c).log[i] == c.log[i]
  {
  }

  /** The events set by the cleanup are those of the slots in the inbox and in _current_ctx. */
  lemma FinishReleases(m: MgrId, c: Client, handed: Handed, isSet: set<EventId>)
    requires ClientInv(c) && OwnInv(m, c, handed, isSet) && c.task == Active
    ensures ClientInv(Finished(c))
    ensures var released := HeldEvents(c.m);
      && (forall ev :: ev in released ==> ev in handed && handed[ev].mgr == m)
      && (forall slot :: Owns(Finished(c), slot) <==> Owns(c, slot) && slot.ev !in released)
    ensures forall i :: 0 <= i < |Finished(c).log| && Finished(c).log[i].Got? ==>
      SlotOf(handed, m, Finished(c).log[i].slot)
  {
    FinishClient(c);
    var released := HeldEvents(c.m);
    forall ev | ev in InboxEvents(c.m.inbox) ensures HasMessage(c.m.inbox) && ev == c.m.inbox[0].slot.ev {}
    if HasMessage(c.m.inbox) {
      assert c.m.inbox[0].slot.ev in InboxEvents(c.m.inbox);
      assert Owns(c, c.m.inbox[0].slot);
    }
    if c.m.current.Some? {
      assert Owns(c, c.m.current.value);
    }
    assert forall x, y :: Owns(c, x) && Owns(c, y) && x.ev == y.ev ==> x == y;
    assert forall slot :: slot in c.sends ==> Owns(c, slot) && slot.ev !in released;
  }

  // ── Handing over ───────────────────────────────────────────────────────

  /** What _dispatch makes of the client. */
  function Dispatched(c: Client, slot: Slot): Client {
    c.(m := Dispatch(c.m, slot).0)
  }

  lemma DispatchClient(m: MgrId, c: Client, slot: Slot, handed: Handed, isSet: set<EventId>)
    requires ClientInv(c) && OwnInv(m, c, handed, isSet) && slot.ev !in handed
    ensures ClientInv(Dispatched(c, slot))
    ensures forall x :: Owns(Dispatched(c, slot), x) <==>
      Owns(c, x) || (x == slot && Dispatch(c.m, slot).1 == Queued)
    ensures Dispatch(c.m, slot).1 == Queued ==> Owns(Dispatched(c, slot), slot)
  {
    assert forall x: Slot :: slot.ev == x.ev ==> !Owns(c, x);
    assert Dispatch(c.m, slot).1 == Queued ==> c.m.inbox == [];
  }

  ghost predicate Routed(s: State, p: Pipe, m: MgrId, c: Client) {
    && ClientInv(c) && OwnInv(m, c, s.handed, s.isSet) && c.m.pipe == p && !c.gone
    && (if m in s.clients then c == s.clients[m] else c == NewClient(p))
  }

  lemma RouteClient(s: State, p: Pipe, spare: MgrId)
    requires Inv(s) && spare !in s.clients
    ensures p in s.table ==> s.table[p] in s.clients
    ensures Routed(s, p, Route(s, p, spare).0, Route(s, p, spare).1)
  {
  }

  /** The state after a message has been handed to manager `m`, component by component. */
  ghost predicate HandedOver(s: State, s': State, l: LoopId, m: MgrId, c: Client, slot: Slot) {
    var outcome := Dispatch(c.m, slot).1;
    && l in s.loops && slot.ctx == s.loops[l].ctx && slot.ev !in s.handed && slot.msg.pipe == Some(c.m.pipe)
    && s'.clients == s.clients[m := Dispatched(c, slot)]
    && s'.handed == s.handed[slot.ev := Handoff(m, slot, l)]
    && s'.isSet == (if outcome == Queued then s.isSet else s.isSet + {slot.ev})
    && s'.loops == s.loops[l := s.loops[l].(pc := if outcome == DoubleMessage then Replying else Waiting(slot.ev))]
    && s'.table == s.table[c.m.pipe := m] && s'.usedCtx == s.usedCtx
  }

  lemma HandOverOwners(s: State, s': State, l: LoopId, m: MgrId, c: Client, slot: Slot)
    requires OwnersInv(s) && HandedInv(s.clients, s.handed, s.isSet)
    requires Routed(s, c.m.pipe, m, c) && HandedOver(s, s', l, m, c, slot)
    ensures OwnersInv(s') && ClientInv(s'.clients[m])
  {
    DispatchClient(m, c, slot, s.handed, s.isSet);
    DispatchedOwn(s, s', l, m, c, slot);
    forall n | n in s'.clients ensures OwnInv(n, s'.clients[n], s'.handed, s'.isSet) {
      if n != m {
        OtherOwn(n, s.clients[n], s.handed, s.isSet, slot.ev, Handoff(m, slot, l));
      }
    }
  }

  /** A client not involved in the handover. */
  lemma OtherOwn(n: MgrId, c: Client, handed: Handed, isSet: set<EventId>, ev: EventId, h: Handoff)
    requires OwnInv(n, c, handed, isSet) && ev !in handed
    ensures OwnInv(n, c, handed[ev := h], isSet) && OwnInv(n, c, handed[ev := h], isSet + {ev})
  {
  }

  lemma DispatchedOwn(s: State, s': State, l: LoopId, m: MgrId, c: Client, slot: Slot)
    requires OwnInv(m, c, s.handed, s.isSet) && HandedOver(s, s', l, m, c, slot) && s.isSet <= s.handed.Keys
    requires forall x :: Owns(Dispatched(c, slot), x) <==>
      Owns(c, x) || (x == slot && Dispatch(c.m, slot).1 == Queued)
    ensures OwnInv(m, Dispatched(c, slot), s'.handed, s'.isSet)
  {
    OtherOwn(m, c, s.handed, s.isSet, slot.ev, Handoff(m, slot, l));
  }

  lemma HandOverHanded(s: State, s': State, l: LoopId, m: MgrId, c: Client, slot: Slot)
    requires HandedInv(s.clients, s.handed, s.isSet)
    requires Routed(s, c.m.pipe, m, c) && HandedOver(s, s', l, m, c, slot)
    ensures HandedInv(s'.clients, s'.handed, s'.isSet)
  {
    DispatchClient(m, c, slot, s.handed, s.isSet);
  }

  lemma HandOverLoops(s: State, s': State, l: LoopId, m: MgrId, c: Client, slot: Slot)
    requires LoopInv(s.loops, s.handed, s.isSet) && CtxInv(s.loops, s.usedCtx)
    requires HandedOver(s, s', l, m, c, slot) && s.loops[l].pc == Receiving
    ensures LoopInv(s'.loops, s'.handed, s'.isSet) && CtxInv(s'.loops, s'.usedCtx)
  {
  }

  lemma ReceiveStep(s: State, l: LoopId, msg: Msg, ev: EventId, spare: MgrId)
    requires Inv(s) && Enabled(s, Receive(l, msg, ev, spare))
    ensures Inv(DoReceive(s, l, msg, ev, spare))
  {
    if msg.pipe.None? {
      SetPcStep(s, l, Replying);
    } else {
      var p := msg.pipe.value;
      RouteClient(s, p, spare);
      var (m, c) := Route(s, p, spare);
      HandOver(s, DoReceive(s, l, msg, ev, spare), l, m, c, Slot(msg, s.loops[l].ctx, ev));
    }
  }

  lemma HandOver(s: State, s': State, l: LoopId, m: MgrId, c: Client, slot: Slot)
    requires Inv(s) && Routed(s, c.m.pipe, m, c)
    requires HandedOver(s, s', l, m, c, slot) && s.loops[l].pc == Receiving
    ensures Inv(s')
  {
    HandOverOwners(s, s', l, m, c, slot);
    HandOverHanded(s, s', l, m, c, slot);
    HandOverLoops(s, s', l, m, c, slot);
    HandOverTable(s, s', l, m, c, slot);
  }

  lemma HandOverTable(s: State, s': State, l: LoopId, m: MgrId, c: Client, slot: Slot)
    requires ClientsInv(s.clients) && TableInv(s.clients, s.table)
    requires Routed(s, c.m.pipe, m, c) && HandedOver(s, s', l, m, c, slot) && ClientInv(s'.clients[m])
    ensures ClientsInv(s'.clients) && TableInv(s'.clients, s'.table)
  {
    assert ClientsInv(s'.clients);
    forall p | p in s'.table
      ensures s'.table[p] in s'.clients && s'.clients[s'.table[p]].m.pipe == p && !s'.clients[s'.table[p]].gone
    {
      assert p in s.table ==> s.table[p] in s.clients && s.clients[s.table[p]].m.pipe == p;
    }
  }

  // ── All steps, all runs ────────────────────────────────────────────────

  predicate ByLoop(t: Step) {
    t.OpenLoop? || t.Receive? || t.StateError? || t.Replied? || t.Wake? || t.Exit?
  }

  lemma LoopKeepsInv(s: State, t: Step)
    requires Inv(s) && Enabled(s, t) && ByLoop(t)
    ensures Inv(Next(s, t))
  {
    match t
    case OpenLoop(l, c) => NewCtxStep(s, l, c);
    case Receive(l, msg, ev, spare) => ReceiveStep(s, l, msg, ev, spare);
    case StateError(l, c) => NewCtxStep(s, l, c);
    case Replied(l) => SetPcStep(s, l, Receiving);
    case Wake(l) => SetPcStep(s, l, Receiving);
    case Exit(l) => SetPcStep(s, l, Exited);
  }

  predicate ByConversation(t: Step) {
    t.RecvItem? || t.SendStart? || t.SendEnd? || t.Finish?
  }

  lemma ConversationKeepsInv(s: State, t: Step)
    requires Inv(s) && Enabled(s, t) && ByConversation(t)
    ensures Inv(Next(s, t))
  {
    match t
    case RecvItem(m) => RecvStep(s, m);
    case SendStart(m, reply) => SendStartStep(s, m, reply);
    case SendEnd(m, slot, ok) => SendEndStep(s, m, slot, ok);
    case Finish(m) => FinishStep(s, m);
  }

  lemma TaskKeepsInv(s: State, t: Step)
    requires Inv(s) && Enabled(s, t) && !ByLoop(t) && !ByConversation(t)
    ensures Inv(Next(s, t))
  {
    match t
    case PipeRemoved(p) => PipeRemovedStep(s, p);
    case Begin(m) => BeginStep(s, m, Active);
    case CancelUnstarted(m) => BeginStep(s, m, NeverRan);
    case DoneCallback(m) => DoneStep(s, m);
  }

  lemma StepKeepsInv(s: State, t: Step)
    requires Inv(s) && Enabled(s, t)
    ensures Inv(Next(s, t))
  {
    if ByLoop(t) {
      LoopKeepsInv(s, t);
    } else if ByConversation(t) {
      ConversationKeepsInv(s, t);
    } else {
      TaskKeepsInv(s, t);
    }
  }

  lemma {:induction false} RunKeepsInv(s0: State, trace: seq<Step>, s1: State)
    requires Inv(s0) && Run(s0, trace, s1)
    ensures Inv(s1)
    decreases trace
  {
    if trace != [] {
      StepKeepsInv(s0, trace[0]);
      RunKeepsInv(Next(s0, trace[0]), trace[1..], s1);
    }
  }
}
