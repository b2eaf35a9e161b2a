/** The inductive invariant of the REP conversation server. */
module RepServerInvariant {
  import opened Options
  import opened ConversationManager
  import opened RepServer

  // ── One client ─────────────────────────────────────────────────────────

  /** At most one message, at most one sentinel, the sentinel last. */
  predicate InboxInv(inbox: seq<Item>) {
    |inbox| <= MAX_INBOX && (|inbox| == 2 ==> inbox[0].Message? && inbox[1].Sentinel?)
  }

  predicate HasSentinel(inbox: seq<Item>) {
    |inbox| > 0 && inbox[|inbox| - 1].Sentinel?
  }

  predicate HasMessage(inbox: seq<Item>) {
    |inbox| > 0 && inbox[0].Message?
  }

  predicate PhaseInv(c: Client) {
    && InboxInv(c.m.inbox)
    && (c.m.current.Some? ==> !HasMessage(c.m.inbox))
    && (HasSentinel(c.m.inbox) ==> c.gone)
    && (c.gone || c.m.shut ==> !c.m.running)
    && (c.task == Over ==> c.m.shut && c.m.inbox == [] && c.m.current == None)
    && (c.m.shut ==> c.task == Over)
    && (c.task == Unstarted || c.task == NeverRan ==> c.m.current == None && c.sends == {} && c.log == [])
  }

  /** Every reply follows the receipt of its request at once; the current slot is the last received. */
  ghost predicate LogInv(c: Client) {
    && (forall i :: 0 <= i < |c.log| && c.log[i].Sent? ==> i > 0 && c.log[i - 1] == Got(c.log[i].slot))
    && (c.m.current.Some? <==> c.log != [] && c.log[|c.log| - 1].Got?)
    && (c.m.current.Some? ==> c.log[|c.log| - 1].slot == c.m.current.value)
    && (forall i, j :: 0 <= i < j < |c.log| && c.log[i].Got? && c.log[j].Got? ==>
          c.log[i].slot.ev != c.log[j].slot.ev)
    && (HasMessage(c.m.inbox) ==>
          forall i :: 0 <= i < |c.log| && c.log[i].Got? ==> c.log[i].slot.ev != c.m.inbox[0].slot.ev)
  }

  predicate InInbox(c: Client, slot: Slot) {
    HasMessage(c.m.inbox) && c.m.inbox[0].slot == slot
  }

  predicate IsCurrent(c: Client, slot: Slot) {
    c.m.current == Some(slot)
  }

  predicate InFlight(c: Client, slot: Slot) {
    slot in c.sends
  }

  predicate Owns(c: Client, slot: Slot) {
    InInbox(c, slot) || IsCurrent(c, slot) || InFlight(c, slot)
  }

  ghost predicate FlightInv(c: Client) {
    forall slot :: slot in c.sends ==> !InInbox(c, slot) && !IsCurrent(c, slot)
  }

  ghost predicate ClientInv(c: Client) {
    PhaseInv(c) && LogInv(c) && FlightInv(c)
  }

  ghost predicate ClientsInv(clients: map<MgrId, Client>) {
    forall m :: m in clients ==> ClientInv(clients[m])
  }

  // ── Slots ──────────────────────────────────────────────────────────────

  type Handed = map<EventId, Handoff>

  predicate SlotOf(handed: Handed, m: MgrId, slot: Slot) {
    slot.ev in handed && handed[slot.ev].mgr == m && handed[slot.ev].slot == slot
  }

  /** What a client owns, or has ever received, was handed to it; what it owns is not released. */
  ghost predicate OwnInv(m: MgrId, c: Client, handed: Handed, isSet: set<EventId>) {
    && (forall slot :: Owns(c, slot) ==> SlotOf(handed, m, slot) && slot.ev !in isSet)
    && (forall i :: 0 <= i < |c.log| && c.log[i].Got? ==> SlotOf(handed, m, c.log[i].slot))
  }

  ghost predicate OwnersInv(s: State) {
    forall m :: m in s.clients ==> OwnInv(m, s.clients[m], s.handed, s.isSet)
  }

  /** A slot that is not released is owned by the manager it was handed to. */
  ghost predicate HandedInv(clients: map<MgrId, Client>, handed: Handed, isSet: set<EventId>) {
    && isSet <= handed.Keys
    && (forall ev :: ev in handed ==>
          var h := handed[ev];
          && h.slot.ev == ev && h.mgr in clients
          && h.slot.msg.pipe == Some(clients[h.mgr].m.pipe)
          && (ev !in isSet ==> Owns(clients[h.mgr], h.slot)))
  }

  /** While a slot is not released, its loop waits for exactly that event (or has ended), on that context. */
  ghost predicate LoopInv(loops: map<LoopId, Loop>, handed: Handed, isSet: set<EventId>) {
    && (forall ev :: ev in handed ==> handed[ev].loop in loops)
    && (forall ev :: ev in handed && ev !in isSet ==>
          var lp := loops[handed[ev].loop];
          lp.ctx == handed[ev].slot.ctx && (lp.pc == Waiting(ev) || lp.pc == Exited))
    && (forall l :: l in loops && loops[l].pc.Waiting? ==>
          loops[l].pc.ev in handed && handed[loops[l].pc.ev].loop == l)
  }

  ghost predicate CtxInv(loops: map<LoopId, Loop>, usedCtx: set<Ctx>) {
    && (forall l :: l in loops ==> loops[l].ctx in usedCtx)
    && (forall l1, l2 :: l1 in loops && l2 in loops && l1 != l2 ==> loops[l1].ctx != loops[l2].ctx)
  }

  ghost predicate TableInv(clients: map<MgrId, Client>, table: map<Pipe, MgrId>) {
    forall p :: p in table ==>
      table[p] in clients && clients[table[p]].m.pipe == p && !clients[table[p]].gone
  }

  ghost predicate Inv(s: State) {
    && ClientsInv(s.clients)
    && OwnersInv(s)
    && HandedInv(s.clients, s.handed, s.isSet)
    && LoopInv(s.loops, s.handed, s.isSet)
    && CtxInv(s.loops, s.usedCtx)
    && TableInv(s.clients, s.table)
  }

  lemma InitInv()
    ensures Inv(Init())
  {
  }
}
