/** What holds in every state of every run of the REP conversation server. */
module RepServerTheorems {
  import opened Options
  import opened ConversationManager
  import opened RepServer
  import opened RepServerInvariant
  import opened RepServerSteps

  ghost predicate Reachable(s: State) {
    exists trace :: Run(Init(), trace, s)
  }

  lemma ReachableInv(s: State)
    requires Reachable(s)
    ensures Inv(s)
  {
    var trace :| Run(Init(), trace, s);
    InitInv();
    RunKeepsInv(Init(), trace, s);
  }

  // ── Slot exclusivity ───────────────────────────────────────────────────

  /** In how many places of the client the slot is. */
  function Places(c: Client, slot: Slot): nat {
    (if InInbox(c, slot) then 1 else 0) + (if IsCurrent(c, slot) then 1 else 0) + (if InFlight(c, slot) then 1 else 0)
  }

  /** An unset reply event has exactly one owner, in exactly one place; a set one has none. */
  lemma SlotExclusivity(s: State, ev: EventId)
    requires Reachable(s) && ev in s.handed
    ensures s.handed[ev].mgr in s.clients
    ensures Places(s.clients[s.handed[ev].mgr], s.handed[ev].slot) == if ev in s.isSet then 0 else 1
    ensures forall m, slot :: m in s.clients && Owns(s.clients[m], slot) && slot.ev == ev ==>
      m == s.handed[ev].mgr && slot == s.handed[ev].slot && ev !in s.isSet
  {
    ReachableInv(s);
    var c := s.clients[s.handed[ev].mgr];
    assert OwnInv(s.handed[ev].mgr, c, s.handed, s.isSet);
    assert ClientInv(c);
  }

  /** A loop that is not waiting for an unset event is alone with its context. */
  lemma LoopAloneWithContext(s: State, l: LoopId)
    requires Reachable(s) && l in s.loops && s.loops[l].pc != Exited
    requires s.loops[l].pc.Waiting? ==> s.loops[l].pc.ev in s.isSet
    ensures forall m, slot :: m in s.clients && Owns(s.clients[m], slot) ==> slot.ctx != s.loops[l].ctx
    ensures forall k :: k in s.loops && k != l ==> s.loops[k].ctx != s.loops[l].ctx
  {
    ReachableInv(s);
    forall m, slot | m in s.clients && Owns(s.clients[m], slot) ensures slot.ctx != s.loops[l].ctx {
      assert OwnInv(m, s.clients[m], s.handed, s.isSet);
      assert s.handed[slot.ev].loop in s.loops;
    }
  }

  /** Conversely, who may send on a context holds the slot for which the loop of that context waits. */
  lemma OwnerHasTheLoopWaiting(s: State, m: MgrId, slot: Slot)
    requires Reachable(s) && m in s.clients && Owns(s.clients[m], slot)
    ensures slot.ev in s.handed && s.handed[slot.ev].loop in s.loops
    ensures var lp := s.loops[s.handed[slot.ev].loop];
      lp.ctx == slot.ctx && (lp.pc == Waiting(slot.ev) || lp.pc == Exited)
  {
    ReachableInv(s);
    assert OwnInv(m, s.clients[m], s.handed, s.isSet);
  }

  // ── No slot leak ───────────────────────────────────────────────────────

  /**
   Once the task of a manager is over, a slot ever handed to it is unreleased exactly while some
   asend started by the conversation is still in flight with it, or, when the task was cancelled
   before its first step, while it lies in the inbox that nobody empties.
   */
  lemma NoSlotLeak(s: State, m: MgrId, ev: EventId)
    requires Reachable(s) && m in s.clients && (s.clients[m].task == Over || s.clients[m].task == NeverRan)
    requires ev in s.handed && s.handed[ev].mgr == m
    ensures var (c, slot) := (s.clients[m], s.handed[ev].slot);
      ev !in s.isSet <==> slot in c.sends || (c.task == NeverRan && InInbox(c, slot))
  {
    ReachableInv(s);
    assert ClientInv(s.clients[m]);
    assert OwnInv(m, s.clients[m], s.handed, s.isSet);
  }

  /** A loop waiting on an ended manager without sends in flight can go on. */
  lemma NoLoopStuckOnEndedManager(s: State, l: LoopId)
    requires Reachable(s) && l in s.loops && s.loops[l].pc.Waiting?
    ensures s.loops[l].pc.ev in s.handed && s.handed[s.loops[l].pc.ev].mgr in s.clients
    ensures var c := s.clients[s.handed[s.loops[l].pc.ev].mgr];
      c.task == Over && c.sends == {} ==> Enabled(s, Wake(l))
  {
    ReachableInv(s);
    var ev := s.loops[l].pc.ev;
    var m := s.handed[ev].mgr;
    if s.clients[m].task == Over {
      NoSlotLeak(s, m, ev);
    }
  }

  /** A manager that is given a slot after its end releases it at once. */
  lemma LateDispatchIsReleased(s: State, l: LoopId, msg: Msg, ev: EventId, spare: MgrId)
    requires Reachable(s) && Enabled(s, Receive(l, msg, ev, spare))
    requires msg.pipe.Some? && msg.pipe.value in s.table
    requires s.clients[s.table[msg.pipe.value]].task == Over
    ensures ev in Next(s, Receive(l, msg, ev, spare)).isSet
  {
    ReachableInv(s);
    assert ClientInv(s.clients[s.table[msg.pipe.value]]);
  }

  // ── Inbox bound ────────────────────────────────────────────────────────

  lemma InboxBound(s: State, m: MgrId)
    requires Reachable(s) && m in s.clients
    ensures var inbox := s.clients[m].m.inbox;
      && |inbox| <= MAX_INBOX
      && (forall i, j :: 0 <= i < j < |inbox| ==> inbox[i].Message? && inbox[j].Sentinel?)
  {
    ReachableInv(s);
    assert ClientInv(s.clients[m]);
  }

  /** Both uses of put_nowait find room. */
  lemma PutNeverFindsFull(s: State, p: Pipe)
    requires Reachable(s) && p in s.table
    ensures s.table[p] in s.clients
    ensures var c := s.clients[s.table[p]];
      && (!c.m.shut ==> |c.m.inbox| < MAX_INBOX && |Disconnect(c.m).inbox| == |c.m.inbox| + 1)
      && (forall slot :: Dispatch(c.m, slot).1 == Queued ==> c.m.inbox == [] && !c.m.shut)
  {
    ReachableInv(s);
    assert ClientInv(s.clients[s.table[p]]);
  }

  /** arecv finds no live _current_ctx when it is about to store a new one. */
  lemma ArecvNeverOverwrites(s: State, m: MgrId)
    requires Reachable(s) && Enabled(s, RecvItem(m)) && s.clients[m].m.inbox[0].Message?
    ensures s.clients[m].m.current == None
    ensures Next(s, RecvItem(m)).clients[m].m.current == Some(s.clients[m].m.inbox[0].slot)
  {
    ReachableInv(s);
    assert ClientInv(s.clients[m]);
  }

  // ── Reply routing ──────────────────────────────────────────────────────

  /**
   The i-th action of a conversation is a reply: the action before it received that very
   request, the request came from the conversation's own pipe on the recorded context, and no
   other reply answers it.
   */
  lemma ReplyRouting(s: State, m: MgrId, i: nat)
    requires Reachable(s) && m in s.clients && i < |s.clients[m].log| && s.clients[m].log[i].Sent?
    ensures var c := s.clients[m]; var slot := c.log[i].slot;
      && i > 0 && c.log[i - 1] == Got(slot)
      && slot.msg.pipe == Some(c.m.pipe)
      && slot.ev in s.handed && s.handed[slot.ev].mgr == m && s.handed[slot.ev].slot == slot
      && (forall j :: 0 <= j < |c.log| && j != i && c.log[j].Sent? ==> c.log[j].slot.ev != slot.ev)
  {
    ReachableInv(s);
    var c := s.clients[m];
    assert ClientInv(c);
    assert OwnInv(m, c, s.handed, s.isSet);
    forall j | 0 <= j < |c.log| && j != i && c.log[j].Sent? ensures c.log[j].slot.ev != c.log[i].slot.ev {
      assert c.log[j - 1].Got? && c.log[i - 1].Got?;
    }
  }

  /** Somewhere in the run the loop of `h` receives its message on its context and makes its event. */
  ghost predicate ReceivedAs(s: State, trace: seq<Step>, h: Handoff)
    decreases trace
  {
    && trace != [] && Enabled(s, trace[0])
    && (ReceivedBy(s, trace[0], h) || ReceivedAs(Next(s, trace[0]), trace[1..], h))
  }

  predicate ReceivedBy(s: State, t: Step, h: Handoff) {
    && t.Receive? && t.l == h.loop && t.msg == h.slot.msg && t.ev == h.slot.ev
    && h.loop in s.loops && s.loops[h.loop] == Loop(h.slot.ctx, Receiving)
  }

  lemma HandedOnce(s: State, t: Step, ev: EventId)
    requires Enabled(s, t)
    ensures ev in s.handed ==> ev in Next(s, t).handed && Next(s, t).handed[ev] == s.handed[ev]
    ensures ev in Next(s, t).handed && ev !in s.handed ==> ReceivedBy(s, t, Next(s, t).handed[ev])
  {
  }

  lemma {:induction false} HandedStays(s0: State, trace: seq<Step>, s1: State, ev: EventId)
    requires Run(s0, trace, s1) && ev in s0.handed
    ensures ev in s1.handed && s1.handed[ev] == s0.handed[ev]
    decreases trace
  {
    if trace != [] {
      HandedOnce(s0, trace[0], ev);
      HandedStays(Next(s0, trace[0]), trace[1..], s1, ev);
    }
  }

  /** Every slot stands for a message that its loop received on that very context. */
  lemma {:induction false} SlotsAreReceived(s0: State, trace: seq<Step>, s1: State, ev: EventId)
    requires Run(s0, trace, s1) && ev in s1.handed && ev !in s0.handed
    ensures ReceivedAs(s0, trace, s1.handed[ev])
    decreases trace
  {
    var s := Next(s0, trace[0]);
    HandedOnce(s0, trace[0], ev);
    if ev in s.handed {
      HandedStays(s, trace[1..], s1, ev);
    } else {
      SlotsAreReceived(s, trace[1..], s1, ev);
    }
  }

  // ── One live manager per pipe ──────────────────────────────────────────

  /** The environment assumption: no message of a pipe is dispatched after its removal was handled. */
  predicate Orderly(s: State, t: Step) {
    t.Receive? && t.msg.pipe.Some? ==> t.msg.pipe.value !in s.removed
  }

  ghost predicate OrderlyRun(s0: State, trace: seq<Step>, s1: State)
    decreases trace
  {
    if trace == [] then s0 == s1
    else Enabled(s0, trace[0]) && Orderly(s0, trace[0]) && OrderlyRun(Next(s0, trace[0]), trace[1..], s1)
  }

  predicate Live(c: Client) {
    c.task == Unstarted || c.task == Active
  }

  ghost predicate MapInv(s: State) {
    && (forall p :: p in s.removed ==> p !in s.table)
    && (forall m :: m in s.clients && Live(s.clients[m]) ==> !s.clients[m].callbackDone)
    && (forall m :: m in s.clients && !s.clients[m].callbackDone && s.clients[m].m.pipe !in s.removed ==>
          s.clients[m].m.pipe in s.table && s.table[s.clients[m].m.pipe] == m)
    && OneLive(s.clients)
    && (forall p :: p in s.table ==> s.table[p] in s.clients && s.clients[s.table[p]].m.pipe == p)
  }

  ghost predicate OneLive(clients: map<MgrId, Client>) {
    forall m1, m2 ::
      (m1 in clients && m2 in clients && Live(clients[m1]) && Live(clients[m2])
       && clients[m1].m.pipe == clients[m2].m.pipe) ==> m1 == m2
  }

  /** One client changes, without coming back to life. */
  lemma ClientKeepsMap(s: State, m: MgrId, c: Client)
    requires MapInv(s) && m in s.clients && c.m.pipe == s.clients[m].m.pipe
    requires c.callbackDone == s.clients[m].callbackDone && (Live(c) ==> Live(s.clients[m]))
    ensures MapInv(SetClient(s, m, c))
  {
  }

  lemma SameMap(s: State, s1: State)
    requires MapInv(s) && s1.clients == s.clients && s1.table == s.table && s1.removed == s.removed
    ensures MapInv(s1)
  {
  }

  lemma LoopKeepsMap(s: State, t: Step)
    requires MapInv(s) && Enabled(s, t) && Orderly(s, t) && ByLoop(t)
    ensures MapInv(Next(s, t))
  {
    if t.Receive? && t.msg.pipe.Some? {
      ReceiveKeepsMap(s, t);
    } else {
      SameMap(s, Next(s, t));
    }
  }

  lemma ReceiveKeepsMap(s: State, t: Step)
    requires MapInv(s) && Enabled(s, t) && Orderly(s, t) && t.Receive? && t.msg.pipe.Some?
    ensures MapInv(Next(s, t))
  {
    var p := t.msg.pipe.value;
    var (m, c) := Route(s, p, t.spare);
    var c1 := c.(m := Dispatch(c.m, Slot(t.msg, s.loops[t.l].ctx, t.ev)).0);
    if p in s.table {
      ClientKeepsMap(s, m, c1);
      assert s.table[p := m] == s.table;
      SameMap(SetClient(s, m, c1), Next(s, t));
    } else {
      NewClientKeepsMap(s, p, m, c1);
      SameMap(SetClient(s, m, c1).(table := s.table[p := m]), Next(s, t));
    }
  }

  lemma NewClientKeepsMap(s: State, p: Pipe, m: MgrId, c: Client)
    requires MapInv(s) && m !in s.clients && p !in s.table && p !in s.removed && c.m.pipe == p && !c.callbackDone
    ensures MapInv(SetClient(s, m, c).(table := s.table[p := m]))
  {
  }

  lemma ConversationKeepsMap(s: State, t: Step)
    requires MapInv(s) && Enabled(s, t) && ByConversation(t)
    ensures MapInv(Next(s, t))
  {
    match t
    case RecvItem(m) => ClientKeepsMap(s, m, AfterRecv(s.clients[m]));
    case SendStart(m, reply) => ClientKeepsMap(s, m, AfterSendStart(s.clients[m], reply));
    case SendEnd(m, slot, ok) =>
      ClientKeepsMap(s, m, SendEnded(s.clients[m], slot, ok));
      SameMap(SetClient(s, m, SendEnded(s.clients[m], slot, ok)), Next(s, t));
    case Finish(m) =>
      ClientKeepsMap(s, m, Finished(s.clients[m]));
      SameMap(SetClient(s, m, Finished(s.clients[m])), Next(s, t));
  }

  lemma TaskKeepsMap(s: State, t: Step)
    requires MapInv(s) && Enabled(s, t) && !ByLoop(t) && !ByConversation(t)
    ensures MapInv(Next(s, t))
  {
    if t.PipeRemoved? {
      RemovalKeepsMap(s, t.p);
    }
  }

  lemma RemovalKeepsMap(s: State, p: Pipe)
    requires MapInv(s)
    ensures MapInv(DoPipeRemoved(s, p))
  {
  }

  lemma {:induction false} OrderlyKeepsMap(s0: State, trace: seq<Step>, s1: State)
    requires MapInv(s0) && OrderlyRun(s0, trace, s1)
    ensures MapInv(s1)
    decreases trace
  {
    if trace != [] {
      var t := trace[0];
      if ByLoop(t) {
        LoopKeepsMap(s0, t);
      } else if ByConversation(t) {
        ConversationKeepsMap(s0, t);
      } else {
        TaskKeepsMap(s0, t);
      }
      OrderlyKeepsMap(Next(s0, t), trace[1..], s1);
    }
  }

  /** Two managers of one pipe are never both alive, and a live one is found under its pipe until removal. */
  lemma OneLiveManagerPerPipe(trace: seq<Step>, s: State, m1: MgrId, m2: MgrId)
    requires OrderlyRun(Init(), trace, s)
    requires m1 in s.clients && Live(s.clients[m1])
    ensures m2 in s.clients && Live(s.clients[m2]) && s.clients[m2].m.pipe == s.clients[m1].m.pipe ==> m1 == m2
    ensures s.clients[m1].m.pipe !in s.removed ==>
      s.clients[m1].m.pipe in s.table && s.table[s.clients[m1].m.pipe] == m1
  {
    OrderlyKeepsMap(Init(), trace, s);
  }

  lemma {:induction false} ExtendRun(s0: State, trace: seq<Step>, s: State, t: Step)
    requires Run(s0, trace, s) && Enabled(s, t)
    ensures Run(s0, trace + [t], Next(s, t))
    decreases trace
  {
    if trace == [] {
      assert [t][1..] == [];
    } else {
      ExtendRun(Next(s0, trace[0]), trace[1..], s, t);
      assert (trace + [t])[1..] == trace[1..] + [t];
    }
  }

  lemma ReachableStep(s: State, t: Step)
    requires Reachable(s) && Enabled(s, t)
    ensures Reachable(Next(s, t))
  {
    var trace :| Run(Init(), trace, s);
    ExtendRun(Init(), trace, s, t);
  }

  lemma TwoLoops() returns (s: State)
    ensures Reachable(s)
    ensures s == Init().(loops := map[0 := Loop(0, Receiving), 1 := Loop(1, Receiving)], usedCtx := {0, 1})
  {
    s := Init();
    assert Run(s, [], s);
    ReachableStep(s, OpenLoop(0, 0));
    s := Next(s, OpenLoop(0, 0));
    ReachableStep(s, OpenLoop(1, 1));
    s := Next(s, OpenLoop(1, 1));
  }

  // ── The dispatch loops ─────────────────────────────────────────────────

  /** The manager listed under the pipe is running and has a request that it has not begun to answer. */
  predicate Overrun(s: State, p: Pipe) {
    && p in s.table && s.table[p] in s.clients
    && var m := s.clients[s.table[p]].m; m.running && (m.inbox != [] || m.current.Some?)
  }

  /**
   After a receive the loop replies itself exactly if the message has no pipe or comes too early;
   otherwise it waits for the event of its slot.
   */
  lemma ReceiveRoutes(s: State, l: LoopId, msg: Msg, ev: EventId, spare: MgrId)
    requires Reachable(s) && Enabled(s, Receive(l, msg, ev, spare))
    ensures var s1 := Next(s, Receive(l, msg, ev, spare));
      && l in s1.loops && s1.loops[l].ctx == s.loops[l].ctx
      && (s1.loops[l].pc == Replying <==> msg.pipe == None || Overrun(s, msg.pipe.value))
      && (s1.loops[l].pc != Replying ==> s1.loops[l].pc == Waiting(ev))
  {
  }

  /** That event is set at once exactly if the message comes too early or its manager has stopped. */
  lemma ReceiveHands(s: State, l: LoopId, msg: Msg, ev: EventId, spare: MgrId, p: Pipe)
    requires Reachable(s) && Enabled(s, Receive(l, msg, ev, spare)) && msg.pipe == Some(p)
    ensures var s1 := Next(s, Receive(l, msg, ev, spare));
      && p in s1.table && s1.table[p] == (if p in s.table then s.table[p] else spare)
      && (ev in s1.isSet <==> Overrun(s, p) || (p in s.table && !s.clients[s.table[p]].m.running))
      && (ev !in s1.isSet ==> InInbox(s1.clients[s1.table[p]], Slot(msg, s.loops[l].ctx, ev)))
  {
    ReachableInv(s);
    assert ev !in s.isSet;
  }

  /** Running, with a message in the inbox or a current slot, is owning an unset slot that is not in flight. */
  lemma OverrunOwns(s: State, p: Pipe)
    requires Reachable(s) && p in s.table && s.table[p] in s.clients && s.clients[s.table[p]].m.running
    ensures var c := s.clients[s.table[p]];
      Overrun(s, p) <==> exists slot :: (InInbox(c, slot) || IsCurrent(c, slot)) && slot.ev !in s.isSet
  {
    ReachableInv(s);
    var c := s.clients[s.table[p]];
    assert ClientInv(c);
    assert OwnInv(s.table[p], c, s.handed, s.isSet);
    if c.m.inbox != [] {
      assert HasMessage(c.m.inbox);
      assert InInbox(c, c.m.inbox[0].slot);
    } else if c.m.current.Some? {
      assert IsCurrent(c, c.m.current.value);
    }
  }

  /** A loop goes back to receiving after its own reply, and once its event is set. */
  lemma LoopCanGoOn(s: State, l: LoopId)
    requires l in s.loops
    ensures s.loops[l].pc == Replying ==>
      Enabled(s, Replied(l)) && Next(s, Replied(l)).loops[l] == Loop(s.loops[l].ctx, Receiving)
    ensures s.loops[l].pc.Waiting? && s.loops[l].pc.ev in s.isSet ==>
      Enabled(s, Wake(l)) && Next(s, Wake(l)).loops[l] == Loop(s.loops[l].ctx, Receiving)
    ensures s.loops[l].pc == Receiving ==> forall c :: c !in s.usedCtx ==>
      Enabled(s, StateError(l, c)) && Next(s, StateError(l, c)).loops[l] == Loop(c, Receiving)
  {
  }

  /** No step but its own exit ends a loop. */
  lemma LoopStays(s: State, t: Step, l: LoopId)
    requires Enabled(s, t) && l in s.loops && s.loops[l].pc != Exited && t != Exit(l)
    ensures l in Next(s, t).loops && Next(s, t).loops[l].pc != Exited
  {
  }

  lemma {:induction false} LoopServesOn(s0: State, trace: seq<Step>, s1: State, l: LoopId)
    requires Run(s0, trace, s1) && l in s0.loops && s0.loops[l].pc != Exited && Exit(l) !in trace
    ensures l in s1.loops && s1.loops[l].pc != Exited
    decreases trace
  {
    if trace != [] {
      LoopStays(s0, trace[0], l);
      LoopServesOn(Next(s0, trace[0]), trace[1..], s1, l);
    }
  }

  // ── Disconnects and ended tasks ────────────────────────────────────────

  /** A removed pipe is unlisted, its manager stops, and its next empty arecv finds the sentinel. */
  lemma RemovalIsSignalled(s: State, p: Pipe)
    requires Reachable(s) && p in s.table
    ensures s.table[p] in s.clients && Enabled(s, PipeRemoved(p))
    ensures var (s1, m) := (Next(s, PipeRemoved(p)), s.table[p]);
      && p !in s1.table && m in s1.clients && !s1.clients[m].m.running
      && (!s1.clients[m].m.shut ==> HasSentinel(s1.clients[m].m.inbox))
  {
    ReachableInv(s);
    assert ClientInv(s.clients[s.table[p]]);
  }

  /** After the done callback the pipe is unlisted, whoever was listed, and its next message starts a new manager. */
  lemma DoneUnlists(s: State, m: MgrId, l: LoopId, msg: Msg, ev: EventId, spare: MgrId)
    requires Reachable(s) && Enabled(s, DoneCallback(m)) && msg.pipe == Some(s.clients[m].m.pipe)
    requires Enabled(Next(s, DoneCallback(m)), Receive(l, msg, ev, spare))
    ensures var s1 := Next(s, DoneCallback(m)); var s2 := Next(s1, Receive(l, msg, ev, spare));
      && s.clients[m].m.pipe !in s1.table
      && spare in s2.clients && s2.table[s.clients[m].m.pipe] == spare && s2.clients[spare].task == Unstarted
      && InInbox(s2.clients[spare], Slot(msg, s.loops[l].ctx, ev)) && ev !in s2.isSet
  {
    ReachableInv(s);
    assert ev !in s.isSet;
  }

  // ── Slots that stay unreleased ─────────────────────────────────────────

  /** One loop whose message waits in the inbox of a manager that has not begun. */
  lemma OneMessageQueued(msg: Msg, p: Pipe) returns (s: State)
    requires msg.pipe == Some(p)
    ensures Reachable(s) && s.loops == map[0 := Loop(0, Waiting(0))] && s.isSet == {}
    ensures s.handed == map[0 := Handoff(0, Slot(msg, 0, 0), 0)] && s.table == map[p := 0]
    ensures s.clients == map[0 := NewClient(p).(m := NewMgr(p).(inbox := [Message(Slot(msg, 0, 0))]))]
  {
    s := Init();
    assert Run(s, [], s);
    ReachableStep(s, OpenLoop(0, 0));
    s := Next(s, OpenLoop(0, 0));
    ReachableStep(s, Receive(0, msg, 0, 0));
    s := Next(s, Receive(0, msg, 0, 0));
  }

  /** A manager can end while a send of its conversation is in flight: the event is not set yet. */
  lemma EndedWithSendInFlight() returns (s: State)
    ensures Reachable(s) && 0 in s.clients && s.clients[0].task == Over && 0 in s.handed && s.handed[0].mgr == 0
    ensures 0 !in s.isSet && 0 in s.loops && s.loops[0].pc == Waiting(0)
  {
    s := OneMessageQueued(Msg(Some(7), ""), 7);
    ReachableStep(s, Begin(0));
    s := Next(s, Begin(0));
    ReachableStep(s, RecvItem(0));
    s := Next(s, RecvItem(0));
    ReachableStep(s, SendStart(0, ""));
    s := Next(s, SendStart(0, ""));
    ReachableStep(s, Finish(0));
    s := Next(s, Finish(0));
  }

  /** A task cancelled before its first step: its done callback has run, its loop waits. */
  ghost predicate Abandoned(s: State, m: MgrId, ev: EventId) {
    && Inv(s) && m in s.clients && s.clients[m].task == NeverRan
    && ev in s.handed && s.handed[ev].mgr == m && InInbox(s.clients[m], s.handed[ev].slot)
  }

  lemma AbandonedSlotExists() returns (s: State)
    ensures Reachable(s) && Abandoned(s, 0, 0) && s.clients[0].callbackDone
    ensures 0 in s.loops && s.loops[0].pc == Waiting(0)
  {
    s := OneMessageQueued(Msg(Some(7), ""), 7);
    ReachableStep(s, CancelUnstarted(0));
    s := Next(s, CancelUnstarted(0));
    ReachableStep(s, DoneCallback(0));
    s := Next(s, DoneCallback(0));
    ReachableInv(s);
  }

  /** A client whose task never ran keeps its inbox; at most a sentinel joins it. */
  lemma InboxStays(s: State, t: Step, m: MgrId)
    requires Enabled(s, t) && m in s.clients && s.clients[m].task == NeverRan && HasMessage(s.clients[m].m.inbox)
    requires s.clients[m].m.current == None
    ensures var s1 := Next(s, t);
      && m in s1.clients && s1.clients[m].task == NeverRan && HasMessage(s1.clients[m].m.inbox)
      && s1.clients[m].m.inbox[0] == s.clients[m].m.inbox[0]
  {
  }

  lemma StaysAbandoned(s: State, t: Step, m: MgrId, ev: EventId)
    requires Abandoned(s, m, ev) && Enabled(s, t)
    ensures Abandoned(Next(s, t), m, ev)
  {
    assert ClientInv(s.clients[m]);
    StepKeepsInv(s, t);
    InboxStays(s, t, m);
    HandedOnce(s, t, ev);
  }

  /** Whatever happens afterwards, the event is never set: neither the task nor its done callback releases it. */
  lemma {:induction false} AbandonedForGood(s0: State, trace: seq<Step>, s1: State, m: MgrId, ev: EventId)
    requires Abandoned(s0, m, ev) && Run(s0, trace, s1)
    ensures Abandoned(s1, m, ev) && ev !in s1.isSet
    decreases trace
  {
    if trace == [] {
      assert OwnInv(m, s0.clients[m], s0.handed, s0.isSet);
    } else {
      StaysAbandoned(s0, trace[0], m, ev);
      AbandonedForGood(Next(s0, trace[0]), trace[1..], s1, m, ev);
    }
  }

  /** The assumption is needed: a message dispatched after the removal starts a second live manager. */
  lemma TwoLiveManagersWithoutIt() returns (s: State)
    ensures Reachable(s) && 0 in s.clients && 1 in s.clients
    ensures Live(s.clients[0]) && Live(s.clients[1]) && s.clients[0].m.pipe == s.clients[1].m.pipe
  {
    s := TwoLoops();
    var msg := Msg(Some(7), "");
    ReachableStep(s, Receive(0, msg, 0, 0));
    s := Next(s, Receive(0, msg, 0, 0));
    ReachableStep(s, PipeRemoved(7));
    s := Next(s, PipeRemoved(7));
    ReachableStep(s, Receive(1, msg, 1, 1));
    s := Next(s, Receive(1, msg, 1, 1));
  }
}
