/** The secure server refines the plain slot machine, and orders its handshake. */
module SecureTheorems {
  import opened Options
  import opened ConversationManager
  import opened RepServer
  import opened RepServerSteps
  import opened SecureServer
  import T = RepServerTheorems

  // ── What a manager's actions look like ─────────────────────────────────

  /** hello received; auth sent, or the hello given up. */
  predicate HelloShape(cfg: Config, log: seq<Act>, n: Nonce) {
    && (|log| >= 1 ==> log[0].Got?)
    && (|log| >= 2 ==>
          || (|log| == 2 && log[1] == Dropped(log[0].slot))
          || (log[1] == Sent(log[0].slot, cfg.serverAuth(log[0].slot.msg, n)) && cfg.parsesHello(log[0].slot.msg)))
  }

  /** confirm received; "ok" sent to a verified client, the refusal to another, or the confirm given up. */
  ghost predicate ConfirmShape(cfg: Config, log: seq<Act>, n: Nonce) {
    && (|log| >= 3 ==> log[0].Got? && log[1].Sent? && log[2].Got?)
    && (|log| >= 4 ==> AnswerShape(cfg, log[0].slot.msg, n, log[2].slot, log[3], |log| == 4))
  }

  ghost predicate AnswerShape(cfg: Config, hello: Msg, n: Nonce, confirm: Slot, a: Act, last: bool) {
    || (a == Dropped(confirm) && last)
    || (a == Sent(confirm, OK) && cfg.opensConfirm(hello, n, confirm.msg) && Accepts(cfg, hello, n, confirm.msg))
    || (a == Sent(confirm, REFUSAL) && !Accepts(cfg, hello, n, confirm.msg) && last)
  }

  ghost predicate Shaped(cfg: Config, log: seq<Act>, n: Nonce) {
    HelloShape(cfg, log, n) && ConfirmShape(cfg, log, n)
  }

  /** Hello received, auth delivered, confirm verified, "ok" delivered: the first four actions. */
  ghost predicate Authenticated(cfg: Config, c: Client, n: Nonce) {
    && Shaped(cfg, c.log, n) && |c.log| >= 4
    && c.log[0].slot.ev in c.delivered
    && c.log[3] == Sent(c.log[2].slot, OK) && c.log[2].slot.ev in c.delivered
  }

  /** Between two sends of the handshake. */
  predicate Idle(c: Client, n: nat) {
    c.task == Active && |c.log| == n && c.sends == {} && c.m.current == None
  }

  predicate Holding(c: Client, n: nat, msg: Msg) {
    && c.task == Active && |c.log| == n + 1 && c.sends == {}
    && c.log[n].Got? && c.log[n].slot.msg == msg && c.m.current == Some(c.log[n].slot)
  }

  predicate Flying(c: Client, n: nat, slot: Slot) {
    && c.task == Active && |c.log| == n + 1 && c.sends == {slot} && c.m.current == None
    && c.log[n].Sent? && c.log[n].slot == slot
  }

  predicate HelloKnown(c: Client, hello: Msg) {
    |c.log| >= 2 && c.log[0].Got? && c.log[0].slot.msg == hello && c.log[1].Sent?
  }

  /** Without a conversation nothing is in flight, and what is held was received last. */
  predicate Quiet(c: Client) {
    && |c.log| <= 4 && c.sends == {}
    && (c.m.current.Some? ==> (|c.log| == 1 || |c.log| == 3) && c.log[|c.log| - 1] == Got(c.m.current.value))
  }

  ghost predicate Rest(cfg: Config, c: Client, n: Nonce, talked: bool) {
    Shaped(cfg, c.log, n) && if talked then Authenticated(cfg, c, n) else Quiet(c)
  }

  ghost predicate PhaseInv(cfg: Config, c: Client, ph: Phase) {
    match ph
    case NotEntered =>
      (c.task == Unstarted || c.task == NeverRan) && c.log == [] && c.sends == {} && c.m.current == None
    case AwaitHello => Idle(c, 0)
    case GotHello(h) => Holding(c, 0, h)
    case AuthInFlight(h, n, slot) => Flying(c, 1, slot) && Shaped(cfg, c.log, n) && HelloKnown(c, h)
    case AwaitConfirm(h, n) =>
      Idle(c, 2) && Shaped(cfg, c.log, n) && HelloKnown(c, h) && c.log[0].slot.ev in c.delivered
    case GotConfirm(h, n, k) =>
      Holding(c, 2, k) && Shaped(cfg, c.log, n) && HelloKnown(c, h) && c.log[0].slot.ev in c.delivered
    case RefusalInFlight(n, slot) => Flying(c, 3, slot) && Shaped(cfg, c.log, n)
    case OkInFlight(n, slot) =>
      && Flying(c, 3, slot) && Shaped(cfg, c.log, n) && c.log[0].slot.ev in c.delivered
      && c.log[3] == Sent(c.log[2].slot, OK)
    case Talking(n) => c.task == Active && Authenticated(cfg, c, n)
    case Faulted => false
    case Unwinding(n, talked) => c.task == Active && Rest(cfg, c, n, talked)
    case Ended(n, talked) => c.task == Over && Rest(cfg, c, n, talked) && c.m.current == None
  }

  ghost predicate HandshakeInv(cfg: Config, s: Server) {
    && (forall m :: m in s.base.clients ==> PhaseInv(cfg, s.base.clients[m], PhaseOf(s, m)))
    && (forall m :: m in s.phases ==> m in s.base.clients)
  }

  // ── Refinement of the slot machine ─────────────────────────────────────

  /** The step of the plain server that a move amounts to, if any. */
  ghost function PlainStep(cfg: Config, m: MgrId, c: Client, ph: Phase, move: Move): Option<RepServer.Step>
    requires Guard(cfg, c, ph, move)
  {
    match move
    case Enter => Some(Begin(m))
    case TakeItem => Some(RecvItem(m))
    case Raise => None
    case SendAuth(n) => Some(SendStart(m, cfg.serverAuth(ph.hello, n)))
    case Judge => Some(SendStart(m, if Accepts(cfg, ph.hello, ph.nonce, ph.confirm) then OK else REFUSAL))
    case SendDone(ok) => Some(SendEnd(m, ph.slot, ok))
    case UserRecv => Some(RecvItem(m))
    case UserSend(data) => if c.m.current.Some? then Some(SendStart(m, data)) else None
    case UserSendDone(slot, ok) => Some(SendEnd(m, slot, ok))
    case CallbackEnds => None
    case Finally => Some(Finish(m))
  }

  lemma ArecvAgrees(m: Mgr)
    requires m.inbox != []
    ensures ArecvRaw(m).0 == Arecv(m)
    ensures ArecvRaw(m).1 == if m.inbox[0].Message? then Item(m.inbox[0].slot) else Reset
  {
  }

  lemma FinallyAgrees(m: Mgr)
    ensures FinallyBlock(m) == (Cleanup(m), HeldEvents(m))
  {
    assert FinallyBlock(m).1 == HeldEvents(m);
  }

  predicate ByHandshakeSend(move: Move) {
    move.SendAuth? || move.Judge? || move.UserSend?
  }

  /** A move agrees with the plain step it amounts to: enabled, with the same effect. */
  ghost predicate Agrees(cfg: Config, b: RepServer.State, m: MgrId, ph: Phase, move: Move)
    requires m in b.clients && Guard(cfg, b.clients[m], ph, move)
  {
    var e := Perform(cfg, b.clients[m], ph, move);
    var t := PlainStep(cfg, m, b.clients[m], ph, move);
    var b1 := b.(clients := b.clients[m := e.client], isSet := b.isSet + e.sets);
    if t.Some? then RepServer.Enabled(b, t.value) && b1 == RepServer.Next(b, t.value) else b1 == b
  }

  lemma SendIsPlain(cfg: Config, b: RepServer.State, m: MgrId, ph: Phase, move: Move)
    requires m in b.clients && PhaseInv(cfg, b.clients[m], ph) && Guard(cfg, b.clients[m], ph, move)
    requires ByHandshakeSend(move)
    ensures Agrees(cfg, b, m, ph, move)
  {
    if b.clients[m].m.current == None {
      assert b.clients[m := b.clients[m]] == b.clients;
    }
  }

  lemma ReceiveIsPlain(cfg: Config, b: RepServer.State, m: MgrId, ph: Phase, move: Move)
    requires m in b.clients && PhaseInv(cfg, b.clients[m], ph) && Guard(cfg, b.clients[m], ph, move)
    requires move == TakeItem || move == UserRecv
    ensures Agrees(cfg, b, m, ph, move)
  {
    ArecvAgrees(b.clients[m].m);
  }

  /** What a move does to the client and the events is what the plain step does. */
  lemma MoveIsPlain(cfg: Config, b: RepServer.State, m: MgrId, ph: Phase, move: Move)
    requires m in b.clients && PhaseInv(cfg, b.clients[m], ph) && Guard(cfg, b.clients[m], ph, move)
    ensures Agrees(cfg, b, m, ph, move)
  {
    if ByHandshakeSend(move) {
      SendIsPlain(cfg, b, m, ph, move);
    } else if move == TakeItem || move == UserRecv {
      ReceiveIsPlain(cfg, b, m, ph, move);
    } else if move.SendDone? || move.UserSendDone? {
      SendEndIsPlain(cfg, b, m, ph, move);
    } else {
      FinallyAgrees(b.clients[m].m);
    }
  }

  lemma SendEndIsPlain(cfg: Config, b: RepServer.State, m: MgrId, ph: Phase, move: Move)
    requires m in b.clients && PhaseInv(cfg, b.clients[m], ph) && Guard(cfg, b.clients[m], ph, move)
    requires move.SendDone? || move.UserSendDone?
    ensures Agrees(cfg, b, m, ph, move)
  {
  }

  // ── Every move keeps the order of the handshake ────────────────────────

  lemma TookKeepsPhase(cfg: Config, c: Client, ph: Phase, move: Move)
    requires PhaseInv(cfg, c, ph) && Guard(cfg, c, ph, move) && (move == TakeItem || move == UserRecv)
    ensures PhaseInv(cfg, Perform(cfg, c, ph, move).client, Perform(cfg, c, ph, move).phase)
  {
  }

  lemma SentKeepsPhase(cfg: Config, c: Client, ph: Phase, move: Move)
    requires PhaseInv(cfg, c, ph) && Guard(cfg, c, ph, move) && ByHandshakeSend(move)
    ensures PhaseInv(cfg, Perform(cfg, c, ph, move).client, Perform(cfg, c, ph, move).phase)
  {
  }

  lemma MoveKeepsPhase(cfg: Config, c: Client, ph: Phase, move: Move)
    requires PhaseInv(cfg, c, ph) && Guard(cfg, c, ph, move)
    ensures PhaseInv(cfg, Perform(cfg, c, ph, move).client, Perform(cfg, c, ph, move).phase)
  {
    if ByHandshakeSend(move) {
      SentKeepsPhase(cfg, c, ph, move);
    } else if move == TakeItem || move == UserRecv {
      TookKeepsPhase(cfg, c, ph, move);
    }
  }

  /** What loops, pipe callbacks and done callbacks leave alone in a client. */
  predicate SameTask(c: Client, d: Client) {
    && d.log == c.log && d.delivered == c.delivered && d.sends == c.sends && d.m.current == c.m.current
    && (d.task == c.task || (c.task == Unstarted && d.task == NeverRan))
  }

  lemma OtherKeepsTasks(b: RepServer.State, t: RepServer.Step, m: MgrId)
    requires RepServer.Enabled(b, t) && !ByConversation(t) && !t.Begin? && m in RepServer.Next(b, t).clients
    ensures SameTask(if m in b.clients then b.clients[m] else NewClient(0), RepServer.Next(b, t).clients[m])
  {
  }

  lemma OtherKeepsHandshake(cfg: Config, s: Server, t: RepServer.Step)
    requires HandshakeInv(cfg, s) && CanStep(cfg, s, Other(t))
    ensures HandshakeInv(cfg, Stepped(cfg, s, Other(t)))
  {
    var s1 := Stepped(cfg, s, Other(t));
    forall m | m in s1.base.clients ensures PhaseInv(cfg, s1.base.clients[m], PhaseOf(s1, m)) {
      OtherKeepsTasks(s.base, t, m);
      assert m in s.base.clients ==> PhaseInv(cfg, s.base.clients[m], PhaseOf(s, m));
    }
    forall m | m in s1.phases ensures m in s1.base.clients {
      OtherKeepsClients(s.base, t, m);
    }
  }

  lemma StepKeepsHandshake(cfg: Config, s: Server, x: SecureStep)
    requires HandshakeInv(cfg, s) && CanStep(cfg, s, x)
    ensures HandshakeInv(cfg, Stepped(cfg, s, x))
  {
    match x
    case Other(t) => OtherKeepsHandshake(cfg, s, t);
    case Exec(m, move) => MoveKeepsPhase(cfg, s.base.clients[m], PhaseOf(s, m), move);
  }

  lemma OtherKeepsClients(b: RepServer.State, t: RepServer.Step, m: MgrId)
    requires RepServer.Enabled(b, t) && m in b.clients
    ensures m in RepServer.Next(b, t).clients
  {
  }

  lemma {:induction false} RunKeepsHandshake(cfg: Config, s0: Server, trace: seq<SecureStep>, s1: Server)
    requires HandshakeInv(cfg, s0) && SecureRun(cfg, s0, trace, s1)
    ensures HandshakeInv(cfg, s1)
    decreases trace
  {
    if trace != [] {
      StepKeepsHandshake(cfg, s0, trace[0]);
      RunKeepsHandshake(cfg, Stepped(cfg, s0, trace[0]), trace[1..], s1);
    }
  }

  /** The plain steps of a secure run: loops and callbacks as they are, moves as PlainStep says. */
  ghost function PlainTrace(cfg: Config, s: Server, trace: seq<SecureStep>): seq<RepServer.Step>
    decreases trace
  {
    if trace == [] || !CanStep(cfg, s, trace[0]) then []
    else
      var rest := PlainTrace(cfg, Stepped(cfg, s, trace[0]), trace[1..]);
      match trace[0]
      case Other(t) => [t] + rest
      case Exec(m, move) =>
        match PlainStep(cfg, m, s.base.clients[m], PhaseOf(s, m), move)
        case None => rest
        case Some(t) => [t] + rest
  }

  /** Forgetting the handshake turns a secure run, step by step, into a run of the plain server. */
  lemma {:induction false} SecureRefinesPlain(cfg: Config, s0: Server, trace: seq<SecureStep>, s1: Server)
    requires HandshakeInv(cfg, s0) && SecureRun(cfg, s0, trace, s1)
    ensures RepServer.Run(s0.base, PlainTrace(cfg, s0, trace), s1.base)
    decreases trace
  {
    if trace != [] {
      var s := Stepped(cfg, s0, trace[0]);
      StepKeepsHandshake(cfg, s0, trace[0]);
      SecureRefinesPlain(cfg, s, trace[1..], s1);
      var rest := PlainTrace(cfg, s, trace[1..]);
      match trace[0]
      case Other(t) => assert ([t] + rest)[1..] == rest;
      case Exec(m, move) =>
        MoveIsPlain(cfg, s0.base, m, PhaseOf(s0, m), move);
        var t := PlainStep(cfg, m, s0.base.clients[m], PhaseOf(s0, m), move);
        assert t.Some? ==> ([t.value] + rest)[1..] == rest;
    }
  }

  ghost predicate Reachable(cfg: Config, s: Server) {
    exists trace :: SecureRun(cfg, Start(), trace, s)
  }

  lemma ReachableHandshake(cfg: Config, s: Server)
    requires Reachable(cfg, s)
    ensures HandshakeInv(cfg, s)
  {
    var trace :| SecureRun(cfg, Start(), trace, s);
    RunKeepsHandshake(cfg, Start(), trace, s);
  }

  /** So every theorem about reachable states of the plain server holds of the secure one. */
  lemma SecureStatesArePlainStates(cfg: Config, s: Server)
    requires Reachable(cfg, s)
    ensures T.Reachable(s.base)
  {
    var trace :| SecureRun(cfg, Start(), trace, s);
    SecureRefinesPlain(cfg, Start(), trace, s);
  }

  // ── Theorems ───────────────────────────────────────────────────────────

  /** _asend_raw never raises RuntimeError in _execute: a context is at hand whenever it is called. */
  lemma HandshakeNeverFaults(cfg: Config, s: Server, x: SecureStep)
    requires Reachable(cfg, s) && CanStep(cfg, s, x) && x.Exec?
    ensures PhaseOf(s, x.m) != Faulted && PhaseOf(Stepped(cfg, s, x), x.m) != Faulted
    ensures x.move.SendAuth? || x.move.Judge? ==> s.base.clients[x.m].m.current.Some?
  {
    ReachableHandshake(cfg, s);
    assert PhaseInv(cfg, s.base.clients[x.m], PhaseOf(s, x.m));
    MoveKeepsPhase(cfg, s.base.clients[x.m], PhaseOf(s, x.m), x.move);
  }

  /**
   While the conversation callback runs: hello received, server auth sent and delivered,
   confirm received and verified under an authorized key, "ok" sent and delivered, in that
   order, on two different slots, both from this manager's own pipe.
   */
  lemma ConversationOnlyAfterHandshake(cfg: Config, s: Server, m: MgrId)
    requires Reachable(cfg, s) && m in s.base.clients && PhaseOf(s, m).Talking?
    ensures var c := s.base.clients[m]; var n := NonceOf(PhaseOf(s, m));
      && |c.log| >= 4 && c.log[0].Got? && c.log[2].Got?
      && var (hello, confirm) := (c.log[0].slot, c.log[2].slot);
      && c.log[1] == Sent(hello, cfg.serverAuth(hello.msg, n)) && hello.ev in c.delivered
      && cfg.parsesHello(hello.msg) && cfg.opensConfirm(hello.msg, n, confirm.msg)
      && (exists vk :: vk in cfg.authorized && cfg.verifies(vk, hello.msg, n, confirm.msg))
      && c.log[3] == Sent(confirm, OK) && confirm.ev in c.delivered
      && hello.msg.pipe == Some(c.m.pipe) && confirm.msg.pipe == Some(c.m.pipe) && hello.ev != confirm.ev
  {
    ReachableHandshake(cfg, s);
    assert PhaseInv(cfg, s.base.clients[m], PhaseOf(s, m));
    SecureStatesArePlainStates(cfg, s);
    T.ReplyRouting(s.base, m, 1);
    T.ReplyRouting(s.base, m, 3);
  }

  /** Whatever a conversation has done beyond four actions, it did after a complete handshake. */
  lemma ActionsImplyHandshake(cfg: Config, s: Server, m: MgrId)
    requires Reachable(cfg, s) && m in s.base.clients && |s.base.clients[m].log| > 4
    ensures Authenticated(cfg, s.base.clients[m], NonceOf(PhaseOf(s, m)))
  {
    ReachableHandshake(cfg, s);
    assert PhaseInv(cfg, s.base.clients[m], PhaseOf(s, m));
  }

  /** "ok" goes only to a client whose confirm an authorized key accepts, delivered or not. */
  lemma OkOnlyToVerified(cfg: Config, s: Server, m: MgrId, slot: Slot)
    requires Reachable(cfg, s) && m in s.base.clients && |s.base.clients[m].log| >= 4
    requires s.base.clients[m].log[3] == Sent(slot, OK)
    ensures var log := s.base.clients[m].log; var n := NonceOf(PhaseOf(s, m));
      && log[0].Got? && log[1] == Sent(log[0].slot, cfg.serverAuth(log[0].slot.msg, n)) && log[2] == Got(slot)
      && cfg.opensConfirm(log[0].slot.msg, n, slot.msg) && Accepts(cfg, log[0].slot.msg, n, slot.msg)
  {
    ReachableHandshake(cfg, s);
    assert PhaseInv(cfg, s.base.clients[m], PhaseOf(s, m));
  }

  /** A manager whose confirm no authorized key accepts never gets beyond the refusal. */
  lemma UnauthorizedIsRefused(cfg: Config, s: Server, m: MgrId)
    requires Reachable(cfg, s) && m in s.base.clients && |s.base.clients[m].log| >= 3
    ensures s.base.clients[m].log[0].Got? && s.base.clients[m].log[2].Got?
    ensures var log := s.base.clients[m].log; var n := NonceOf(PhaseOf(s, m));
      !Accepts(cfg, log[0].slot.msg, n, log[2].slot.msg) ==>
        && |log| <= 4 && !PhaseOf(s, m).Talking?
        && (|log| == 4 ==> log[3] == Sent(log[2].slot, REFUSAL) || log[3] == Dropped(log[2].slot))
  {
    ReachableHandshake(cfg, s);
    assert PhaseInv(cfg, s.base.clients[m], PhaseOf(s, m));
  }

  // ── How a manager ends ─────────────────────────────────────────────────

  /** The moves after which _execute is on its way out. */
  predicate Leaves(c: Client, ph: Phase, move: Move) {
    || move == Raise || move == CallbackEnds
    || (move == TakeItem && c.m.inbox != [] && c.m.inbox[0].Sentinel?)
    || (move == SendDone(false)) || (move == SendDone(true) && ph.RefusalInFlight?)
  }

  /** An exception, a disconnect, a failed send, the refusal and the end of the callback lead to the finally block. */
  lemma ExitsUnwind(cfg: Config, s: Server, m: MgrId, move: Move)
    requires Reachable(cfg, s) && CanStep(cfg, s, Exec(m, move)) && Leaves(s.base.clients[m], PhaseOf(s, m), move)
    ensures var s1 := Stepped(cfg, s, Exec(m, move));
      && PhaseOf(s1, m) == Unwinding(NonceOf(PhaseOf(s, m)), move == CallbackEnds)
      && s1.base.clients[m].log == s.base.clients[m].log && CanStep(cfg, s1, Exec(m, Finally))
  {
  }

  /** No other move does, and none leads back from there. */
  lemma OnlyExitsUnwind(cfg: Config, s: Server, m: MgrId, move: Move)
    requires Reachable(cfg, s) && CanStep(cfg, s, Exec(m, move))
    requires PhaseOf(Stepped(cfg, s, Exec(m, move)), m).Unwinding?
    ensures Leaves(s.base.clients[m], PhaseOf(s, m), move) || PhaseOf(s, m).Unwinding?
  {
    ReachableHandshake(cfg, s);
    assert PhaseInv(cfg, s.base.clients[m], PhaseOf(s, m));
  }

  /** The finally block leaves a stopped, empty manager, and gives up at most the request it held. */
  lemma FinallyEnds(cfg: Config, s: Server, m: MgrId)
    requires Reachable(cfg, s) && CanStep(cfg, s, Exec(m, Finally))
    ensures var (c, s1) := (s.base.clients[m], Stepped(cfg, s, Exec(m, Finally)));
      && PhaseOf(s1, m).Ended? && m in s1.base.clients
      && var c1 := s1.base.clients[m];
      && !c1.m.running && c1.m.shut && c1.m.inbox == [] && c1.m.current == None
      && c1.log == c.log + (if c.m.current.Some? then [Dropped(c.m.current.value)] else [])
      && (c.m.current.Some? ==> c.m.current.value.ev in s1.base.isSet)
      && (forall i :: 0 <= i < |c.m.inbox| && c.m.inbox[i].Message? ==> c.m.inbox[i].slot.ev in s1.base.isSet)
  {
  }

  /** A disconnect taken during the handshake ends it: no further action but giving up, whatever comes. */
  lemma EndedStays(cfg: Config, s: Server, x: SecureStep, m: MgrId)
    requires HandshakeInv(cfg, s) && CanStep(cfg, s, x) && m in s.base.clients
    requires PhaseOf(s, m).Unwinding? || PhaseOf(s, m).Ended?
    requires !PhaseOf(s, m).talked
    ensures var s1 := Stepped(cfg, s, x);
      && m in s1.base.clients && (PhaseOf(s1, m).Unwinding? || PhaseOf(s1, m).Ended?) && !PhaseOf(s1, m).talked
      && (s1.base.clients[m].log == s.base.clients[m].log
          || (s.base.clients[m].m.current.Some? && PhaseOf(s1, m).Ended? && s1.base.clients[m].m.current == None
              && s1.base.clients[m].log == s.base.clients[m].log + [Dropped(s.base.clients[m].m.current.value)]))
  {
    match x
    case Other(t) =>
      OtherKeepsClients(s.base, t, m);
      OtherKeepsTasks(s.base, t, m);
    case Exec(n, move) =>
  }

  predicate QuitWithout(log: seq<RepServer.Act>, later: seq<RepServer.Act>) {
    later == log || (|later| == |log| + 1 && log <= later && later[|log|].Dropped?)
  }

  lemma {:induction false} QuitForGood(cfg: Config, s0: Server, trace: seq<SecureStep>, s1: Server, m: MgrId)
    requires HandshakeInv(cfg, s0) && SecureRun(cfg, s0, trace, s1) && m in s0.base.clients
    requires PhaseOf(s0, m).Unwinding? || PhaseOf(s0, m).Ended?
    requires !PhaseOf(s0, m).talked
    ensures m in s1.base.clients && QuitWithout(s0.base.clients[m].log, s1.base.clients[m].log)
    ensures PhaseOf(s0, m).Ended? ==> s1.base.clients[m].log == s0.base.clients[m].log
    decreases trace
  {
    if trace != [] {
      var s := Stepped(cfg, s0, trace[0]);
      assert PhaseInv(cfg, s0.base.clients[m], PhaseOf(s0, m));
      StepKeepsHandshake(cfg, s0, trace[0]);
      EndedStays(cfg, s0, trace[0], m);
      if PhaseOf(s0, m).Ended? {
        EndedNeverReturns(cfg, s0, trace[0], m);
      }
      QuitForGood(cfg, s, trace[1..], s1, m);
    }
  }

  lemma EndedNeverReturns(cfg: Config, s: Server, x: SecureStep, m: MgrId)
    requires CanStep(cfg, s, x) && PhaseOf(s, m).Ended?
    ensures PhaseOf(Stepped(cfg, s, x), m) == PhaseOf(s, m)
  {
  }

  // ── The callback does get started ──────────────────────────────────────

  lemma {:induction false} ExtendSecureRun(cfg: Config, s0: Server, trace: seq<SecureStep>, s: Server, x: SecureStep)
    requires SecureRun(cfg, s0, trace, s) && CanStep(cfg, s, x)
    ensures SecureRun(cfg, s0, trace + [x], Stepped(cfg, s, x))
    decreases trace
  {
    if trace == [] {
      assert [x][1..] == [];
      assert SecureRun(cfg, Stepped(cfg, s, x), [], Stepped(cfg, s, x));
    } else {
      ExtendSecureRun(cfg, Stepped(cfg, s0, trace[0]), trace[1..], s, x);
      assert (trace + [x])[1..] == trace[1..] + [x];
    }
  }

  lemma ReachableStep(cfg: Config, s: Server, x: SecureStep)
    requires Reachable(cfg, s) && CanStep(cfg, s, x)
    ensures Reachable(cfg, Stepped(cfg, s, x))
  {
    var trace :| SecureRun(cfg, Start(), trace, s);
    ExtendSecureRun(cfg, Start(), trace, s, x);
  }

  /** One client of pipe p that has sent a hello on the context of loop 0. */
  lemma HelloQueued(cfg: Config, p: Pipe, hello: Msg) returns (s: Server)
    requires hello.pipe == Some(p)
    ensures Reachable(cfg, s) && 0 in s.base.clients && s.phases == map[]
    ensures s.base == RepServer.State(
      map[0 := NewClient(p).(m := NewMgr(p).(inbox := [Message(Slot(hello, 0, 0))]))], map[p := 0],
      map[0 := Loop(0, Waiting(0))], {}, {0}, map[0 := Handoff(0, Slot(hello, 0, 0), 0)], {})
  {
    s := Start();
    assert SecureRun(cfg, s, [], s);
    ReachableStep(cfg, s, Other(OpenLoop(0, 0)));
    s := Stepped(cfg, s, Other(OpenLoop(0, 0)));
    ReachableStep(cfg, s, Other(Receive(0, hello, 0, 0)));
    s := Stepped(cfg, s, Other(Receive(0, hello, 0, 0)));
  }

  /** The state of a server with one loop and one client, as far as the client's task sees it. */
  ghost predicate OneClient(s: Server, c: Client, ph: Phase, pc: LoopPc) {
    && s.base.clients == map[0 := c] && PhaseOf(s, 0) == ph
    && s.base.loops == map[0 := Loop(0, pc)] && s.base.table == map[c.m.pipe := 0]
  }

  lemma AuthDelivered(cfg: Config, p: Pipe, hello: Msg, n: Nonce) returns (s: Server, c: Client)
    requires hello.pipe == Some(p) && cfg.parsesHello(hello)
    ensures Reachable(cfg, s) && OneClient(s, c, AwaitConfirm(hello, n), Waiting(0))
    ensures c.m == NewMgr(p) && 0 in s.base.isSet && s.base.handed.Keys == {0}
  {
    s := HelloQueued(cfg, p, hello);
    s := Go(cfg, s, Enter);
    s := Go(cfg, s, TakeItem);
    s := Go(cfg, s, SendAuth(n));
    s := Go(cfg, s, SendDone(true));
    c := s.base.clients[0];
  }

  lemma Go(cfg: Config, s: Server, move: Move) returns (s1: Server)
    requires Reachable(cfg, s) && CanStep(cfg, s, Exec(0, move))
    ensures Reachable(cfg, s1) && s1 == Stepped(cfg, s, Exec(0, move))
  {
    ReachableStep(cfg, s, Exec(0, move));
    s1 := Stepped(cfg, s, Exec(0, move));
  }

  lemma ConfirmQueued(cfg: Config, p: Pipe, hello: Msg, n: Nonce, confirm: Msg) returns (s: Server)
    requires hello.pipe == Some(p) && confirm.pipe == Some(p) && cfg.parsesHello(hello)
    ensures Reachable(cfg, s) && 0 in s.base.clients && PhaseOf(s, 0) == AwaitConfirm(hello, n)
    ensures s.base.clients[0].m == NewMgr(p).(inbox := [Message(Slot(confirm, 0, 1))])
  {
    var c: Client;
    s, c := AuthDelivered(cfg, p, hello, n);
    ReachableStep(cfg, s, Other(Wake(0)));
    s := Stepped(cfg, s, Other(Wake(0)));
    ReachableStep(cfg, s, Other(Receive(0, confirm, 1, 1)));
    s := Stepped(cfg, s, Other(Receive(0, confirm, 1, 1)));
  }

  /** For every configuration: a client with an acceptable hello and confirm can get its conversation. */
  lemma ConversationIsReachable(cfg: Config, p: Pipe, hello: Msg, n: Nonce, confirm: Msg) returns (s: Server)
    requires hello.pipe == Some(p) && confirm.pipe == Some(p) && cfg.parsesHello(hello)
    requires cfg.opensConfirm(hello, n, confirm) && Accepts(cfg, hello, n, confirm)
    ensures Reachable(cfg, s) && PhaseOf(s, 0) == Talking(n)
  {
    s := ConfirmQueued(cfg, p, hello, n, confirm);
    s := Go(cfg, s, TakeItem);
    s := Go(cfg, s, Judge);
    s := Go(cfg, s, SendDone(true));
  }
}
