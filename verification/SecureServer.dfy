/**
 The secure REP server: every manager runs the three-message handshake before the
 conversation callback starts.  Loops, pipe callbacks and done callbacks are those of
 RepServer.  What a manager task does has its own guards and effects here, following
 _execute, _arecv_raw, _asend_raw and the finally block.
 */
module SecureServer {
  import opened Options
  import opened ConversationManager
  import opened RepServer
  import opened RepServerSteps

  type Key = nat
  type Nonce = nat   // the server's ephemeral key pair and challenge of one handshake

  /** The configuration and the cryptographic operations, which are arbitrary functions. */
  datatype Config = Config(
    authorized: set<Key>,
    parsesHello: Msg -> bool,
    serverAuth: (Msg, Nonce) -> seq<char>,
    opensConfirm: (Msg, Nonce, Msg) -> bool,      // decrypts and parses
    verifies: (Key, Msg, Nonce, Msg) -> bool)     // signature of the confirm over this transcript

  const OK := "ok"
  const REFUSAL := "Unauthorized client"

  /** verify_client_confirm: some authorized key accepts the signature. */
  ghost predicate Accepts(cfg: Config, hello: Msg, nonce: Nonce, confirm: Msg) {
    exists vk :: vk in cfg.authorized && cfg.verifies(vk, hello, nonce, confirm)
  }

  /**
   Where _execute is, with its local variables.  A phase in flight also has the slot that
   _asend_raw captured.  Faulted: _asend_raw has raised RuntimeError.  `talked` says whether
   the callback was started; the nonce in the last two is history.
   */
  datatype Phase =
    | NotEntered
    | AwaitHello
    | GotHello(hello: Msg)
    | AuthInFlight(hello: Msg, nonce: Nonce, slot: Slot)
    | AwaitConfirm(hello: Msg, nonce: Nonce)
    | GotConfirm(hello: Msg, nonce: Nonce, confirm: Msg)
    | RefusalInFlight(nonce: Nonce, slot: Slot)
    | OkInFlight(nonce: Nonce, slot: Slot)
    | Talking(nonce: Nonce)
    | Faulted
    | Unwinding(nonce: Nonce, talked: bool)
    | Ended(nonce: Nonce, talked: bool)

  datatype Server = Server(base: RepServer.State, phases: map<MgrId, Phase>)

  /** What a manager task, or a task of its conversation, does next. */
  datatype Move =
    | Enter
    | TakeItem                            // _inbox.get() returns
    | Raise                               // a timeout, a bad message, a failed decryption
    | SendAuth(nonce: Nonce)
    | Judge                               // verify the confirm, start the reply
    | SendDone(ok: bool)                  // the await in _asend_raw ends
    | UserRecv
    | UserSend(data: seq<char>)
    | UserSendDone(slot: Slot, ok: bool)
    | CallbackEnds
    | Finally

  datatype SecureStep = Other(other: RepServer.Step) | Exec(m: MgrId, move: Move)

  function PhaseOf(s: Server, m: MgrId): Phase {
    if m in s.phases then s.phases[m] else NotEntered
  }

  // ── The manager's own methods ──────────────────────────────────────────

  datatype Received = NoItem | Reset | Item(slot: Slot)

  /** The part of _arecv_raw after its await. */
  function ArecvRaw(m: Mgr): (Mgr, Received) {
    if m.inbox == [] then (m, NoItem)
    else match m.inbox[0]
      case Sentinel => (Mgr(m.pipe, m.inbox[1..], m.current, m.running, m.shut), Reset)
      case Message(slot) => (Mgr(m.pipe, m.inbox[1..], Some(slot), m.running, m.shut), Item(slot))
  }

  /** The part of _asend_raw before its await: the captured slot, or RuntimeError. */
  function AsendRaw(m: Mgr): (Mgr, Option<Slot>) {
    match m.current
    case None => (m, None)
    case Some(slot) => (Mgr(m.pipe, m.inbox, None, m.running, m.shut), Some(slot))
  }

  /** The finally block: what is left, and the events it sets. */
  function FinallyBlock(m: Mgr): (Mgr, set<EventId>) {
    var held := set i | 0 <= i < |m.inbox| && m.inbox[i].Message? :: m.inbox[i].slot.ev;
    (Mgr(m.pipe, [], None, false, true), held + if m.current.Some? then {m.current.value.ev} else {})
  }

  // ── Guards and effects of _execute ─────────────────────────────────────

  /** The callback has been started, so there may be tasks that use the conversation. */
  predicate UserCode(ph: Phase) {
    ph.Talking? || (ph.Unwinding? && ph.talked) || (ph.Ended? && ph.talked)
  }

  predicate Guard(cfg: Config, c: Client, ph: Phase, move: Move) {
    match move
    case Enter => ph == NotEntered && c.task == Unstarted
    case TakeItem => (ph == AwaitHello || ph.AwaitConfirm?) && c.m.inbox != []
    case Raise => ph == AwaitHello || ph.GotHello? || ph.AwaitConfirm? || ph.GotConfirm?
    case SendAuth(_) => ph.GotHello? && cfg.parsesHello(ph.hello)
    case Judge => ph.GotConfirm? && cfg.opensConfirm(ph.hello, ph.nonce, ph.confirm)
    case SendDone(_) => ph.AuthInFlight? || ph.RefusalInFlight? || ph.OkInFlight?
    case UserRecv => ph.Talking? && c.m.inbox != []
    case UserSend(_) => UserCode(ph)
    case UserSendDone(slot, _) => UserCode(ph) && slot in c.sends
    case CallbackEnds => ph.Talking?
    case Finally => ph.Unwinding? || ph == Faulted
  }

  /** A task's effect: the client, the events it sets, where _execute is afterwards. */
  datatype Effect = Effect(client: Client, sets: set<EventId>, phase: Phase)

  /** get() has returned an item to _execute or to the conversation. */
  function Took(c: Client, onReset: Phase, onItem: Msg -> Phase): Effect {
    var (m, r) := ArecvRaw(c.m);
    match r
    case NoItem => Effect(c, {}, onReset)
    case Reset => Effect(c.(m := m), {}, onReset)
    case Item(slot) => Effect(c.(m := m, log := c.log + [Got(slot)]), {}, onItem(slot.msg))
  }

  /** _asend_raw up to its await. */
  function Sends(c: Client, data: seq<char>, onError: Phase, onSlot: Slot -> Phase): Effect {
    var (m, r) := AsendRaw(c.m);
    match r
    case None => Effect(c, {}, onError)
    case Some(slot) =>
      Effect(c.(m := m, sends := c.sends + {slot}, log := c.log + [Sent(slot, data)]), {}, onSlot(slot))
  }

  /** The rest of _asend_raw: its finally sets the event of the captured slot. */
  function SendEnds(c: Client, slot: Slot, ok: bool, next: Phase): Effect {
    Effect(c.(sends := c.sends - {slot}, delivered := if ok then c.delivered + {slot.ev} else c.delivered),
           {slot.ev}, next)
  }

  function NonceOf(ph: Phase): Nonce {
    match ph
    case AuthInFlight(_, n, _) => n
    case AwaitConfirm(_, n) => n
    case GotConfirm(_, n, _) => n
    case RefusalInFlight(n, _) => n
    case OkInFlight(n, _) => n
    case Talking(n) => n
    case Unwinding(n, _) => n
    case Ended(n, _) => n
    case _ => 0
  }

  ghost function Perform(cfg: Config, c: Client, ph: Phase, move: Move): Effect
    requires Guard(cfg, c, ph, move)
  {
    var quit := Unwinding(NonceOf(ph), false);
    match move
    case Enter => Effect(c.(task := Active), {}, AwaitHello)
    case TakeItem =>
      if ph == AwaitHello then Took(c, quit, msg => GotHello(msg))
      else Took(c, quit, msg => GotConfirm(ph.hello, ph.nonce, msg))
    case Raise => Effect(c, {}, quit)
    case SendAuth(n) =>
      Sends(c, cfg.serverAuth(ph.hello, n), Faulted, slot => AuthInFlight(ph.hello, n, slot))
    case Judge =>
      if Accepts(cfg, ph.hello, ph.nonce, ph.confirm)
      then Sends(c, OK, Faulted, slot => OkInFlight(ph.nonce, slot))
      else Sends(c, REFUSAL, Faulted, slot => RefusalInFlight(ph.nonce, slot))
    case SendDone(ok) =>
      SendEnds(c, ph.slot, ok,
        if ok && ph.AuthInFlight? then AwaitConfirm(ph.hello, ph.nonce)
        else if ok && ph.OkInFlight? then Talking(ph.nonce)
        else quit)
    // user code; an exception goes to it and leaves _execute where it is
    case UserRecv => Took(c, ph, msg => ph)
    case UserSend(data) => Sends(c, data, ph, slot => ph)
    case UserSendDone(slot, ok) => SendEnds(c, slot, ok, ph)
    case CallbackEnds => Effect(c, {}, Unwinding(ph.nonce, true))
    case Finally =>
      var (m, events) := FinallyBlock(c.m);
      var log := if c.m.current.Some? then c.log + [Dropped(c.m.current.value)] else c.log;
      Effect(c.(m := m, task := Over, log := log), events, Ended(NonceOf(ph), ph.Unwinding? && ph.talked))
  }

  ghost predicate CanStep(cfg: Config, s: Server, x: SecureStep) {
    match x
    case Other(t) => RepServer.Enabled(s.base, t) && !ByConversation(t) && !t.Begin?
    case Exec(m, move) => m in s.base.clients && Guard(cfg, s.base.clients[m], PhaseOf(s, m), move)
  }

  ghost function Stepped(cfg: Config, s: Server, x: SecureStep): Server
    requires CanStep(cfg, s, x)
  {
    match x
    case Other(t) => Server(RepServer.Next(s.base, t), s.phases)
    case Exec(m, move) =>
      var e := Perform(cfg, s.base.clients[m], PhaseOf(s, m), move);
      Server(s.base.(clients := s.base.clients[m := e.client], isSet := s.base.isSet + e.sets), s.phases[m := e.phase])
  }

  function Start(): Server {
    Server(RepServer.Init(), map[])
  }

  ghost predicate SecureRun(cfg: Config, s0: Server, trace: seq<SecureStep>, s1: Server)
    decreases trace
  {
    if trace == [] then s0 == s1
    else CanStep(cfg, s0, trace[0]) && SecureRun(cfg, Stepped(cfg, s0, trace[0]), trace[1..], s1)
  }
}
