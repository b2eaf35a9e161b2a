/**
 One per-client manager of the REP conversation server: the two-place inbox, the current
 context, the running flag, and what each method does to them.  The secure manager has the
 same fields and the same methods.
 */
module ConversationManager {
  import opened Options

  type Pipe = nat
  type Ctx = nat
  type EventId = nat

  datatype Msg = Msg(pipe: Option<Pipe>, body: seq<char>)

  /** What a dispatch loop hands over: message, context and reply event. */
  datatype Slot = Slot(msg: Msg, ctx: Ctx, ev: EventId)

  datatype Item = Message(slot: Slot) | Sentinel

  /** asyncio.Queue(maxsize=2) */
  const MAX_INBOX := 2

  datatype Mgr = Mgr(
    pipe: Pipe,
    inbox: seq<Item>,
    current: Option<Slot>,   // _current_ctx; the message is kept for the record
    running: bool,
    shut: bool)              // the inbox has been shut down

  function NewMgr(pipe: Pipe): Mgr {
    Mgr(pipe, [], None, true, false)
  }

  datatype Outcome = Queued | Rejected | DoubleMessage

  /** _dispatch.  Except when Queued, the reply event is set before returning. */
  function Dispatch(m: Mgr, slot: Slot): (Mgr, Outcome) {
    if !m.running then (m, Rejected)
    else if m.inbox != [] || m.current.Some? then (m, DoubleMessage)
    else (m.(inbox := [Message(slot)]), Queued)
  }

  /** _disconnect; put_nowait on a full inbox would raise QueueFull and store nothing. */
  function Disconnect(m: Mgr): Mgr {
    m.(running := false, inbox := if m.shut || |m.inbox| >= MAX_INBOX then m.inbox else m.inbox + [Sentinel])
  }

  /** The part of arecv after its await: one item leaves the inbox. */
  function Arecv(m: Mgr): Mgr
    requires m.inbox != []
  {
    match m.inbox[0]
    case Message(slot) => m.(inbox := m.inbox[1..], current := Some(slot))
    case Sentinel => m.(inbox := m.inbox[1..])
  }

  /** The part of asend before its await: the slot leaves the manager. */
  function TakeCurrent(m: Mgr): Mgr {
    m.(current := None)
  }

  /** The finally block of _execute. */
  function Cleanup(m: Mgr): Mgr {
    m.(running := false, current := None, inbox := [], shut := true)
  }

  /** The reply events of the messages in the inbox. */
  function InboxEvents(inbox: seq<Item>): set<EventId> {
    set i | 0 <= i < |inbox| && inbox[i].Message? :: inbox[i].slot.ev
  }

  function CurrentEvents(m: Mgr): set<EventId> {
    if m.current.Some? then {m.current.value.ev} else {}
  }

  /** The reply events of all slots that the manager holds outside of an asend. */
  function HeldEvents(m: Mgr): set<EventId> {
    CurrentEvents(m) + InboxEvents(m.inbox)
  }

  // ── The manager as an object ───────────────────────────────────────────

  /** The reply events that have been set, whoever waits for them. */
  class Events {
    var isSet: set<EventId>
  }

  datatype RecvResult = Received(msg: Msg) | ConnectionReset

  class Manager {
    const pipe: Pipe
    const events: Events
    var inbox: seq<Item>
    var current: Option<Slot>
    var running: bool
    var shut: bool

    ghost function View(): Mgr
      reads this
    {
      Mgr(pipe, inbox, current, running, shut)
    }

    constructor (pipe: Pipe, events: Events)
      ensures View() == NewMgr(pipe) && this.events == events
    {
      this.pipe, this.events := pipe, events;
      inbox, current, running, shut := [], None, true, false;
    }

    method DispatchItem(slot: Slot) returns (r: Outcome)
      modifies this, events
      ensures r == Rejected <==> !old(running)
      ensures r == DoubleMessage <==> old(running) && (old(inbox) != [] || old(current).Some?)
      ensures inbox == if r == Queued then [Message(slot)] else old(inbox)
      ensures current == old(current) && running == old(running) && shut == old(shut)
      ensures (View(), r) == Dispatch(old(View()), slot)
      ensures events.isSet == old(events.isSet) + if r == Queued then {} else {slot.ev}
    {
      if !running {
        events.isSet := events.isSet + {slot.ev};
        return Rejected;
      }
      if |inbox| != 0 || current.Some? {
        events.isSet := events.isSet + {slot.ev};
        return DoubleMessage;
      }
      inbox := inbox + [Message(slot)];
      assert inbox == [Message(slot)];
      r := Queued;
    }

    method SignalDisconnect()
      modifies this
      ensures !running && current == old(current) && shut == old(shut)
      ensures |old(inbox)| < MAX_INBOX ==> inbox == if shut then old(inbox) else old(inbox) + [Sentinel]
      ensures View() == Disconnect(old(View()))
    {
      running := false;
      if !shut && |inbox| < MAX_INBOX {
        inbox := inbox + [Sentinel];
      }
    }

    method Receive() returns (r: RecvResult)
      requires inbox != []
      modifies this
      ensures inbox == old(inbox)[1..] && running == old(running) && shut == old(shut)
      ensures r == ConnectionReset ==> current == old(current)
      ensures View() == Arecv(old(View()))
      ensures r.Received? <==> old(inbox)[0].Message?
      ensures r.Received? ==> current == Some(old(inbox)[0].slot) && r.msg == current.value.msg
    {
      var item := inbox[0];
      inbox := inbox[1..];
      match item
      case Sentinel => r := ConnectionReset;
      case Message(slot) =>
        current := Some(slot);
        r := Received(slot.msg);
    }

    /** None: RuntimeError, there is no current context. */
    method BeginSend() returns (r: Option<Slot>)
      modifies this
      ensures r == old(current) && current == None
      ensures inbox == old(inbox) && running == old(running) && shut == old(shut)
      ensures View() == TakeCurrent(old(View()))
    {
      r := current;
      current := None;
    }

    /** The finally block: every event still held is set, the inbox is emptied and shut down. */
    method Finally()
      modifies this, events
      ensures inbox == [] && current == None && !running && shut
      ensures forall ev :: ev in events.isSet <==>
        || ev in old(events.isSet) || (old(current).Some? && old(current).value.ev == ev)
        || exists i :: 0 <= i < |old(inbox)| && old(inbox)[i].Message? && old(inbox)[i].slot.ev == ev
      ensures View() == Cleanup(old(View()))
      ensures events.isSet == old(events.isSet) + HeldEvents(old(View()))
    {
      running := false;
      if current.Some? {
        events.isSet := events.isSet + {current.value.ev};
        current := None;
      }
      ghost var before := events.isSet;
      ghost var k := 0;
      while inbox != []
        invariant 0 <= k <= |old(inbox)| && inbox == old(inbox)[k..]
        invariant !running && current == None && shut == old(shut)
        invariant events.isSet == before + InboxEvents(old(inbox)[..k])
        decreases |inbox|
      {
        var item := inbox[0];
        assert item == old(inbox)[k];
        InboxEventsSnoc(old(inbox), k);
        inbox := inbox[1..];
        k := k + 1;
        if item.Message? {
          events.isSet := events.isSet + {item.slot.ev};
        }
      }
      assert old(inbox)[..k] == old(inbox);
      shut := true;
    }
  }

  lemma InboxEventsSnoc(inbox: seq<Item>, k: nat)
    requires k < |inbox|
    ensures InboxEvents(inbox[..k + 1]) ==
      InboxEvents(inbox[..k]) + if inbox[k].Message? then {inbox[k].slot.ev} else {}
  {
    var more := inbox[..k + 1];
    assert more[..k] == inbox[..k] && more[k] == inbox[k];
    assert forall i :: 0 <= i < k ==> more[i] == inbox[..k][i];
  }
}
