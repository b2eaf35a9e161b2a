/**
 The ownership graph of SocketHandle, ContextHandle, AioHandle and the asynchronous op that
 owns an AioHandle and its callback container.

 A handle object is known by a number, and so is each nng resource.  A shared_ptr is a
 reference: `users` counts those held by callers, the fields `sock`, `onCtx` and `onSock` are
 the ones inside other handles, and an object is destroyed when its last reference goes.
 Explicit close() is not among the operations.  `ctxAt`, `ctxBorn`, `aioAt`, `aioBorn`,
 `sockIds` and `opIds` are history.
 */
module Handles {
  import opened Options

  datatype Ctx = Ctx(ctx: Option<nat>, sock: Option<nat>, users: nat)

  /** `owner` is the op that holds this handle in a unique_ptr, if any. */
  datatype Aio = Aio(aio: Option<nat>, onCtx: Option<nat>, onSock: Option<nat>, owner: Option<nat>)

  datatype Anchor = NoAnchor | OnCtx(c: nat) | OnSock(r: nat)

  datatype Release = FreedAio(y: nat) | ClosedCtx(x: nat) | ClosedSock(r: nat) | FreedContainer(o: nat)

  datatype Place = In(h: nat) | Gone

  /** What an aio was made for: the context open in its anchor, or its socket anchor; its op. */
  datatype Birth = Birth(ctx: Option<nat>, sock: Option<nat>, op: Option<nat>)

  datatype State = State(
    socks: map<nat, nat>,         // open sockets and how many callers hold them
    ctxs: map<nat, Ctx>,
    aios: map<nat, Aio>,
    ops: map<nat, nat>,           // live ops (and containers) with their handle
    log: seq<Release>,
    sockIds: set<nat>,
    ctxAt: map<nat, Place>,
    ctxBorn: map<nat, nat>,
    aioAt: map<nat, Place>,
    aioBorn: map<nat, Birth>,
    opIds: set<nat>)

  datatype Step =
    | NewSock(r: nat)
    | ShareSock(r: nat)
    | DropSock(r: nat)
    | NewCtx(c: nat, x: nat, r: nat)
    | EmptyCtx(c: nat)
    | ShareCtx(c: nat)
    | DropCtx(c: nat)
    | MoveCtx(d: nat, c: nat)
    | AssignCtx(d: nat, c: nat)
    | NewAio(a: nat, y: nat, anchor: Anchor)
    | EmptyAio(a: nat)
    | MoveAio(b: nat, a: nat)
    | AssignAio(b: nat, a: nat)
    | DropAio(a: nat)
    | NewOp(o: nat, a: nat, y: nat, anchor: Anchor)
    | DropOp(o: nat)

  function Init(): State {
    State(map[], map[], map[], map[], [], {}, map[], map[], map[], map[], {})
  }

  // ── References ─────────────────────────────────────────────────────────

  ghost predicate SockHeld(s: State, r: nat) {
    || (r in s.socks && s.socks[r] > 0)
    || (exists c :: c in s.ctxs && s.ctxs[c].sock == Some(r))
    || (exists a :: a in s.aios && s.aios[a].onSock == Some(r))
  }

  ghost predicate CtxHeld(s: State, c: nat) {
    || (c in s.ctxs && s.ctxs[c].users > 0)
    || (exists a :: a in s.aios && s.aios[a].onCtx == Some(c))
  }

  /** A reference to a socket handle is gone; ~SocketHandle closes the socket. */
  ghost function ReleaseSock(s: State, r: Option<nat>): (s1: State)
    ensures s1 == s.(socks := s1.socks, log := s1.log)
  {
    if r.Some? && r.value in s.socks && !SockHeld(s, r.value)
    then s.(socks := s.socks - {r.value}, log := s.log + [ClosedSock(r.value)])
    else s
  }

  /** close_if_open, then the socket reference is given up, but not yet acted upon. */
  function ShutCtx(s: State, c: nat): (s1: State)
    requires c in s.ctxs
    ensures s1 == s.(ctxs := s.ctxs[c := Ctx(None, None, s.ctxs[c].users)], ctxAt := s1.ctxAt, log := s1.log)
  {
    var s1 := s.(ctxs := s.ctxs[c := Ctx(None, None, s.ctxs[c].users)]);
    match s.ctxs[c].ctx
    case None => s1
    case Some(x) => s1.(ctxAt := s.ctxAt[x := Gone], log := s.log + [ClosedCtx(x)])
  }

  ghost function ResetCtx(s: State, c: nat): (s1: State)
    requires c in s.ctxs
    ensures s1.ctxs == s.ctxs[c := Ctx(None, None, s.ctxs[c].users)] && s1.aios == s.aios && s1.aioBorn == s.aioBorn
  {
    ReleaseSock(ShutCtx(s, c), s.ctxs[c].sock)
  }

  /** A reference to a context handle is gone. */
  ghost function ReleaseCtx(s: State, c: Option<nat>): (s1: State)
    ensures s1.aios == s.aios && s1.ops == s.ops && s1.aioBorn == s.aioBorn
  {
    if c.Some? && c.value in s.ctxs && !CtxHeld(s, c.value)
    then
      var s1 := ResetCtx(s, c.value);
      s1.(ctxs := s1.ctxs - {c.value})
    else s
  }

  /** nng_aio_free, then the anchors are given up, but not yet acted upon. */
  function ShutAio(s: State, a: nat): (s1: State)
    requires a in s.aios
    ensures s1 == s.(aios := s.aios[a := Aio(None, None, None, s.aios[a].owner)], aioAt := s1.aioAt, log := s1.log)
  {
    var s1 := s.(aios := s.aios[a := Aio(None, None, None, s.aios[a].owner)]);
    match s.aios[a].aio
    case None => s1
    case Some(y) => s1.(aioAt := s.aioAt[y := Gone], log := s.log + [FreedAio(y)])
  }

  /** destroy(): the anchors go after the aio. */
  ghost function ResetAio(s: State, a: nat): (s1: State)
    requires a in s.aios
    ensures s1.aios == s.aios[a := Aio(None, None, None, s.aios[a].owner)] && s1.ops == s.ops && s1.aioBorn == s.aioBorn
  {
    ReleaseSock(ReleaseCtx(ShutAio(s, a), s.aios[a].onCtx), s.aios[a].onSock)
  }

  // ── Moves ──────────────────────────────────────────────────────────────

  /** What handle c holds goes to the empty handle d. */
  function MoveCtxInto(s: State, d: nat, c: nat): State
    requires c in s.ctxs && d in s.ctxs && c != d
  {
    var p := s.ctxs[c];
    s.(ctxs := s.ctxs[d := Ctx(p.ctx, p.sock, s.ctxs[d].users)][c := Ctx(None, None, p.users)],
       ctxAt := if p.ctx.Some? then s.ctxAt[p.ctx.value := In(d)] else s.ctxAt)
  }

  function MoveAioInto(s: State, b: nat, a: nat): State
    requires a in s.aios && b in s.aios && a != b
  {
    var p := s.aios[a];
    s.(aios := s.aios[b := Aio(p.aio, p.onCtx, p.onSock, s.aios[b].owner)][a := Aio(None, None, None, p.owner)],
       aioAt := if p.aio.Some? then s.aioAt[p.aio.value := In(b)] else s.aioAt)
  }

  function AddCtx(s: State, c: nat): State {
    s.(ctxs := s.ctxs[c := Ctx(None, None, 1)])
  }

  function AddAio(s: State, a: nat, owner: Option<nat>): State {
    s.(aios := s.aios[a := Aio(None, None, None, owner)])
  }

  // ── Construction ───────────────────────────────────────────────────────

  function OpenCtx(s: State, c: nat, x: nat, r: nat): State {
    s.(ctxs := s.ctxs[c := Ctx(Some(x), Some(r), 1)], ctxAt := s.ctxAt[x := In(c)], ctxBorn := s.ctxBorn[x := r])
  }

  predicate AnchorOk(s: State, anchor: Anchor) {
    match anchor
    case NoAnchor => true
    case OnCtx(c) => c in s.ctxs && s.ctxs[c].users > 0
    case OnSock(r) => r in s.socks && s.socks[r] > 0
  }

  function BirthOf(s: State, anchor: Anchor, op: Option<nat>): Birth
    requires AnchorOk(s, anchor)
  {
    match anchor
    case NoAnchor => Birth(None, None, op)
    case OnCtx(c) => Birth(s.ctxs[c].ctx, None, op)
    case OnSock(r) => Birth(None, Some(r), op)
  }

  function MakeAio(s: State, a: nat, y: nat, anchor: Anchor, op: Option<nat>): State
    requires AnchorOk(s, anchor)
  {
    var onCtx := if anchor.OnCtx? then Some(anchor.c) else None;
    var onSock := if anchor.OnSock? then Some(anchor.r) else None;
    s.(aios := s.aios[a := Aio(Some(y), onCtx, onSock, op)], aioAt := s.aioAt[y := In(a)],
       aioBorn := s.aioBorn[y := BirthOf(s, anchor, op)])
  }

  // ── Steps ──────────────────────────────────────────────────────────────

  predicate UserHasCtx(s: State, c: nat) {
    c in s.ctxs && s.ctxs[c].users > 0
  }

  predicate Enabled(s: State, t: Step) {
    match t
    case NewSock(r) => r !in s.sockIds
    case ShareSock(r) => r in s.socks && s.socks[r] > 0
    case DropSock(r) => r in s.socks && s.socks[r] > 0
    case NewCtx(c, x, r) => c !in s.ctxs && x !in s.ctxAt && r in s.socks && s.socks[r] > 0
    case EmptyCtx(c) => c !in s.ctxs
    case ShareCtx(c) => UserHasCtx(s, c)
    case DropCtx(c) => UserHasCtx(s, c)
    case MoveCtx(d, c) => d !in s.ctxs && UserHasCtx(s, c)
    case AssignCtx(d, c) => UserHasCtx(s, d) && UserHasCtx(s, c)
    case NewAio(a, y, anchor) => a !in s.aios && y !in s.aioAt && AnchorOk(s, anchor)
    case EmptyAio(a) => a !in s.aios
    case MoveAio(b, a) => b !in s.aios && a in s.aios
    case AssignAio(b, a) => b in s.aios && a in s.aios
    case DropAio(a) => a in s.aios && s.aios[a].owner == None
    case NewOp(o, a, y, anchor) => o !in s.opIds && a !in s.aios && y !in s.aioAt && AnchorOk(s, anchor)
    case DropOp(o) => o in s.ops && s.ops[o] in s.aios
  }

  ghost function Next(s: State, t: Step): State
    requires Enabled(s, t)
  {
    match t
    case NewSock(r) => s.(socks := s.socks[r := 1], sockIds := s.sockIds + {r})
    case ShareSock(r) => s.(socks := s.socks[r := s.socks[r] + 1])
    case DropSock(r) => ReleaseSock(s.(socks := s.socks[r := s.socks[r] - 1]), Some(r))
    case NewCtx(c, x, r) => OpenCtx(s, c, x, r)
    case EmptyCtx(c) => AddCtx(s, c)
    case ShareCtx(c) => s.(ctxs := s.ctxs[c := s.ctxs[c].(users := s.ctxs[c].users + 1)])
    case DropCtx(c) => ReleaseCtx(s.(ctxs := s.ctxs[c := s.ctxs[c].(users := s.ctxs[c].users - 1)]), Some(c))
    case MoveCtx(d, c) => MoveCtxInto(AddCtx(s, d), d, c)
    case AssignCtx(d, c) => if d == c then s else MoveCtxInto(ResetCtx(s, d), d, c)
    case NewAio(a, y, anchor) => MakeAio(s, a, y, anchor, None)
    case EmptyAio(a) => AddAio(s, a, None)
    case MoveAio(b, a) => MoveAioInto(AddAio(s, b, None), b, a)
    case AssignAio(b, a) => if b == a then s else MoveAioInto(ResetAio(s, b), b, a)
    case DropAio(a) => Dispose(s, a)
    // the container is made before the aio
    case NewOp(o, a, y, anchor) =>
      MakeAio(s.(ops := s.ops[o := a], opIds := s.opIds + {o}), a, y, anchor, Some(o))
    // __dealloc__ resets the handle; the container member is destroyed after it
    case DropOp(o) =>
      var s1 := Dispose(s, s.ops[o]);
      s1.(ops := s1.ops - {o}, log := s1.log + [FreedContainer(o)])
  }

  /** ~AioHandle. */
  ghost function Dispose(s: State, a: nat): State
    requires a in s.aios
  {
    var s1 := ResetAio(s, a);
    s1.(aios := s1.aios - {a})
  }

  ghost predicate Run(s0: State, trace: seq<Step>, s1: State)
    decreases trace
  {
    if trace == [] then s0 == s1
    else Enabled(s0, trace[0]) && Run(Next(s0, trace[0]), trace[1..], s1)
  }
}
