/**
 Who holds a handle, told from the calls alone: a caller's references are the constructions and
 shares less the drops, and a socket is open exactly as long as somebody needs it.
 */
module HandlesCounts {
  import opened Options
  import opened Handles
  import opened HandlesInvariant
  import opened HandlesTidy
  import opened HandlesTheorems

  // ── Callers' references, from the trace ────────────────────────────────

  function CtxChange(t: Step, c: nat): int {
    match t
    case NewCtx(d, x, r) => if d == c then 1 else 0
    case EmptyCtx(d) => if d == c then 1 else 0
    case MoveCtx(d, b) => if d == c then 1 else 0
    case ShareCtx(d) => if d == c then 1 else 0
    case DropCtx(d) => if d == c then -1 else 0
    case _ => 0
  }

  function SockChange(t: Step, r: nat): int {
    match t
    case NewSock(q) => if q == r then 1 else 0
    case ShareSock(q) => if q == r then 1 else 0
    case DropSock(q) => if q == r then -1 else 0
    case _ => 0
  }

  function CtxCallers(trace: seq<Step>, c: nat): int {
    if trace == [] then 0 else CtxChange(trace[0], c) + CtxCallers(trace[1..], c)
  }

  function SockCallers(trace: seq<Step>, r: nat): int {
    if trace == [] then 0 else SockChange(trace[0], r) + SockCallers(trace[1..], r)
  }

  /** The same, from the state. */
  function CtxUsers(s: State, c: nat): nat {
    if c in s.ctxs then s.ctxs[c].users else 0
  }

  function SockUsers(s: State, r: nat): nat {
    if r in s.socks then s.socks[r] else 0
  }

  ghost predicate SameUsers(s: State, s1: State) {
    && (forall c :: CtxUsers(s1, c) == CtxUsers(s, c))
    && (forall r :: SockUsers(s1, r) == SockUsers(s, r))
  }

  /** Giving a reference up takes no caller's reference with it. */
  lemma ReleaseSockUsers(s: State, r: Option<nat>)
    ensures SameUsers(s, ReleaseSock(s, r))
  {
  }

  lemma ResetCtxUsers(s: State, c: nat)
    requires c in s.ctxs
    ensures SameUsers(s, ResetCtx(s, c))
  {
    ReleaseSockUsers(ShutCtx(s, c), s.ctxs[c].sock);
  }

  lemma ReleaseCtxUsers(s: State, c: Option<nat>)
    ensures SameUsers(s, ReleaseCtx(s, c))
  {
    if c.Some? && c.value in s.ctxs && !CtxHeld(s, c.value) {
      ResetCtxUsers(s, c.value);
      assert s.ctxs[c.value].users == 0;
    }
  }

  lemma ResetAioUsers(s: State, a: nat)
    requires a in s.aios
    ensures SameUsers(s, ResetAio(s, a))
  {
    ReleaseCtxUsers(ShutAio(s, a), s.aios[a].onCtx);
    ReleaseSockUsers(ReleaseCtx(ShutAio(s, a), s.aios[a].onCtx), s.aios[a].onSock);
  }

  ghost predicate Counts(s: State, t: Step, s1: State) {
    && (forall c :: CtxUsers(s1, c) == CtxUsers(s, c) + CtxChange(t, c))
    && (forall r :: SockUsers(s1, r) == SockUsers(s, r) + SockChange(t, r))
  }

  lemma SockStepCounts(s: State, t: Step)
    requires Core(s) && Enabled(s, t) && (t.NewSock? || t.ShareSock? || t.DropSock?)
    ensures Counts(s, t, Next(s, t))
  {
    if t.DropSock? {
      ReleaseSockUsers(s.(socks := s.socks[t.r := s.socks[t.r] - 1]), Some(t.r));
    }
  }

  lemma CtxStepCounts(s: State, t: Step)
    requires Enabled(s, t) && (t.NewCtx? || t.EmptyCtx? || t.ShareCtx? || t.MoveCtx?)
    ensures Counts(s, t, Next(s, t))
  {
  }

  lemma DropCtxCounts(s: State, c: nat)
    requires Enabled(s, DropCtx(c))
    ensures Counts(s, DropCtx(c), Next(s, DropCtx(c)))
  {
    ReleaseCtxUsers(s.(ctxs := s.ctxs[c := s.ctxs[c].(users := s.ctxs[c].users - 1)]), Some(c));
  }

  lemma AssignCtxCounts(s: State, d: nat, c: nat)
    requires Enabled(s, AssignCtx(d, c))
    ensures Counts(s, AssignCtx(d, c), Next(s, AssignCtx(d, c)))
  {
    if d != c {
      ResetCtxUsers(s, d);
      assert SameUsers(ResetCtx(s, d), MoveCtxInto(ResetCtx(s, d), d, c));
    }
  }

  lemma AioStepCounts(s: State, t: Step)
    requires Enabled(s, t) && (t.NewAio? || t.EmptyAio? || t.MoveAio? || t.NewOp?)
    ensures Counts(s, t, Next(s, t))
  {
  }

  lemma AioGoesCounts(s: State, t: Step)
    requires Enabled(s, t) && (t.AssignAio? || t.DropAio? || t.DropOp?)
    ensures Counts(s, t, Next(s, t))
  {
    ResetAioUsers(s, if t.AssignAio? then t.b else if t.DropAio? then t.a else s.ops[t.o]);
  }

  lemma StepCounts(s: State, t: Step)
    requires Core(s) && Enabled(s, t)
    ensures Counts(s, t, Next(s, t))
  {
    if t.DropCtx? {
      DropCtxCounts(s, t.c);
    } else if t.AssignCtx? {
      AssignCtxCounts(s, t.d, t.c);
    } else if t.NewSock? || t.ShareSock? || t.DropSock? {
      SockStepCounts(s, t);
    } else if t.NewCtx? || t.EmptyCtx? || t.ShareCtx? || t.MoveCtx? {
      CtxStepCounts(s, t);
    } else if t.AssignAio? || t.DropAio? || t.DropOp? {
      AioGoesCounts(s, t);
    } else {
      AioStepCounts(s, t);
    }
  }

  lemma {:induction false} RunCounts(s0: State, trace: seq<Step>, s: State)
    requires Core(s0) && Run(s0, trace, s)
    ensures forall c :: CtxUsers(s, c) == CtxUsers(s0, c) + CtxCallers(trace, c)
    ensures forall r :: SockUsers(s, r) == SockUsers(s0, r) + SockCallers(trace, r)
    decreases trace
  {
    if trace != [] {
      StepCounts(s0, trace[0]);
      StepKeepsCore(s0, trace[0]);
      RunCounts(Next(s0, trace[0]), trace[1..], s);
    }
  }

  /**
   In every run a caller's references to a handle are those constructed and shared less those
   dropped; a handle object without any is alive exactly if a live aio is anchored to it.
   */
  lemma CallersAreCounted(trace: seq<Step>, s: State, c: nat)
    requires Run(Init(), trace, s)
    ensures CtxCallers(trace, c) >= 0
    ensures UserHasCtx(s, c) <==> CtxCallers(trace, c) > 0
    ensures c in s.ctxs <==> CtxCallers(trace, c) > 0 || exists a :: a in s.aios && s.aios[a].onCtx == Some(c)
  {
    assert Reachable(s);
    ReachableInv(s);
    InitInv();
    RunCounts(Init(), trace, s);
    assert CtxUsers(s, c) == CtxCallers(trace, c);
    if a :| a in s.aios && s.aios[a].onCtx == Some(c) {
      assert AnchorsOk(s.aios[a], s.ctxs, s.socks);
    }
  }

  /** An open context on the socket, or an aio anchored to it and not freed. */
  ghost predicate Needed(s: State, r: nat) {
    || (exists x :: x in s.ctxBorn && s.ctxBorn[x] == r && ClosedCtx(x) !in s.log)
    || (exists y :: y in s.aioBorn && s.aioBorn[y].sock == Some(r) && FreedAio(y) !in s.log)
  }

  lemma HeldIsNeeded(s: State, r: nat)
    requires Core(s)
    ensures SockHeld(s, r) <==> SockUsers(s, r) > 0 || Needed(s, r)
  {
    if c :| c in s.ctxs && s.ctxs[c].sock == Some(r) {
      assert CtxOk(c, s.ctxs[c], s.ctxAt, s.ctxBorn, s.socks);
      InLog(s, ClosedCtx(s.ctxs[c].ctx.value));
    }
    if a :| a in s.aios && s.aios[a].onSock == Some(r) {
      assert AioOk(a, s.aios[a], s.aioAt, s.aioBorn);
      InLog(s, FreedAio(s.aios[a].aio.value));
    }
    if x :| x in s.ctxBorn && s.ctxBorn[x] == r && ClosedCtx(x) !in s.log {
      InLog(s, ClosedCtx(x));
      assert s.ctxAt[x].In?;
      assert CtxOk(s.ctxAt[x].h, s.ctxs[s.ctxAt[x].h], s.ctxAt, s.ctxBorn, s.socks);
    }
    if y :| y in s.aioBorn && s.aioBorn[y].sock == Some(r) && FreedAio(y) !in s.log {
      InLog(s, FreedAio(y));
      assert s.aioAt[y].In?;
      assert AioOk(s.aioAt[y].h, s.aios[s.aioAt[y].h], s.aioAt, s.aioBorn);
    }
  }

  /**
   Neither early nor late: in every run a socket that was opened is closed if and only if its
   callers dropped every reference they made, every context opened on it is closed and every aio
   anchored to it is freed.
   */
  lemma SocketOpenExactly(trace: seq<Step>, s: State, r: nat)
    requires Run(Init(), trace, s) && r in s.sockIds
    ensures ClosedSock(r) in s.log <==> SockCallers(trace, r) == 0 && !Needed(s, r)
  {
    assert Reachable(s);
    ReachableInv(s);
    InitInv();
    RunCounts(Init(), trace, s);
    assert SockUsers(s, r) == SockCallers(trace, r);
    InLog(s, ClosedSock(r));
    HeldIsNeeded(s, r);
    if SockHeld(s, r) {
      HeldIsOpen(s, r);
    }
  }

  lemma HeldIsOpen(s: State, r: nat)
    requires Core(s) && SockHeld(s, r)
    ensures r in s.socks
  {
    if c :| c in s.ctxs && s.ctxs[c].sock == Some(r) {
      assert CtxOk(c, s.ctxs[c], s.ctxAt, s.ctxBorn, s.socks);
    } else if a :| a in s.aios && s.aios[a].onSock == Some(r) {
      assert AnchorsOk(s.aios[a], s.ctxs, s.socks);
    }
  }

  /** Constructing, sharing, moving and assigning a handle to itself release nothing. */
  lemma OnlyDropsRelease(s: State, t: Step)
    requires Enabled(s, t) && Next(s, t).log != s.log
    ensures
      || t.DropSock? || t.DropCtx? || t.DropAio? || t.DropOp?
      || (t.AssignCtx? && t.d != t.c) || (t.AssignAio? && t.b != t.a)
  {
  }
}
