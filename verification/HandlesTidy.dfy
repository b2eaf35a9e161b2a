/** No handle object outlives its last reference. */
module HandlesTidy {
  import opened Options
  import opened Handles
  import opened HandlesInvariant

  /** Every object is referred to, except possibly those whose reference has just been given up. */
  ghost predicate Tidy(s: State, cs: set<nat>, rs: set<nat>) {
    && (forall c :: c in s.ctxs && c !in cs ==> CtxHeld(s, c))
    && (forall r :: r in s.socks && r !in rs ==> SockHeld(s, r))
  }

  function Given(o: Option<nat>): set<nat> {
    if o.Some? then {o.value} else {}
  }

  /** The references that exist in s exist in s1. */
  ghost predicate Keeps(s: State, s1: State, cs: set<nat>, rs: set<nat>) {
    && (forall c :: CtxHeld(s, c) && c !in cs ==> CtxHeld(s1, c))
    && (forall r :: SockHeld(s, r) && r !in rs ==> SockHeld(s1, r))
  }

  lemma TidyKept(s: State, s1: State, cs: set<nat>, rs: set<nat>, cs1: set<nat>, rs1: set<nat>)
    requires Tidy(s, cs, rs) && Keeps(s, s1, cs1, rs1) && s1.ctxs.Keys <= s.ctxs.Keys && s1.socks.Keys <= s.socks.Keys
    ensures Tidy(s1, cs + cs1, rs + rs1)
  {
  }

  lemma ReleaseSockTidy(s: State, r: Option<nat>, cs: set<nat>, rs: set<nat>)
    requires Tidy(s, cs, rs)
    ensures Tidy(ReleaseSock(s, r), cs, rs - Given(r))
  {
    var s1 := ReleaseSock(s, r);
    assert forall c :: CtxHeld(s, c) ==> CtxHeld(s1, c);
    assert forall q :: SockHeld(s, q) ==> SockHeld(s1, q);
  }

  lemma ShutCtxTidy(s: State, c: nat, cs: set<nat>, rs: set<nat>)
    requires Tidy(s, cs, rs) && c in s.ctxs
    ensures Tidy(ShutCtx(s, c), cs, rs + Given(s.ctxs[c].sock))
  {
    var s1 := ShutCtx(s, c);
    forall d: nat | CtxHeld(s, d) ensures CtxHeld(s1, d) {
    }
    forall q: nat | SockHeld(s, q) && q !in Given(s.ctxs[c].sock) ensures SockHeld(s1, q) {
      if d :| d in s.ctxs && s.ctxs[d].sock == Some(q) {
        assert s1.ctxs[d].sock == Some(q);
      }
    }
    TidyKept(s, s1, cs, rs, {}, Given(s.ctxs[c].sock));
  }

  lemma ShutAioTidy(s: State, a: nat, cs: set<nat>, rs: set<nat>)
    requires Tidy(s, cs, rs) && a in s.aios
    ensures Tidy(ShutAio(s, a), cs + Given(s.aios[a].onCtx), rs + Given(s.aios[a].onSock))
  {
    var s1 := ShutAio(s, a);
    forall c: nat | CtxHeld(s, c) && c !in Given(s.aios[a].onCtx) ensures CtxHeld(s1, c) {
      if b :| b in s.aios && s.aios[b].onCtx == Some(c) {
        assert s1.aios[b].onCtx == Some(c);
      }
    }
    forall q: nat | SockHeld(s, q) && q !in Given(s.aios[a].onSock) ensures SockHeld(s1, q) {
      if b :| b in s.aios && s.aios[b].onSock == Some(q) {
        assert s1.aios[b].onSock == Some(q);
      }
    }
    TidyKept(s, s1, cs, rs, Given(s.aios[a].onCtx), Given(s.aios[a].onSock));
  }

  lemma ResetCtxTidy(s: State, c: nat, cs: set<nat>, rs: set<nat>)
    requires Tidy(s, cs, rs) && c in s.ctxs
    ensures Tidy(ResetCtx(s, c), cs, rs)
  {
    ShutCtxTidy(s, c, cs, rs);
    ReleaseSockTidy(ShutCtx(s, c), s.ctxs[c].sock, cs, rs + Given(s.ctxs[c].sock));
  }

  /** An empty context handle goes. */
  lemma RemoveCtxTidy(s: State, c: nat, cs: set<nat>, rs: set<nat>)
    requires Tidy(s, cs, rs) && c in s.ctxs && s.ctxs[c].sock == None && !CtxHeld(s, c)
    ensures Tidy(s.(ctxs := s.ctxs - {c}), cs - {c}, rs)
  {
    var s1 := s.(ctxs := s.ctxs - {c});
    forall d: nat | CtxHeld(s, d) ensures CtxHeld(s1, d) {
    }
    forall q: nat | SockHeld(s, q) ensures SockHeld(s1, q) {
      if d :| d in s.ctxs && s.ctxs[d].sock == Some(q) {
        assert s1.ctxs[d].sock == Some(q);
      }
    }
  }

  lemma ReleaseCtxTidy(s: State, c: Option<nat>, cs: set<nat>, rs: set<nat>)
    requires Tidy(s, cs, rs)
    ensures Tidy(ReleaseCtx(s, c), cs - Given(c), rs)
  {
    if c.Some? && c.value in s.ctxs && !CtxHeld(s, c.value) {
      ResetCtxTidy(s, c.value, cs, rs);
      RemoveCtxTidy(ResetCtx(s, c.value), c.value, cs, rs);
    }
  }

  lemma ResetAioTidy(s: State, a: nat)
    requires Tidy(s, {}, {}) && a in s.aios
    ensures Tidy(ResetAio(s, a), {}, {})
  {
    var (c, r) := (s.aios[a].onCtx, s.aios[a].onSock);
    ShutAioTidy(s, a, {}, {});
    ReleaseCtxTidy(ShutAio(s, a), c, {} + Given(c), {} + Given(r));
    ReleaseSockTidy(ReleaseCtx(ShutAio(s, a), c), r, {} + Given(c) - Given(c), {} + Given(r));
  }

  lemma MoveCtxTidy(s: State, d: nat, c: nat)
    requires Tidy(s, {}, {}) && c in s.ctxs && d in s.ctxs && c != d && s.ctxs[d].sock == None
    ensures Tidy(MoveCtxInto(s, d, c), {}, {})
  {
    var s1 := MoveCtxInto(s, d, c);
    forall h: nat | CtxHeld(s, h) ensures CtxHeld(s1, h) {
    }
    forall q: nat | SockHeld(s, q) ensures SockHeld(s1, q) {
      if h :| h in s.ctxs && s.ctxs[h].sock == Some(q) {
        assert s1.ctxs[if h == c then d else h].sock == Some(q);
      }
    }
  }

  lemma MoveAioTidy(s: State, b: nat, a: nat)
    requires Tidy(s, {}, {}) && a in s.aios && b in s.aios && a != b
    requires s.aios[b].onCtx == None && s.aios[b].onSock == None
    ensures Tidy(MoveAioInto(s, b, a), {}, {})
  {
    var s1 := MoveAioInto(s, b, a);
    forall c: nat | CtxHeld(s, c) ensures CtxHeld(s1, c) {
      if h :| h in s.aios && s.aios[h].onCtx == Some(c) {
        assert s1.aios[if h == a then b else h].onCtx == Some(c);
      }
    }
    forall q: nat | SockHeld(s, q) ensures SockHeld(s1, q) {
      if h :| h in s.aios && s.aios[h].onSock == Some(q) {
        assert s1.aios[if h == a then b else h].onSock == Some(q);
      }
    }
  }

  /** Adding an aio handle, or removing an empty one, takes no reference away. */
  lemma AiosTidy(s: State, s1: State)
    requires Tidy(s, {}, {}) && s1.ctxs == s.ctxs && s1.socks == s.socks
    requires forall a :: a in s.aios && (s.aios[a].onCtx.Some? || s.aios[a].onSock.Some?) ==>
      a in s1.aios && s1.aios[a] == s.aios[a]
    ensures Tidy(s1, {}, {})
  {
    forall c: nat | CtxHeld(s, c) ensures CtxHeld(s1, c) {
      if h :| h in s.aios && s.aios[h].onCtx == Some(c) {
        assert s1.aios[h].onCtx == Some(c);
      }
    }
    forall q: nat | SockHeld(s, q) ensures SockHeld(s1, q) {
      if h :| h in s.aios && s.aios[h].onSock == Some(q) {
        assert s1.aios[h].onSock == Some(q);
      }
    }
  }

  /** A new context handle with a caller holds its own. */
  lemma CtxAddedTidy(s: State, s1: State, c: nat)
    requires Tidy(s, {}, {}) && c !in s.ctxs && c in s1.ctxs
    requires s1.ctxs == s.ctxs[c := s1.ctxs[c]] && s1.ctxs[c].users > 0
    requires s1.socks == s.socks && s1.aios == s.aios
    ensures Tidy(s1, {}, {})
  {
    forall d: nat | CtxHeld(s, d) ensures CtxHeld(s1, d) {
    }
    forall q: nat | SockHeld(s, q) ensures SockHeld(s1, q) {
      if d :| d in s.ctxs && s.ctxs[d].sock == Some(q) {
        assert s1.ctxs[d].sock == Some(q);
      }
    }
  }

  lemma CtxUsersTidy(s: State, c: nat, n: nat)
    requires Tidy(s, {}, {}) && c in s.ctxs
    ensures Tidy(s.(ctxs := s.ctxs[c := s.ctxs[c].(users := n)]), {c}, {})
    ensures n > 0 ==> Tidy(s.(ctxs := s.ctxs[c := s.ctxs[c].(users := n)]), {}, {})
  {
    var s1 := s.(ctxs := s.ctxs[c := s.ctxs[c].(users := n)]);
    forall d: nat | CtxHeld(s, d) && d != c ensures CtxHeld(s1, d) {
    }
    forall q: nat | SockHeld(s, q) ensures SockHeld(s1, q) {
      if d :| d in s.ctxs && s.ctxs[d].sock == Some(q) {
        assert s1.ctxs[d].sock == Some(q);
      }
    }
  }

  lemma SockUsersTidy(s: State, s1: State, r: nat, n: nat)
    requires Tidy(s, {}, {}) && s1 == s.(socks := s.socks[r := n], sockIds := s1.sockIds)
    ensures Tidy(s1, {}, {r})
    ensures n > 0 ==> Tidy(s1, {}, {})
  {
    forall q: nat | SockHeld(s, q) && q != r ensures SockHeld(s1, q) {
    }
    assert forall d :: CtxHeld(s, d) ==> CtxHeld(s1, d);
  }

  // ── Every step ─────────────────────────────────────────────────────────

  lemma CtxStepTidy(s: State, t: Step)
    requires Core(s) && Tidy(s, {}, {}) && Enabled(s, t) && (t.NewCtx? || t.EmptyCtx? || t.ShareCtx?)
    ensures Tidy(Next(s, t), {}, {})
  {
    match t
    case NewCtx(c, x, r) => CtxAddedTidy(s, Next(s, t), c);
    case EmptyCtx(c) => CtxAddedTidy(s, Next(s, t), c);
    case ShareCtx(c) => CtxUsersTidy(s, c, s.ctxs[c].users + 1);
  }

  lemma DropCtxTidy(s: State, c: nat)
    requires Tidy(s, {}, {}) && Enabled(s, DropCtx(c))
    ensures Tidy(Next(s, DropCtx(c)), {}, {})
  {
    CtxUsersTidy(s, c, s.ctxs[c].users - 1);
    ReleaseCtxTidy(s.(ctxs := s.ctxs[c := s.ctxs[c].(users := s.ctxs[c].users - 1)]), Some(c), {c}, {});
  }

  lemma MoveStepTidy(s: State, d: nat, c: nat)
    requires Tidy(s, {}, {}) && Enabled(s, MoveCtx(d, c))
    ensures Tidy(Next(s, MoveCtx(d, c)), {}, {})
  {
    CtxAddedTidy(s, AddCtx(s, d), d);
    MoveCtxTidy(AddCtx(s, d), d, c);
  }

  lemma AssignCtxTidy(s: State, d: nat, c: nat)
    requires Core(s) && Tidy(s, {}, {}) && Enabled(s, AssignCtx(d, c))
    ensures Tidy(Next(s, AssignCtx(d, c)), {}, {})
  {
    if d != c {
      ResetCtxTidy(s, d, {}, {});
      MoveCtxTidy(ResetCtx(s, d), d, c);
    }
  }

  lemma AioStepTidy(s: State, t: Step)
    requires Tidy(s, {}, {}) && Enabled(s, t) && (t.NewAio? || t.EmptyAio? || t.NewOp?)
    ensures Tidy(Next(s, t), {}, {})
  {
    AiosTidy(s, Next(s, t));
  }

  lemma DropTidy(s: State, a: nat, s1: State)
    requires Tidy(s, {}, {}) && a in s.aios
    requires s1.ctxs == Dispose(s, a).ctxs && s1.socks == Dispose(s, a).socks && s1.aios == Dispose(s, a).aios
    ensures Tidy(s1, {}, {})
  {
    ResetAioTidy(s, a);
    AiosTidy(ResetAio(s, a), s1);
  }

  lemma MoveAioStepTidy(s: State, b: nat, a: nat)
    requires Tidy(s, {}, {}) && Enabled(s, MoveAio(b, a))
    ensures Tidy(Next(s, MoveAio(b, a)), {}, {})
  {
    AiosTidy(s, AddAio(s, b, None));
    MoveAioTidy(AddAio(s, b, None), b, a);
  }

  lemma AssignAioTidy(s: State, b: nat, a: nat)
    requires Tidy(s, {}, {}) && Enabled(s, AssignAio(b, a))
    ensures Tidy(Next(s, AssignAio(b, a)), {}, {})
  {
    if b != a {
      ResetAioTidy(s, b);
      MoveAioTidy(ResetAio(s, b), b, a);
    }
  }

  lemma StepKeepsTidy(s: State, t: Step)
    requires Core(s) && Tidy(s, {}, {}) && Enabled(s, t)
    ensures Tidy(Next(s, t), {}, {})
  {
    if t.NewSock? {
      SockUsersTidy(s, Next(s, t), t.r, 1);
    } else if t.ShareSock? {
      SockUsersTidy(s, Next(s, t), t.r, s.socks[t.r] + 1);
    } else if t.DropSock? {
      var s1 := s.(socks := s.socks[t.r := s.socks[t.r] - 1]);
      SockUsersTidy(s, s1, t.r, s.socks[t.r] - 1);
      ReleaseSockTidy(s1, Some(t.r), {}, {t.r});
    } else if t.NewCtx? || t.EmptyCtx? || t.ShareCtx? {
      CtxStepTidy(s, t);
    } else if t.NewAio? || t.EmptyAio? || t.NewOp? {
      AioStepTidy(s, t);
    } else {
      MovingStepTidy(s, t);
    }
  }

  lemma MovingStepTidy(s: State, t: Step)
    requires Core(s) && Tidy(s, {}, {}) && Enabled(s, t)
    requires t.DropCtx? || t.MoveCtx? || t.AssignCtx? || t.MoveAio? || t.AssignAio? || t.DropAio? || t.DropOp?
    ensures Tidy(Next(s, t), {}, {})
  {
    match t
    case DropCtx(c) => DropCtxTidy(s, c);
    case MoveCtx(d, c) => MoveStepTidy(s, d, c);
    case AssignCtx(d, c) => AssignCtxTidy(s, d, c);
    case MoveAio(b, a) => MoveAioStepTidy(s, b, a);
    case AssignAio(b, a) => AssignAioTidy(s, b, a);
    case DropAio(a) => DropTidy(s, a, Next(s, t));
    case DropOp(o) => DropTidy(s, s.ops[o], Next(s, t));
  }

  lemma {:induction false} RunKeepsTidy(s0: State, trace: seq<Step>, s1: State)
    requires Core(s0) && Tidy(s0, {}, {}) && Run(s0, trace, s1)
    ensures Core(s1) && Tidy(s1, {}, {})
    decreases trace
  {
    if trace != [] {
      StepKeepsCore(s0, trace[0]);
      StepKeepsTidy(s0, trace[0]);
      RunKeepsTidy(Next(s0, trace[0]), trace[1..], s1);
    }
  }
}
