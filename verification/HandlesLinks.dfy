/**
 When a context outlives the aios made on it, and a callback container its aio.  Both rest on
 the resource staying in the handle it was made in: the anchor keeps a handle object alive, not
 the context that object happens to hold.
 */
module HandlesLinks {
  import opened Options
  import opened Handles
  import opened HandlesInvariant

  predicate LinkOk(b: Birth, a: nat, p: Aio, ctxAt: map<nat, Place>, ops: map<nat, nat>) {
    && (b.ctx.Some? ==> b.ctx.value in ctxAt && p.onCtx.Some? && ctxAt[b.ctx.value] == In(p.onCtx.value))
    && (b.op.Some? ==> b.op.value in ops && ops[b.op.value] == a)
  }

  predicate Live(s: State, a: nat) {
    a in s.aios && s.aios[a].aio.Some? && s.aios[a].aio.value in s.aioBorn
  }

  function BirthIn(s: State, a: nat): Birth
    requires Live(s, a)
  {
    s.aioBorn[s.aios[a].aio.value]
  }

  /** Every live aio is anchored to the handle its context is in, and sits in the handle of its op. */
  ghost predicate Linked(s: State) {
    forall a :: Live(s, a) ==> LinkOk(BirthIn(s, a), a, s.aios[a], s.ctxAt, s.ops)
  }

  /** Handle c anchors a live aio made on the context it held. */
  ghost predicate Used(s: State, c: nat) {
    exists a :: Live(s, a) && s.aios[a].onCtx == Some(c) && BirthIn(s, a).ctx.Some?
  }

  /** The moves that take a resource away from the handle others rely on. */
  ghost predicate Rehomes(s: State, t: Step) {
    match t
    case MoveCtx(d, c) => Used(s, c)
    case AssignCtx(d, c) => d != c && (Used(s, c) || Used(s, d))
    case MoveAio(b, a) => Live(s, a) && BirthIn(s, a).op.Some?
    case AssignAio(b, a) => b != a && Live(s, a) && BirthIn(s, a).op.Some?
    case _ => false
  }

  ghost predicate AioOrder(log: seq<Release>, y: nat, b: Birth) {
    && (b.ctx.Some? ==> After(log, FreedAio(y), ClosedCtx(b.ctx.value)))
    && (b.op.Some? ==> After(log, FreedAio(y), FreedContainer(b.op.value)))
  }

  /** Contexts and containers go after the aios made for them. */
  ghost predicate HomeOrder(s: State) {
    forall y :: y in s.aioBorn ==> AioOrder(s.log, y, s.aioBorn[y])
  }

  ghost predicate Safe(s: State) {
    Linked(s) && HomeOrder(s)
  }

  lemma HomeOrderAppend(s: State, s1: State, e: Release)
    requires HomeOrder(s) && s1.log == s.log + [e] && s1.aioBorn == s.aioBorn
    requires forall y :: y in s.aioBorn && s.aioBorn[y].ctx.Some? && e == ClosedCtx(s.aioBorn[y].ctx.value) ==>
      FreedAio(y) in s.log
    requires forall y :: y in s.aioBorn && s.aioBorn[y].op.Some? && e == FreedContainer(s.aioBorn[y].op.value) ==>
      FreedAio(y) in s.log
    ensures HomeOrder(s1)
  {
    forall y | y in s1.aioBorn ensures AioOrder(s1.log, y, s1.aioBorn[y]) {
      var b := s.aioBorn[y];
      assert AioOrder(s.log, y, b);
      if b.ctx.Some? {
        AfterAppend(s.log, e, FreedAio(y), ClosedCtx(b.ctx.value));
      }
      if b.op.Some? {
        AfterAppend(s.log, e, FreedAio(y), FreedContainer(b.op.value));
      }
    }
  }

  lemma ReleaseSockSafe(s: State, r: Option<nat>)
    requires Core(s) && Safe(s)
    ensures Safe(ReleaseSock(s, r))
  {
    var s1 := ReleaseSock(s, r);
    assert forall a :: Live(s1, a) ==> Live(s, a) && BirthIn(s1, a) == BirthIn(s, a);
    if s1 != s {
      HomeOrderAppend(s, s1, ClosedSock(r.value));
    }
  }

  /** A context closes in peace when its handle is not in use. */
  lemma ShutCtxSafe(s: State, c: nat)
    requires Core(s) && Safe(s) && c in s.ctxs && !Used(s, c)
    ensures Safe(ShutCtx(s, c))
  {
    var s1 := ShutCtx(s, c);
    if s.ctxs[c].ctx.Some? {
      var x := s.ctxs[c].ctx.value;
      assert CtxOk(c, s.ctxs[c], s.ctxAt, s.ctxBorn, s.socks);
      forall y | y in s.aioBorn && s.aioBorn[y].ctx == Some(x) ensures FreedAio(y) in s.log {
        InLog(s, FreedAio(y));
        LiveAt(s, y);
      }
      HomeOrderAppend(s, s1, ClosedCtx(x));
    }
    forall a | Live(s1, a) ensures LinkOk(BirthIn(s1, a), a, s1.aios[a], s1.ctxAt, s1.ops) {
      assert Live(s, a) && LinkOk(BirthIn(s, a), a, s.aios[a], s.ctxAt, s.ops);
    }
  }

  /** An aio that has not been freed is live in its handle. */
  lemma LiveAt(s: State, y: nat)
    requires AiosInv(s) && y in s.aioBorn
    ensures y in s.aioAt && (s.aioAt[y].In? ==> Live(s, s.aioAt[y].h) && s.aios[s.aioAt[y].h].aio == Some(y))
  {
    assert y in s.aioAt;
  }

  lemma ShutAioSafe(s: State, a: nat)
    requires Core(s) && Safe(s) && a in s.aios
    ensures Safe(ShutAio(s, a))
  {
    var s1 := ShutAio(s, a);
    if s.aios[a].aio.Some? {
      HomeOrderAppend(s, s1, FreedAio(s.aios[a].aio.value));
    }
    forall b | Live(s1, b) ensures LinkOk(BirthIn(s1, b), b, s1.aios[b], s1.ctxAt, s1.ops) {
      assert Live(s, b) && LinkOk(BirthIn(s, b), b, s.aios[b], s.ctxAt, s.ops);
    }
  }

  lemma ResetCtxSafe(s: State, c: nat)
    requires Core(s) && Safe(s) && c in s.ctxs && !Used(s, c)
    ensures Safe(ResetCtx(s, c))
  {
    ShutCtxKeeps(s, c);
    ShutCtxSafe(s, c);
    ReleaseSockSafe(ShutCtx(s, c), s.ctxs[c].sock);
  }

  lemma SameSafe(s: State, s1: State)
    requires Safe(s) && s1.log == s.log && s1.aioBorn == s.aioBorn && s1.ctxAt == s.ctxAt && s1.ops == s.ops
    requires forall a :: Live(s1, a) ==> Live(s, a) && s1.aios[a] == s.aios[a]
    ensures Safe(s1)
  {
    forall a | Live(s1, a) ensures LinkOk(BirthIn(s1, a), a, s1.aios[a], s1.ctxAt, s1.ops) {
      assert LinkOk(BirthIn(s, a), a, s.aios[a], s.ctxAt, s.ops);
    }
  }

  lemma ReleaseCtxSafe(s: State, c: Option<nat>)
    requires Core(s) && Safe(s)
    ensures Safe(ReleaseCtx(s, c))
  {
    if c.Some? && c.value in s.ctxs && !CtxHeld(s, c.value) {
      ResetCtxSafe(s, c.value);
      SameSafe(ResetCtx(s, c.value), ReleaseCtx(s, c));
    }
  }

  lemma ResetAioSafe(s: State, a: nat)
    requires Core(s) && Safe(s) && a in s.aios
    ensures Safe(ResetAio(s, a))
  {
    ShutAioKeeps(s, a);
    ShutAioSafe(s, a);
    ReleaseCtxKeeps(ShutAio(s, a), s.aios[a].onCtx);
    ReleaseCtxSafe(ShutAio(s, a), s.aios[a].onCtx);
    ReleaseSockSafe(ReleaseCtx(ShutAio(s, a), s.aios[a].onCtx), s.aios[a].onSock);
  }

  lemma MoveCtxSafe(s: State, d: nat, c: nat)
    requires Core(s) && Safe(s) && c in s.ctxs && d in s.ctxs && c != d && !Used(s, c)
    ensures Safe(MoveCtxInto(s, d, c))
  {
    var s1 := MoveCtxInto(s, d, c);
    assert CtxOk(c, s.ctxs[c], s.ctxAt, s.ctxBorn, s.socks);
    forall a | Live(s1, a) ensures LinkOk(BirthIn(s1, a), a, s1.aios[a], s1.ctxAt, s1.ops) {
      assert Live(s, a) && LinkOk(BirthIn(s, a), a, s.aios[a], s.ctxAt, s.ops);
    }
  }

  lemma MoveAioSafe(s: State, b: nat, a: nat)
    requires Core(s) && Safe(s) && a in s.aios && b in s.aios && a != b && s.aios[b].aio == None
    requires Live(s, a) ==> BirthIn(s, a).op == None
    ensures Safe(MoveAioInto(s, b, a))
  {
    var s1 := MoveAioInto(s, b, a);
    forall h | Live(s1, h) ensures LinkOk(BirthIn(s1, h), h, s1.aios[h], s1.ctxAt, s1.ops) {
      if h == b {
        assert Live(s, a) && LinkOk(BirthIn(s, a), a, s.aios[a], s.ctxAt, s.ops);
      } else {
        assert Live(s, h) && LinkOk(BirthIn(s, h), h, s.aios[h], s.ctxAt, s.ops);
      }
    }
  }

  lemma OpenCtxSafe(s: State, c: nat, x: nat, r: nat)
    requires Safe(s) && x !in s.ctxAt
    ensures Safe(OpenCtx(s, c, x, r))
  {
    var s1 := OpenCtx(s, c, x, r);
    forall a | Live(s1, a) ensures LinkOk(BirthIn(s1, a), a, s1.aios[a], s1.ctxAt, s1.ops) {
      assert Live(s, a) && LinkOk(BirthIn(s, a), a, s.aios[a], s.ctxAt, s.ops);
    }
  }

  lemma MakeAioLinked(s: State, a: nat, y: nat, anchor: Anchor, op: Option<nat>)
    requires Core(s) && Linked(s) && Makes(s, a, y, anchor, op)
    ensures Linked(MakeAio(AddOp(s, a, op), a, y, anchor, op))
  {
    var s1 := MakeAio(AddOp(s, a, op), a, y, anchor, op);
    forall h | Live(s1, h) ensures LinkOk(BirthIn(s1, h), h, s1.aios[h], s1.ctxAt, s1.ops) {
      if h == a {
        assert anchor.OnCtx? ==> CtxOk(anchor.c, s.ctxs[anchor.c], s.ctxAt, s.ctxBorn, s.socks);
      } else {
        assert AioOk(h, s.aios[h], s.aioAt, s.aioBorn);
        assert Live(s, h) && LinkOk(BirthIn(s, h), h, s.aios[h], s.ctxAt, s.ops);
      }
    }
  }

  lemma MakeAioOrder(s: State, a: nat, y: nat, anchor: Anchor, op: Option<nat>)
    requires Core(s) && HomeOrder(s) && Makes(s, a, y, anchor, op)
    ensures HomeOrder(MakeAio(AddOp(s, a, op), a, y, anchor, op))
  {
    var s1 := MakeAio(AddOp(s, a, op), a, y, anchor, op);
    forall z | z in s1.aioBorn ensures AioOrder(s1.log, z, s1.aioBorn[z]) {
      if z == y {
        var b := s1.aioBorn[y];
        if b.ctx.Some? {
          assert CtxOk(anchor.c, s.ctxs[anchor.c], s.ctxAt, s.ctxBorn, s.socks);
          InLog(s, ClosedCtx(b.ctx.value));
          AfterAbsent(s.log, FreedAio(y), ClosedCtx(b.ctx.value));
        }
        if b.op.Some? {
          InLog(s, FreedContainer(b.op.value));
          AfterAbsent(s.log, FreedAio(y), FreedContainer(b.op.value));
        }
      } else {
        assert AioOrder(s.log, z, s.aioBorn[z]);
      }
    }
  }

  lemma RemoveOpSafe(s: State, o: nat)
    requires Core(s) && Safe(s) && o in s.ops && s.aios[s.ops[o]].aio == None
    ensures Safe(s.(aios := s.aios - {s.ops[o]}, ops := s.ops - {o}, log := s.log + [FreedContainer(o)]))
  {
    var s1 := s.(aios := s.aios - {s.ops[o]}, ops := s.ops - {o}, log := s.log + [FreedContainer(o)]);
    forall y | y in s.aioBorn && s.aioBorn[y].op == Some(o) ensures FreedAio(y) in s.log {
      InLog(s, FreedAio(y));
      LiveAt(s, y);
    }
    HomeOrderAppend(s, s1, FreedContainer(o));
    forall a | Live(s1, a) ensures LinkOk(BirthIn(s1, a), a, s1.aios[a], s1.ctxAt, s1.ops) {
      assert Live(s, a) && LinkOk(BirthIn(s, a), a, s.aios[a], s.ctxAt, s.ops);
    }
  }

  // ── Every step ─────────────────────────────────────────────────────────

  lemma CtxStepSafe(s: State, t: Step)
    requires Core(s) && Safe(s) && Enabled(s, t) && !Rehomes(s, t)
    requires t.NewCtx? || t.EmptyCtx? || t.ShareCtx? || t.DropCtx? || t.MoveCtx? || t.AssignCtx?
    ensures Safe(Next(s, t))
  {
    match t
    case NewCtx(c, x, r) => OpenCtxSafe(s, c, x, r);
    case EmptyCtx(c) => SameSafe(s, Next(s, t));
    case ShareCtx(c) => SameSafe(s, Next(s, t));
    case DropCtx(c) => DropCtxStepSafe(s, c);
    case MoveCtx(d, c) => MoveCtxStepSafe(s, d, c);
    case AssignCtx(d, c) => AssignCtxStepSafe(s, d, c);
  }

  lemma CtxUsersSafe(s: State, c: nat, n: nat)
    requires Safe(s) && c in s.ctxs
    ensures Safe(s.(ctxs := s.ctxs[c := s.ctxs[c].(users := n)]))
  {
    SameSafe(s, s.(ctxs := s.ctxs[c := s.ctxs[c].(users := n)]));
  }

  lemma DropCtxStepSafe(s: State, c: nat)
    requires Core(s) && Safe(s) && Enabled(s, DropCtx(c))
    ensures Safe(Next(s, DropCtx(c)))
  {
    CtxUsersKeep(s, c, s.ctxs[c].users - 1);
    CtxUsersSafe(s, c, s.ctxs[c].users - 1);
    ReleaseCtxSafe(s.(ctxs := s.ctxs[c := s.ctxs[c].(users := s.ctxs[c].users - 1)]), Some(c));
  }

  lemma MoveCtxStepSafe(s: State, d: nat, c: nat)
    requires Core(s) && Safe(s) && Enabled(s, MoveCtx(d, c)) && !Used(s, c)
    ensures Safe(Next(s, MoveCtx(d, c)))
  {
    var s1 := AddCtx(s, d);
    AddCtxKeeps(s, d);
    SameSafe(s, s1);
    NotUsed(s, s1, c);
    MoveCtxSafe(s1, d, c);
  }

  lemma AssignCtxStepSafe(s: State, d: nat, c: nat)
    requires Core(s) && Safe(s) && Enabled(s, AssignCtx(d, c)) && !Rehomes(s, AssignCtx(d, c))
    ensures Safe(Next(s, AssignCtx(d, c)))
  {
    if d != c {
      ResetCtxKeeps(s, d);
      ResetCtxSafe(s, d);
      NotUsed(s, ResetCtx(s, d), c);
      MoveCtxSafe(ResetCtx(s, d), d, c);
    }
  }

  lemma NotUsed(s: State, s1: State, c: nat)
    requires !Used(s, c) && s1.aios == s.aios && s1.aioBorn == s.aioBorn
    ensures !Used(s1, c)
  {
    forall a | Live(s1, a) && s1.aios[a].onCtx == Some(c) ensures !BirthIn(s1, a).ctx.Some? {
      assert Live(s, a);
    }
  }

  lemma AioStepSafe(s: State, t: Step)
    requires Core(s) && Safe(s) && Enabled(s, t) && !Rehomes(s, t)
    requires t.NewAio? || t.EmptyAio? || t.NewOp?
    ensures Safe(Next(s, t))
  {
    match t
    case NewAio(a, y, anchor) =>
      MakeAioLinked(s, a, y, anchor, None);
      MakeAioOrder(s, a, y, anchor, None);
    case EmptyAio(a) => SameSafe(s, Next(s, t));
    case NewOp(o, a, y, anchor) =>
      MakeAioLinked(s, a, y, anchor, Some(o));
      MakeAioOrder(s, a, y, anchor, Some(o));
  }

  lemma AioMoveSafe(s: State, t: Step)
    requires Core(s) && Safe(s) && Enabled(s, t) && !Rehomes(s, t)
    requires t.MoveAio? || t.AssignAio? || t.DropAio? || t.DropOp?
    ensures Safe(Next(s, t))
  {
    match t
    case MoveAio(b, a) => MoveAioStepSafe(s, b, a);
    case AssignAio(b, a) => AssignAioStepSafe(s, b, a);
    case DropAio(a) => DropAioStepSafe(s, a);
    case DropOp(o) => DropOpStepSafe(s, o);
  }

  lemma DropAioStepSafe(s: State, a: nat)
    requires Core(s) && Safe(s) && Enabled(s, DropAio(a))
    ensures Safe(Next(s, DropAio(a)))
  {
    ResetAioSafe(s, a);
    SameSafe(ResetAio(s, a), Next(s, DropAio(a)));
  }

  lemma DropOpStepSafe(s: State, o: nat)
    requires Core(s) && Safe(s) && Enabled(s, DropOp(o))
    ensures Safe(Next(s, DropOp(o)))
  {
    ResetAioKeeps(s, s.ops[o]);
    ResetAioSafe(s, s.ops[o]);
    RemoveOpSafe(ResetAio(s, s.ops[o]), o);
  }

  lemma MoveAioStepSafe(s: State, b: nat, a: nat)
    requires Core(s) && Safe(s) && Enabled(s, MoveAio(b, a)) && (Live(s, a) ==> BirthIn(s, a).op == None)
    ensures Safe(Next(s, MoveAio(b, a)))
  {
    AddAioKeeps(s, b);
    SameSafe(s, AddAio(s, b, None));
    MoveAioSafe(AddAio(s, b, None), b, a);
  }

  lemma AssignAioStepSafe(s: State, b: nat, a: nat)
    requires Core(s) && Safe(s) && Enabled(s, AssignAio(b, a)) && !Rehomes(s, AssignAio(b, a))
    ensures Safe(Next(s, AssignAio(b, a)))
  {
    if b != a {
      ResetAioKeeps(s, b);
      ResetAioSafe(s, b);
      MoveAioSafe(ResetAio(s, b), b, a);
    }
  }

  lemma StepKeepsSafe(s: State, t: Step)
    requires Core(s) && Safe(s) && Enabled(s, t) && !Rehomes(s, t)
    ensures Safe(Next(s, t))
  {
    if t.NewSock? || t.ShareSock? {
      SameSafe(s, Next(s, t));
    } else if t.DropSock? {
      var s1 := s.(socks := s.socks[t.r := s.socks[t.r] - 1]);
      UsersKeep(s, s1);
      SameSafe(s, s1);
      ReleaseSockSafe(s1, Some(t.r));
    } else if t.NewCtx? || t.EmptyCtx? || t.ShareCtx? || t.DropCtx? || t.MoveCtx? || t.AssignCtx? {
      CtxStepSafe(s, t);
    } else if t.NewAio? || t.EmptyAio? || t.NewOp? {
      AioStepSafe(s, t);
    } else {
      AioMoveSafe(s, t);
    }
  }

  /** Each of those moves does break a link. */
  lemma RehomingUnlinks(s: State, t: Step)
    requires Core(s) && Linked(s) && Enabled(s, t) && Rehomes(s, t)
    ensures !Linked(Next(s, t))
  {
    match t
    case MoveCtx(d, c) =>
      var a :| Live(s, a) && s.aios[a].onCtx == Some(c) && BirthIn(s, a).ctx.Some?;
      UsedMoves(s, AddCtx(s, d), d, c, a);
    case AssignCtx(d, c) => AssignUnlinks(s, d, c);
    case MoveAio(b, a) => OwnedMoves(s, AddAio(s, b, None), b, a);
    case AssignAio(b, a) => OwnedMoves(s, ResetAio(s, b), b, a);
  }

  lemma AssignUnlinks(s: State, d: nat, c: nat)
    requires Core(s) && Linked(s) && Enabled(s, AssignCtx(d, c)) && Rehomes(s, AssignCtx(d, c))
    ensures !Linked(Next(s, AssignCtx(d, c)))
  {
    if Used(s, c) {
      var a :| Live(s, a) && s.aios[a].onCtx == Some(c) && BirthIn(s, a).ctx.Some?;
      UsedMoves(s, ResetCtx(s, d), d, c, a);
    } else {
      var a :| Live(s, a) && s.aios[a].onCtx == Some(d) && BirthIn(s, a).ctx.Some?;
      UsedCloses(s, d, c, a);
    }
  }

  lemma OwnedMoves(s: State, s0: State, b: nat, a: nat)
    requires Linked(s) && Live(s, a) && BirthIn(s, a).op.Some? && a != b
    requires a in s0.aios && b in s0.aios && s0.aios[a] == s.aios[a] && s0.aioBorn == s.aioBorn && s0.ops == s.ops
    ensures !Linked(MoveAioInto(s0, b, a))
  {
    var s1 := MoveAioInto(s0, b, a);
    assert LinkOk(BirthIn(s, a), a, s.aios[a], s.ctxAt, s.ops);
    assert Live(s1, b) && !LinkOk(BirthIn(s1, b), b, s1.aios[b], s1.ctxAt, s1.ops);
  }

  lemma UsedMoves(s: State, s0: State, d: nat, c: nat, a: nat)
    requires Core(s) && Linked(s) && Live(s, a) && s.aios[a].onCtx == Some(c) && BirthIn(s, a).ctx.Some?
    requires c in s.ctxs && c != d && d in s0.ctxs && c in s0.ctxs && s0.ctxs[c] == s.ctxs[c]
    requires s0.aios == s.aios && s0.aioBorn == s.aioBorn
    ensures !Linked(MoveCtxInto(s0, d, c))
  {
    assert LinkOk(BirthIn(s, a), a, s.aios[a], s.ctxAt, s.ops);
    var s1 := MoveCtxInto(s0, d, c);
    assert Live(s1, a) && !LinkOk(BirthIn(s1, a), a, s1.aios[a], s1.ctxAt, s1.ops);
  }

  lemma UsedCloses(s: State, d: nat, c: nat, a: nat)
    requires Core(s) && Linked(s) && Live(s, a) && s.aios[a].onCtx == Some(d) && BirthIn(s, a).ctx.Some?
    requires c in s.ctxs && d in s.ctxs && c != d
    ensures !Linked(MoveCtxInto(ResetCtx(s, d), d, c))
  {
    assert LinkOk(BirthIn(s, a), a, s.aios[a], s.ctxAt, s.ops);
    var s1 := MoveCtxInto(ResetCtx(s, d), d, c);
    assert CtxOk(c, s.ctxs[c], s.ctxAt, s.ctxBorn, s.socks);
    assert Live(s1, a) && !LinkOk(BirthIn(s1, a), a, s1.aios[a], s1.ctxAt, s1.ops);
  }
}
