/** What holds for every sequence of construct, move, assign and drop. */
module HandlesTheorems {
  import opened Options
  import opened Handles
  import opened HandlesInvariant
  import opened HandlesLinks
  import opened HandlesTidy

  ghost predicate Reachable(s: State) {
    exists trace: seq<Step> :: Run(Init(), trace, s)
  }

  lemma InitInv()
    ensures Core(Init()) && Safe(Init()) && Tidy(Init(), {}, {})
  {
  }

  lemma ReachableInv(s: State)
    requires Reachable(s)
    ensures Core(s) && Tidy(s, {}, {})
  {
    var trace: seq<Step> :| Run(Init(), trace, s);
    InitInv();
    RunKeepsTidy(Init(), trace, s);
  }

  /** The resource an event releases has been acquired. */
  predicate Acquired(s: State, e: Release) {
    match e
    case FreedAio(y) => y in s.aioAt
    case ClosedCtx(x) => x in s.ctxAt
    case ClosedSock(r) => r in s.sockIds
    case FreedContainer(o) => o in s.opIds
  }

  /** Nothing is released twice, and what has not been released sits in exactly one live handle. */
  lemma ReleasedAtMostOnce(s: State)
    requires Reachable(s)
    ensures forall e :: multiset(s.log)[e] <= 1
    ensures forall y :: y in s.aioAt && FreedAio(y) !in s.log ==> Uniquely(s, y, true)
    ensures forall x :: x in s.ctxAt && ClosedCtx(x) !in s.log ==> Uniquely(s, x, false)
    ensures forall a :: a in s.aios && s.aios[a].aio.Some? ==> FreedAio(s.aios[a].aio.value) !in s.log
    ensures forall c :: c in s.ctxs && s.ctxs[c].ctx.Some? ==> ClosedCtx(s.ctxs[c].ctx.value) !in s.log
  {
    ReachableInv(s);
    forall y | y in s.aioAt && FreedAio(y) !in s.log ensures Uniquely(s, y, true) {
      InLog(s, FreedAio(y));
      OneAio(s, y);
    }
    forall x | x in s.ctxAt && ClosedCtx(x) !in s.log ensures Uniquely(s, x, false) {
      InLog(s, ClosedCtx(x));
      OneCtx(s, x);
    }
    forall a | a in s.aios && s.aios[a].aio.Some? ensures FreedAio(s.aios[a].aio.value) !in s.log {
      InLog(s, FreedAio(s.aios[a].aio.value));
      assert AioOk(a, s.aios[a], s.aioAt, s.aioBorn);
    }
    forall c | c in s.ctxs && s.ctxs[c].ctx.Some? ensures ClosedCtx(s.ctxs[c].ctx.value) !in s.log {
      InLog(s, ClosedCtx(s.ctxs[c].ctx.value));
      assert CtxOk(c, s.ctxs[c], s.ctxAt, s.ctxBorn, s.socks);
    }
  }

  /** One and only one handle holds the aio, or the context, with this number. */
  ghost predicate Uniquely(s: State, z: nat, aio: bool) {
    exists h :: Holds(s, h, z, aio) && forall g :: Holds(s, g, z, aio) ==> g == h
  }

  predicate Holds(s: State, h: nat, z: nat, aio: bool) {
    if aio then h in s.aios && s.aios[h].aio == Some(z) else h in s.ctxs && s.ctxs[h].ctx == Some(z)
  }

  lemma OneAio(s: State, y: nat)
    requires Core(s) && y in s.aioAt && s.aioAt[y].In?
    ensures Uniquely(s, y, true)
  {
    assert Holds(s, s.aioAt[y].h, y, true);
    forall g | Holds(s, g, y, true) ensures g == s.aioAt[y].h {
      assert AioOk(g, s.aios[g], s.aioAt, s.aioBorn);
    }
  }

  lemma OneCtx(s: State, x: nat)
    requires Core(s) && x in s.ctxAt && s.ctxAt[x].In?
    ensures Uniquely(s, x, false)
  {
    assert Holds(s, s.ctxAt[x].h, x, false);
    forall g | Holds(s, g, x, false) ensures g == s.ctxAt[x].h {
      assert CtxOk(g, s.ctxs[g], s.ctxAt, s.ctxBorn, s.socks);
    }
  }

  /** When callers hold nothing any more, everything acquired has been released exactly once. */
  lemma EverythingReleasedOnce(s: State, e: Release)
    requires Reachable(s) && s.aios == map[] && s.ops == map[] && Acquired(s, e)
    requires forall c :: c in s.ctxs ==> s.ctxs[c].users == 0
    requires forall r :: r in s.socks ==> s.socks[r] == 0
    ensures multiset(s.log)[e] == 1
  {
    ReachableInv(s);
    assert forall c :: c in s.ctxs ==> CtxHeld(s, c);
    assert s.ctxs.Keys == {};
    assert forall r :: r in s.socks ==> SockHeld(s, r);
    assert s.socks.Keys == {};
    assert Released(s, e);
  }

  /** A socket closes after every context opened on it and every aio anchored to it, however they were moved. */
  lemma SocketsCloseLast(s: State)
    requires Reachable(s)
    ensures forall x :: x in s.ctxBorn ==> After(s.log, ClosedCtx(x), ClosedSock(s.ctxBorn[x]))
    ensures forall y :: y in s.aioBorn && s.aioBorn[y].sock.Some? ==>
      After(s.log, FreedAio(y), ClosedSock(s.aioBorn[y].sock.value))
  {
    ReachableInv(s);
  }

  // ── Contexts and containers ────────────────────────────────────────────

  /** No step of the run moves a context out of, or into, a handle in use, or an aio out of its op. */
  ghost predicate KeepsHomes(s: State, trace: seq<Step>)
    decreases trace
  {
    trace != [] && Enabled(s, trace[0]) ==> !Rehomes(s, trace[0]) && KeepsHomes(Next(s, trace[0]), trace[1..])
  }

  /** Such runs close a context after the aios made on it, and free a container after its aio. */
  lemma {:induction false} HomesKeepOrder(s0: State, trace: seq<Step>, s1: State)
    requires Core(s0) && Safe(s0) && Run(s0, trace, s1) && KeepsHomes(s0, trace)
    ensures Safe(s1)
    decreases trace
  {
    if trace != [] {
      StepKeepsCore(s0, trace[0]);
      StepKeepsSafe(s0, trace[0]);
      HomesKeepOrder(Next(s0, trace[0]), trace[1..], s1);
    }
  }

  lemma ContextsOutliveAios(trace: seq<Step>, s: State)
    requires Run(Init(), trace, s) && KeepsHomes(Init(), trace)
    ensures forall y :: y in s.aioBorn && s.aioBorn[y].ctx.Some? ==>
      After(s.log, FreedAio(y), ClosedCtx(s.aioBorn[y].ctx.value))
    ensures forall y :: y in s.aioBorn && s.aioBorn[y].op.Some? ==>
      After(s.log, FreedAio(y), FreedContainer(s.aioBorn[y].op.value))
  {
    InitInv();
    HomesKeepOrder(Init(), trace, s);
    forall y | y in s.aioBorn ensures AioOrder(s.log, y, s.aioBorn[y]) {
    }
  }

  /** The condition is exact: a step keeps every link if and only if it is none of those moves. */
  lemma LinksKeptExactly(s: State, t: Step)
    requires Core(s) && Safe(s) && Enabled(s, t)
    ensures Linked(Next(s, t)) <==> !Rehomes(s, t)
  {
    if Rehomes(s, t) {
      RehomingUnlinks(s, t);
    } else {
      StepKeepsSafe(s, t);
    }
  }

  /** Dropping the only reference to a context handle closes its context and frees no aio. */
  lemma DropLastCloses(s: State, d: nat)
    requires Core(s) && d in s.ctxs && s.ctxs[d].users == 1 && s.ctxs[d].ctx.Some?
    requires forall b :: b in s.aios ==> s.aios[b].onCtx != Some(d)
    ensures ClosedCtx(s.ctxs[d].ctx.value) in Next(s, DropCtx(d)).log && Next(s, DropCtx(d)).aioAt == s.aioAt
  {
    var s1 := s.(ctxs := s.ctxs[d := s.ctxs[d].(users := 0)]);
    assert !CtxHeld(s1, d);
    StepKeepsCore(s, DropCtx(d));
    InLog(Next(s, DropCtx(d)), ClosedCtx(s.ctxs[d].ctx.value));
  }

  /** From any state: moving out of a handle in use and dropping the new handle closes the context under a live aio. */
  lemma MoveThenDropClosesEarly(s: State, c: nat, d: nat, a: nat)
    requires Core(s) && Safe(s) && Enabled(s, MoveCtx(d, c))
    requires Live(s, a) && s.aios[a].onCtx == Some(c) && BirthIn(s, a).ctx.Some?
    ensures var s1 := Next(s, MoveCtx(d, c));
      && Enabled(s1, DropCtx(d))
      && var s2 := Next(s1, DropCtx(d));
      && ClosedCtx(BirthIn(s, a).ctx.value) in s2.log && FreedAio(s.aios[a].aio.value) !in s2.log
  {
    var s1 := Next(s, MoveCtx(d, c));
    StepKeepsCore(s, MoveCtx(d, c));
    assert LinkOk(BirthIn(s, a), a, s.aios[a], s.ctxAt, s.ops);
    forall b | b in s.aios ensures s.aios[b].onCtx != Some(d) {
      assert AnchorsOk(s.aios[b], s.ctxs, s.socks);
    }
    DropLastCloses(s1, d);
    StepKeepsCore(s1, DropCtx(d));
    InLog(Next(s1, DropCtx(d)), FreedAio(s.aios[a].aio.value));
    assert AioOk(a, s.aios[a], s.aioAt, s.aioBorn);
  }

  /** Likewise for assignment out of a handle in use, when the target has one caller and no aio. */
  lemma AssignThenDropClosesEarly(s: State, d: nat, c: nat, a: nat)
    requires Core(s) && Safe(s) && Enabled(s, AssignCtx(d, c)) && d != c && s.ctxs[d].users == 1
    requires forall b :: b in s.aios ==> s.aios[b].onCtx != Some(d)
    requires Live(s, a) && s.aios[a].onCtx == Some(c) && BirthIn(s, a).ctx.Some?
    ensures var s1 := Next(s, AssignCtx(d, c));
      && Enabled(s1, DropCtx(d))
      && var s2 := Next(s1, DropCtx(d));
      && ClosedCtx(BirthIn(s, a).ctx.value) in s2.log && FreedAio(s.aios[a].aio.value) !in s2.log
  {
    var s1 := Next(s, AssignCtx(d, c));
    StepKeepsCore(s, AssignCtx(d, c));
    assert LinkOk(BirthIn(s, a), a, s.aios[a], s.ctxAt, s.ops);
    AssignTakes(s, d, c);
    DropLastCloses(s1, d);
    StepKeepsCore(s1, DropCtx(d));
    InLog(Next(s1, DropCtx(d)), FreedAio(s.aios[a].aio.value));
    assert AioOk(a, s.aios[a], s.aioAt, s.aioBorn);
  }

  lemma AssignTakes(s: State, d: nat, c: nat)
    requires Core(s) && Enabled(s, AssignCtx(d, c)) && d != c
    ensures var s1 := Next(s, AssignCtx(d, c));
      && d in s1.ctxs && s1.ctxs[d] == Ctx(s.ctxs[c].ctx, s.ctxs[c].sock, s.ctxs[d].users)
      && s1.aios == s.aios && s1.aioAt == s.aioAt
  {
  }

  lemma AssignCloses(s: State, d: nat, c: nat)
    requires Core(s) && Enabled(s, AssignCtx(d, c)) && d != c && s.ctxs[d].ctx.Some?
    ensures Released(Next(s, AssignCtx(d, c)), ClosedCtx(s.ctxs[d].ctx.value))
    ensures Next(s, AssignCtx(d, c)).aioAt == s.aioAt && Next(s, AssignCtx(d, c)).aios == s.aios
  {
    assert CtxOk(c, s.ctxs[c], s.ctxAt, s.ctxBorn, s.socks);
    assert CtxOk(d, s.ctxs[d], s.ctxAt, s.ctxBorn, s.socks);
  }

  /** From any state: assigning to a handle in use closes its context at that very step, under a live aio. */
  lemma AssignClosesEarly(s: State, d: nat, c: nat, a: nat)
    requires Core(s) && Safe(s) && Enabled(s, AssignCtx(d, c)) && d != c
    requires Live(s, a) && s.aios[a].onCtx == Some(d) && BirthIn(s, a).ctx.Some?
    ensures var s1 := Next(s, AssignCtx(d, c));
      ClosedCtx(BirthIn(s, a).ctx.value) in s1.log && FreedAio(s.aios[a].aio.value) !in s1.log
  {
    var s1 := Next(s, AssignCtx(d, c));
    StepKeepsCore(s, AssignCtx(d, c));
    assert LinkOk(BirthIn(s, a), a, s.aios[a], s.ctxAt, s.ops);
    AssignCloses(s, d, c);
    InLog(s1, ClosedCtx(BirthIn(s, a).ctx.value));
    InLog(s1, FreedAio(s.aios[a].aio.value));
    assert AioOk(a, s1.aios[a], s1.aioAt, s1.aioBorn);
  }

  /** From any state: moving an aio out of its op and dropping the op frees the container under a live aio. */
  lemma MoveThenDropFreesContainerEarly(s: State, o: nat, b: nat)
    requires Core(s) && Safe(s) && o in s.ops && b !in s.aios
    requires Live(s, s.ops[o]) && BirthIn(s, s.ops[o]).op == Some(o)
    ensures var s1 := Next(s, MoveAio(b, s.ops[o]));
      && Enabled(s1, DropOp(o))
      && var s2 := Next(s1, DropOp(o));
      && FreedContainer(o) in s2.log && FreedAio(s.aios[s.ops[o]].aio.value) !in s2.log
  {
    var a := s.ops[o];
    StepKeepsCore(s, MoveAio(b, a));
    var s1 := Next(s, MoveAio(b, a));
    assert s1.ops == s.ops && s1.aios[b].aio == s.aios[a].aio && a in s1.aios;
    DropOpSpares(s1, o, b);
  }

  /** Likewise for assignment out of an op. */
  lemma AssignThenDropFreesContainerEarly(s: State, o: nat, b: nat)
    requires Core(s) && Safe(s) && o in s.ops && b in s.aios && b != s.ops[o]
    requires Live(s, s.ops[o]) && BirthIn(s, s.ops[o]).op == Some(o)
    ensures var s1 := Next(s, AssignAio(b, s.ops[o]));
      && Enabled(s1, DropOp(o))
      && var s2 := Next(s1, DropOp(o));
      && FreedContainer(o) in s2.log && FreedAio(s.aios[s.ops[o]].aio.value) !in s2.log
  {
    var a := s.ops[o];
    StepKeepsCore(s, AssignAio(b, a));
    var s1 := Next(s, AssignAio(b, a));
    assert s1.ops == s.ops && s1.aios[b].aio == s.aios[a].aio && a in s1.aios;
    DropOpSpares(s1, o, b);
  }

  /** Dropping an op frees its container and no aio in another handle. */
  lemma DropOpSpares(s: State, o: nat, b: nat)
    requires Core(s) && Enabled(s, DropOp(o)) && b in s.aios && b != s.ops[o] && s.aios[b].aio.Some?
    ensures FreedContainer(o) in Next(s, DropOp(o)).log && FreedAio(s.aios[b].aio.value) !in Next(s, DropOp(o)).log
  {
    StepKeepsCore(s, DropOp(o));
    var s1 := Next(s, DropOp(o));
    assert s1.aios[b] == s.aios[b];
    assert AioOk(b, s1.aios[b], s1.aioAt, s1.aioBorn);
    InLog(s1, FreedAio(s.aios[b].aio.value));
  }

  lemma ReachableNext(s: State, t: Step)
    requires Reachable(s) && Enabled(s, t)
    ensures Reachable(Next(s, t))
  {
    var trace: seq<Step> :| Run(Init(), trace, s);
    RunSnoc(Init(), trace, s, t);
  }

  lemma {:induction false} RunSnoc(s0: State, trace: seq<Step>, s: State, t: Step)
    requires Run(s0, trace, s) && Enabled(s, t)
    ensures Run(s0, trace + [t], Next(s, t))
    decreases trace
  {
    if trace == [] {
      assert [t][1..] == [];
      assert Run(Next(s, t), [], Next(s, t));
    } else {
      RunSnoc(Next(s0, trace[0]), trace[1..], s, t);
      assert (trace + [t])[1..] == trace[1..] + [t];
    }
  }

  /** A reachable, safe state stays so under a harmless step. */
  lemma Harmless(s: State, t: Step)
    requires Reachable(s) && Safe(s) && Enabled(s, t) && !Rehomes(s, t)
    ensures Reachable(Next(s, t)) && Safe(Next(s, t))
  {
    ReachableInv(s);
    StepKeepsSafe(s, t);
    ReachableNext(s, t);
  }

  lemma OpenContext() returns (s: State)
    ensures Reachable(s) && Safe(s) && s.aios == map[] && s.aioAt == map[]
    ensures s.ctxs == map[0 := Ctx(Some(0), Some(0), 1)] && s.ctxAt == map[0 := In(0)]
  {
    InitInv();
    assert Run(Init(), [], Init());
    Harmless(Init(), NewSock(0));
    var s1 := Next(Init(), NewSock(0));
    Harmless(s1, NewCtx(0, 0, 0));
    s := Next(s1, NewCtx(0, 0, 0));
  }

  /** A socket, a context on it, an aio on the context. */
  lemma AnchoredAio() returns (s: State)
    ensures Reachable(s) && Safe(s) && Enabled(s, MoveCtx(1, 0))
    ensures Live(s, 0) && s.aios[0].aio == Some(0) && s.aios[0].onCtx == Some(0) && BirthIn(s, 0).ctx == Some(0)
  {
    var s2 := OpenContext();
    Harmless(s2, NewAio(0, 0, OnCtx(0)));
    s := Next(s2, NewAio(0, 0, OnCtx(0)));
  }

  /** So the ordering is false without the condition. */
  lemma EarlyCloseIsReachable()
    ensures exists s: State ::
      && Reachable(s) && 0 in s.aioBorn && s.aioBorn[0].ctx == Some(0)
      && ClosedCtx(0) in s.log && FreedAio(0) !in s.log
  {
    var s := AnchoredAio();
    ReachableInv(s);
    MoveThenDropClosesEarly(s, 0, 1, 0);
    ReachableNext(s, MoveCtx(1, 0));
    var s1 := Next(s, MoveCtx(1, 0));
    ReachableNext(s1, DropCtx(1));
    assert Next(s1, DropCtx(1)).aioBorn == s.aioBorn;
  }
}
