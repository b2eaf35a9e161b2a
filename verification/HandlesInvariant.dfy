/** What every operation on the handles keeps. */
module HandlesInvariant {
  import opened Options
  import opened Handles

  // ── Handles and resources ──────────────────────────────────────────────

  predicate CtxOk(c: nat, p: Ctx, ctxAt: map<nat, Place>, ctxBorn: map<nat, nat>, socks: map<nat, nat>) {
    match p.ctx
    case None => p.sock == None
    case Some(x) =>
      && x in ctxAt && ctxAt[x] == In(c) && x in ctxBorn && p.sock == Some(ctxBorn[x]) && ctxBorn[x] in socks
  }

  predicate AioOk(a: nat, p: Aio, aioAt: map<nat, Place>, aioBorn: map<nat, Birth>) {
    match p.aio
    case None => p.onCtx == None && p.onSock == None
    case Some(y) =>
      && y in aioAt && aioAt[y] == In(a) && y in aioBorn && p.onSock == aioBorn[y].sock
      && (p.onCtx == None || p.onSock == None)
  }

  predicate AnchorsOk(p: Aio, ctxs: map<nat, Ctx>, socks: map<nat, nat>) {
    && (p.onCtx.Some? ==> p.onCtx.value in ctxs)
    && (p.onSock.Some? ==> p.onSock.value in socks)
  }

  predicate OwnerOk(a: nat, p: Aio, ops: map<nat, nat>) {
    p.owner.Some? ==> p.owner.value in ops && ops[p.owner.value] == a
  }

  ghost predicate CtxsInv(s: State) {
    && s.ctxAt.Keys == s.ctxBorn.Keys
    && (forall c :: c in s.ctxs ==> CtxOk(c, s.ctxs[c], s.ctxAt, s.ctxBorn, s.socks))
    && (forall x :: x in s.ctxAt && s.ctxAt[x].In? ==> s.ctxAt[x].h in s.ctxs && s.ctxs[s.ctxAt[x].h].ctx == Some(x))
    && (forall x :: x in s.ctxBorn ==> s.ctxBorn[x] in s.sockIds)
    && (forall r :: r in s.socks ==> r in s.sockIds)
  }

  ghost predicate AiosInv(s: State) {
    && s.aioAt.Keys == s.aioBorn.Keys
    && (forall a :: a in s.aios ==> AioOk(a, s.aios[a], s.aioAt, s.aioBorn) && AnchorsOk(s.aios[a], s.ctxs, s.socks))
    && (forall y :: y in s.aioAt && s.aioAt[y].In? ==> s.aioAt[y].h in s.aios && s.aios[s.aioAt[y].h].aio == Some(y))
    && (forall y :: y in s.aioBorn && s.aioBorn[y].sock.Some? ==> s.aioBorn[y].sock.value in s.sockIds)
  }

  ghost predicate OpsInv(s: State) {
    && (forall o :: o in s.ops ==> o in s.opIds && s.ops[o] in s.aios && s.aios[s.ops[o]].owner == Some(o))
    && (forall a :: a in s.aios ==> OwnerOk(a, s.aios[a], s.ops))
  }

  // ── The log ────────────────────────────────────────────────────────────

  /** Whether a resource has been released, told from the tables. */
  predicate Released(s: State, e: Release) {
    match e
    case FreedAio(y) => y in s.aioAt && s.aioAt[y] == Gone
    case ClosedCtx(x) => x in s.ctxAt && s.ctxAt[x] == Gone
    case ClosedSock(r) => r in s.sockIds && r !in s.socks
    case FreedContainer(o) => o in s.opIds && o !in s.ops
  }

  ghost predicate LogInv(s: State) {
    forall e :: multiset(s.log)[e] == if Released(s, e) then 1 else 0
  }

  /** `late` never comes before `early`. */
  ghost predicate After(log: seq<Release>, early: Release, late: Release) {
    forall i :: 0 <= i < |log| && log[i] == late ==> early in log[..i]
  }

  /** A socket closes after the contexts opened on it and the aios anchored to it. */
  ghost predicate SockOrder(s: State) {
    && (forall x :: x in s.ctxBorn ==> After(s.log, ClosedCtx(x), ClosedSock(s.ctxBorn[x])))
    && (forall y :: y in s.aioBorn && s.aioBorn[y].sock.Some? ==>
          After(s.log, FreedAio(y), ClosedSock(s.aioBorn[y].sock.value)))
  }

  ghost predicate Tables(s: State) {
    CtxsInv(s) && AiosInv(s) && OpsInv(s)
  }

  ghost predicate Core(s: State) {
    Tables(s) && LogInv(s) && SockOrder(s)
  }

  lemma InLog(s: State, e: Release)
    requires LogInv(s)
    ensures e in s.log <==> Released(s, e)
  {
    assert e in s.log <==> e in multiset(s.log);
    assert e in multiset(s.log) <==> multiset(s.log)[e] > 0;
  }

  lemma AfterAppend(log: seq<Release>, e: Release, early: Release, late: Release)
    requires After(log, early, late) && (e == late ==> early in log)
    ensures After(log + [e], early, late)
  {
    var l := log + [e];
    forall i | 0 <= i < |l| && l[i] == late ensures early in l[..i] {
      if i < |log| {
        assert log[i] == late && l[..i] == log[..i];
      } else {
        assert l[..i] == log;
      }
    }
  }

  lemma AfterAbsent(log: seq<Release>, early: Release, late: Release)
    requires late !in log
    ensures After(log, early, late)
  {
  }

  /** One more release, of something not released before. */
  lemma LogAppend(s: State, s1: State, e: Release)
    requires LogInv(s) && s1.log == s.log + [e] && !Released(s, e)
    requires forall f :: Released(s1, f) <==> f == e || Released(s, f)
    ensures LogInv(s1)
  {
    assert multiset(s1.log) == multiset(s.log) + multiset{e};
  }

  lemma SockOrderAppend(s: State, s1: State, e: Release)
    requires SockOrder(s) && s1.log == s.log + [e] && s1.ctxBorn == s.ctxBorn && s1.aioBorn == s.aioBorn
    requires forall x :: x in s.ctxBorn && e == ClosedSock(s.ctxBorn[x]) ==> ClosedCtx(x) in s.log
    requires forall y :: y in s.aioBorn && s.aioBorn[y].sock.Some? && e == ClosedSock(s.aioBorn[y].sock.value) ==>
      FreedAio(y) in s.log
    ensures SockOrder(s1)
  {
    forall x | x in s.ctxBorn ensures After(s1.log, ClosedCtx(x), ClosedSock(s.ctxBorn[x])) {
      AfterAppend(s.log, e, ClosedCtx(x), ClosedSock(s.ctxBorn[x]));
    }
    forall y | y in s.aioBorn && s.aioBorn[y].sock.Some?
      ensures After(s1.log, FreedAio(y), ClosedSock(s.aioBorn[y].sock.value))
    {
      AfterAppend(s.log, e, FreedAio(y), ClosedSock(s.aioBorn[y].sock.value));
    }
  }

  // ── References given up ────────────────────────────────────────────────

  lemma ReleaseSockTables(s: State, r: Option<nat>)
    requires Tables(s)
    ensures Tables(ReleaseSock(s, r))
  {
    var s1 := ReleaseSock(s, r);
    if s1 != s {
      forall c | c in s1.ctxs ensures CtxOk(c, s1.ctxs[c], s1.ctxAt, s1.ctxBorn, s1.socks) {
        assert CtxOk(c, s.ctxs[c], s.ctxAt, s.ctxBorn, s.socks);
      }
      forall a | a in s1.aios ensures AnchorsOk(s1.aios[a], s1.ctxs, s1.socks) {
        assert AnchorsOk(s.aios[a], s.ctxs, s.socks);
      }
    }
  }

  /** Everything made on a socket that nobody holds has been released. */
  lemma UnheldSock(s: State, r: nat)
    requires Tables(s) && LogInv(s) && !SockHeld(s, r)
    ensures forall x :: x in s.ctxBorn && s.ctxBorn[x] == r ==> ClosedCtx(x) in s.log
    ensures forall y :: y in s.aioBorn && s.aioBorn[y].sock == Some(r) ==> FreedAio(y) in s.log
  {
    forall x | x in s.ctxBorn && s.ctxBorn[x] == r ensures ClosedCtx(x) in s.log {
      InLog(s, ClosedCtx(x));
      assert x in s.ctxAt;
    }
    forall y | y in s.aioBorn && s.aioBorn[y].sock == Some(r) ensures FreedAio(y) in s.log {
      InLog(s, FreedAio(y));
      assert y in s.aioAt;
    }
  }

  lemma ReleaseSockKeeps(s: State, r: Option<nat>)
    requires Core(s)
    ensures Core(ReleaseSock(s, r))
  {
    var s1 := ReleaseSock(s, r);
    ReleaseSockTables(s, r);
    if s1 != s {
      UnheldSock(s, r.value);
      SockOrderAppend(s, s1, ClosedSock(r.value));
      LogAppend(s, s1, ClosedSock(r.value));
    }
  }

  lemma ShutCtxTables(s: State, c: nat)
    requires Tables(s) && c in s.ctxs
    ensures Tables(ShutCtx(s, c))
  {
    var s1 := ShutCtx(s, c);
    assert CtxOk(c, s.ctxs[c], s.ctxAt, s.ctxBorn, s.socks);
    forall d | d in s1.ctxs ensures CtxOk(d, s1.ctxs[d], s1.ctxAt, s1.ctxBorn, s1.socks) {
      assert CtxOk(d, s.ctxs[d], s.ctxAt, s.ctxBorn, s.socks);
    }
  }

  lemma ShutCtxLog(s: State, c: nat, x: nat)
    requires LogInv(s) && c in s.ctxs && s.ctxs[c].ctx == Some(x) && x in s.ctxAt && s.ctxAt[x] != Gone
    ensures LogInv(ShutCtx(s, c))
  {
    var s1 := s.(ctxAt := s.ctxAt[x := Gone], log := s.log + [ClosedCtx(x)]);
    forall f ensures Released(s1, f) <==> f == ClosedCtx(x) || Released(s, f) {
      match f
      case FreedAio(_) =>
      case ClosedCtx(_) =>
      case ClosedSock(_) =>
      case FreedContainer(_) =>
    }
    LogAppend(s, s1, ClosedCtx(x));
    assert forall f :: Released(ShutCtx(s, c), f) <==> Released(s1, f);
  }

  lemma ShutCtxKeeps(s: State, c: nat)
    requires Core(s) && c in s.ctxs
    ensures Core(ShutCtx(s, c))
  {
    ShutCtxTables(s, c);
    if s.ctxs[c].ctx.Some? {
      assert CtxOk(c, s.ctxs[c], s.ctxAt, s.ctxBorn, s.socks);
      ShutCtxLog(s, c, s.ctxs[c].ctx.value);
      SockOrderAppend(s, ShutCtx(s, c), ClosedCtx(s.ctxs[c].ctx.value));
    }
  }

  lemma ShutAioTables(s: State, a: nat)
    requires Tables(s) && a in s.aios
    ensures Tables(ShutAio(s, a))
  {
    var s1 := ShutAio(s, a);
    assert AioOk(a, s.aios[a], s.aioAt, s.aioBorn);
    forall b | b in s1.aios
      ensures AioOk(b, s1.aios[b], s1.aioAt, s1.aioBorn) && AnchorsOk(s1.aios[b], s1.ctxs, s1.socks)
    {
      assert AioOk(b, s.aios[b], s.aioAt, s.aioBorn);
    }
    forall b | b in s1.aios ensures OwnerOk(b, s1.aios[b], s1.ops) {
      assert OwnerOk(b, s.aios[b], s.ops);
    }
  }

  lemma ShutAioKeeps(s: State, a: nat)
    requires Core(s) && a in s.aios
    ensures Core(ShutAio(s, a))
  {
    ShutAioTables(s, a);
    if s.aios[a].aio.Some? {
      var e := FreedAio(s.aios[a].aio.value);
      assert AioOk(a, s.aios[a], s.aioAt, s.aioBorn);
      LogAppend(s, ShutAio(s, a), e);
      SockOrderAppend(s, ShutAio(s, a), e);
    }
  }

  lemma ResetCtxKeeps(s: State, c: nat)
    requires Core(s) && c in s.ctxs
    ensures Core(ResetCtx(s, c))
  {
    ShutCtxKeeps(s, c);
    ReleaseSockKeeps(ShutCtx(s, c), s.ctxs[c].sock);
  }

  /** An empty context handle that nothing refers to is destroyed. */
  lemma RemoveCtxKeeps(s: State, c: nat)
    requires Core(s) && c in s.ctxs && s.ctxs[c].ctx == None && !CtxHeld(s, c)
    ensures Core(s.(ctxs := s.ctxs - {c}))
  {
    var s1 := s.(ctxs := s.ctxs - {c});
    forall a | a in s1.aios ensures AnchorsOk(s1.aios[a], s1.ctxs, s1.socks) {
      assert AnchorsOk(s.aios[a], s.ctxs, s.socks);
    }
    SameLog(s, s1);
  }

  lemma SameLog(s: State, s1: State)
    requires LogInv(s) && SockOrder(s) && s1.log == s.log
    requires s1.ctxBorn == s.ctxBorn && s1.aioBorn == s.aioBorn && (forall e :: Released(s1, e) <==> Released(s, e))
    ensures LogInv(s1) && SockOrder(s1)
  {
  }

  lemma ReleaseCtxKeeps(s: State, c: Option<nat>)
    requires Core(s)
    ensures Core(ReleaseCtx(s, c))
  {
    if c.Some? && c.value in s.ctxs && !CtxHeld(s, c.value) {
      ResetCtxKeeps(s, c.value);
      var s1 := ResetCtx(s, c.value);
      RemoveCtxKeeps(s1, c.value);
    }
  }

  lemma ResetAioKeeps(s: State, a: nat)
    requires Core(s) && a in s.aios
    ensures Core(ResetAio(s, a))
  {
    ShutAioKeeps(s, a);
    ReleaseCtxKeeps(ShutAio(s, a), s.aios[a].onCtx);
    ReleaseSockKeeps(ReleaseCtx(ShutAio(s, a), s.aios[a].onCtx), s.aios[a].onSock);
  }

  // ── Moves ──────────────────────────────────────────────────────────────

  lemma MoveCtxTables(s: State, d: nat, c: nat)
    requires Tables(s) && c in s.ctxs && d in s.ctxs && c != d && s.ctxs[d].ctx == None
    ensures Tables(MoveCtxInto(s, d, c))
  {
    var s1 := MoveCtxInto(s, d, c);
    assert CtxOk(c, s.ctxs[c], s.ctxAt, s.ctxBorn, s.socks);
    forall h | h in s1.ctxs ensures CtxOk(h, s1.ctxs[h], s1.ctxAt, s1.ctxBorn, s1.socks) {
      assert CtxOk(h, s.ctxs[h], s.ctxAt, s.ctxBorn, s.socks);
    }
    forall a | a in s1.aios ensures AnchorsOk(s1.aios[a], s1.ctxs, s1.socks) {
      assert AnchorsOk(s.aios[a], s.ctxs, s.socks);
    }
  }

  lemma MoveCtxKeeps(s: State, d: nat, c: nat)
    requires Core(s) && c in s.ctxs && d in s.ctxs && c != d && s.ctxs[d].ctx == None
    ensures Core(MoveCtxInto(s, d, c))
  {
    MoveCtxTables(s, d, c);
    assert CtxOk(c, s.ctxs[c], s.ctxAt, s.ctxBorn, s.socks);
    SameLog(s, MoveCtxInto(s, d, c));
  }

  lemma MoveAioAios(s: State, b: nat, a: nat)
    requires AiosInv(s) && a in s.aios && b in s.aios && a != b && s.aios[b].aio == None
    ensures AiosInv(MoveAioInto(s, b, a))
  {
    var s1 := MoveAioInto(s, b, a);
    assert AioOk(a, s.aios[a], s.aioAt, s.aioBorn) && AnchorsOk(s.aios[a], s.ctxs, s.socks);
    forall h | h in s1.aios
      ensures AioOk(h, s1.aios[h], s1.aioAt, s1.aioBorn) && AnchorsOk(s1.aios[h], s1.ctxs, s1.socks)
    {
      assert AioOk(h, s.aios[h], s.aioAt, s.aioBorn) && AnchorsOk(s.aios[h], s.ctxs, s.socks);
    }
  }

  lemma MoveAioOps(s: State, b: nat, a: nat)
    requires OpsInv(s) && a in s.aios && b in s.aios && a != b
    ensures OpsInv(MoveAioInto(s, b, a))
  {
    var s1 := MoveAioInto(s, b, a);
    forall h | h in s1.aios ensures OwnerOk(h, s1.aios[h], s1.ops) {
      assert OwnerOk(h, s.aios[h], s.ops);
    }
  }

  lemma MoveAioKeeps(s: State, b: nat, a: nat)
    requires Core(s) && a in s.aios && b in s.aios && a != b && s.aios[b].aio == None
    ensures Core(MoveAioInto(s, b, a))
  {
    MoveAioAios(s, b, a);
    MoveAioOps(s, b, a);
    assert AioOk(a, s.aios[a], s.aioAt, s.aioBorn);
    SameLog(s, MoveAioInto(s, b, a));
  }

  // ── Construction and destruction ───────────────────────────────────────

  lemma AddCtxKeeps(s: State, c: nat)
    requires Core(s) && c !in s.ctxs
    ensures Core(AddCtx(s, c))
  {
    SameLog(s, AddCtx(s, c));
  }

  lemma AddAioKeeps(s: State, a: nat)
    requires Core(s) && a !in s.aios
    ensures Core(AddAio(s, a, None))
  {
    AddAioTables(s, a);
    SameLog(s, AddAio(s, a, None));
  }

  lemma AddAioTables(s: State, a: nat)
    requires Tables(s) && a !in s.aios
    ensures Tables(AddAio(s, a, None))
  {
    var s1 := AddAio(s, a, None);
    forall h | h in s1.aios ensures OwnerOk(h, s1.aios[h], s1.ops) {
      assert h != a ==> OwnerOk(h, s.aios[h], s.ops);
    }
    forall h | h in s1.aios ensures AioOk(h, s1.aios[h], s1.aioAt, s1.aioBorn) {
      assert h != a ==> AioOk(h, s.aios[h], s.aioAt, s.aioBorn);
    }
  }

  lemma OpenCtxTables(s: State, c: nat, x: nat, r: nat)
    requires Tables(s) && c !in s.ctxs && x !in s.ctxAt && r in s.socks
    ensures Tables(OpenCtx(s, c, x, r))
  {
    var s1 := OpenCtx(s, c, x, r);
    forall d | d in s1.ctxs ensures CtxOk(d, s1.ctxs[d], s1.ctxAt, s1.ctxBorn, s1.socks) {
      assert d != c ==> CtxOk(d, s.ctxs[d], s.ctxAt, s.ctxBorn, s.socks);
    }
    forall a | a in s1.aios ensures AnchorsOk(s1.aios[a], s1.ctxs, s1.socks) {
      assert AnchorsOk(s.aios[a], s.ctxs, s.socks);
    }
  }

  lemma OpenCtxKeeps(s: State, c: nat, x: nat, r: nat)
    requires Core(s) && c !in s.ctxs && x !in s.ctxAt && r in s.socks
    ensures Core(OpenCtx(s, c, x, r))
  {
    OpenCtxTables(s, c, x, r);
    var s1 := OpenCtx(s, c, x, r);
    InLog(s, ClosedSock(r));
    AfterAbsent(s.log, ClosedCtx(x), ClosedSock(r));
    assert forall e :: Released(s1, e) <==> Released(s, e);
  }

  /** The op and its container, before the aio. */
  function AddOp(s: State, a: nat, op: Option<nat>): State {
    match op
    case None => s
    case Some(o) => s.(ops := s.ops[o := a], opIds := s.opIds + {o})
  }

  predicate Makes(s: State, a: nat, y: nat, anchor: Anchor, op: Option<nat>) {
    a !in s.aios && y !in s.aioAt && AnchorOk(s, anchor) && (op.Some? ==> op.value !in s.opIds)
  }

  lemma MadeAio(s: State, a: nat, y: nat, anchor: Anchor, op: Option<nat>)
    requires AnchorOk(s, anchor)
    ensures var s1 := MakeAio(AddOp(s, a, op), a, y, anchor, op);
      AioOk(a, s1.aios[a], s1.aioAt, s1.aioBorn) && AnchorsOk(s1.aios[a], s1.ctxs, s1.socks)
  {
  }

  lemma MakeAioAios(s: State, a: nat, y: nat, anchor: Anchor, op: Option<nat>)
    requires CtxsInv(s) && AiosInv(s) && Makes(s, a, y, anchor, op)
    ensures AiosInv(MakeAio(AddOp(s, a, op), a, y, anchor, op))
  {
    var s1 := MakeAio(AddOp(s, a, op), a, y, anchor, op);
    MadeAio(s, a, y, anchor, op);
    forall h | h in s1.aios && h != a
      ensures AioOk(h, s1.aios[h], s1.aioAt, s1.aioBorn) && AnchorsOk(s1.aios[h], s1.ctxs, s1.socks)
    {
      assert AioOk(h, s.aios[h], s.aioAt, s.aioBorn) && AnchorsOk(s.aios[h], s.ctxs, s.socks);
    }
    forall z | z in s1.aioAt && s1.aioAt[z].In?
      ensures s1.aioAt[z].h in s1.aios && s1.aios[s1.aioAt[z].h].aio == Some(z)
    {
      assert z != y ==> s.aioAt[z].h in s.aios && s.aios[s.aioAt[z].h].aio == Some(z);
    }
  }

  lemma MakeAioOps(s: State, a: nat, y: nat, anchor: Anchor, op: Option<nat>)
    requires OpsInv(s) && Makes(s, a, y, anchor, op)
    ensures OpsInv(MakeAio(AddOp(s, a, op), a, y, anchor, op))
  {
    var s1 := MakeAio(AddOp(s, a, op), a, y, anchor, op);
    forall h | h in s1.aios ensures OwnerOk(h, s1.aios[h], s1.ops) {
      assert h != a ==> OwnerOk(h, s.aios[h], s.ops);
    }
  }

  lemma MakeAioOrder(s: State, a: nat, y: nat, anchor: Anchor, op: Option<nat>)
    requires LogInv(s) && SockOrder(s) && Makes(s, a, y, anchor, op)
    ensures SockOrder(MakeAio(AddOp(s, a, op), a, y, anchor, op))
  {
    var s1 := MakeAio(AddOp(s, a, op), a, y, anchor, op);
    if anchor.OnSock? {
      InLog(s, ClosedSock(anchor.r));
      AfterAbsent(s.log, FreedAio(y), ClosedSock(anchor.r));
    }
    forall z | z in s1.aioBorn && s1.aioBorn[z].sock.Some?
      ensures After(s1.log, FreedAio(z), ClosedSock(s1.aioBorn[z].sock.value))
    {
      assert z != y ==> z in s.aioBorn && s1.aioBorn[z] == s.aioBorn[z];
    }
  }

  lemma MakeAioLog(s: State, a: nat, y: nat, anchor: Anchor, op: Option<nat>)
    requires LogInv(s) && Makes(s, a, y, anchor, op)
    ensures LogInv(MakeAio(AddOp(s, a, op), a, y, anchor, op))
  {
    var s1 := MakeAio(AddOp(s, a, op), a, y, anchor, op);
    forall e ensures Released(s1, e) <==> Released(s, e) {
      match e
      case FreedAio(z) =>
      case ClosedCtx(x) =>
      case ClosedSock(r) =>
      case FreedContainer(o) =>
    }
  }

  lemma MakeAioKeeps(s: State, a: nat, y: nat, anchor: Anchor, op: Option<nat>)
    requires Core(s) && Makes(s, a, y, anchor, op)
    ensures Core(MakeAio(AddOp(s, a, op), a, y, anchor, op))
  {
    MakeAioAios(s, a, y, anchor, op);
    MakeAioOps(s, a, y, anchor, op);
    MakeAioLog(s, a, y, anchor, op);
    MakeAioOrder(s, a, y, anchor, op);
  }

  lemma RemoveAioKeeps(s: State, a: nat)
    requires Core(s) && a in s.aios && s.aios[a].owner == None && s.aios[a].aio == None
    ensures Core(s.(aios := s.aios - {a}))
  {
    SameLog(s, s.(aios := s.aios - {a}));
  }

  lemma RemoveOpTables(s: State, o: nat)
    requires Tables(s) && o in s.ops && s.aios[s.ops[o]].aio == None
    ensures Tables(s.(aios := s.aios - {s.ops[o]}, ops := s.ops - {o}, log := s.log + [FreedContainer(o)]))
  {
    var a := s.ops[o];
    var s1 := s.(aios := s.aios - {a}, ops := s.ops - {o}, log := s.log + [FreedContainer(o)]);
    forall h | h in s1.aios ensures OwnerOk(h, s1.aios[h], s1.ops) {
      assert OwnerOk(h, s.aios[h], s.ops);
    }
  }

  lemma RemoveOpKeeps(s: State, o: nat)
    requires Core(s) && o in s.ops && s.aios[s.ops[o]].aio == None
    ensures Core(s.(aios := s.aios - {s.ops[o]}, ops := s.ops - {o}, log := s.log + [FreedContainer(o)]))
  {
    RemoveOpTables(s, o);
    var s1 := s.(aios := s.aios - {s.ops[o]}, ops := s.ops - {o}, log := s.log + [FreedContainer(o)]);
    LogAppend(s, s1, FreedContainer(o));
    SockOrderAppend(s, s1, FreedContainer(o));
  }

  lemma UsersKeep(s: State, s1: State)
    requires Core(s) && s1 == s.(socks := s1.socks, ctxs := s1.ctxs)
    requires s1.socks.Keys == s.socks.Keys && s1.ctxs.Keys == s.ctxs.Keys
    requires forall c :: c in s.ctxs ==> s1.ctxs[c] == s.ctxs[c].(users := s1.ctxs[c].users)
    ensures Core(s1)
  {
    forall c | c in s1.ctxs ensures CtxOk(c, s1.ctxs[c], s1.ctxAt, s1.ctxBorn, s1.socks) {
      assert CtxOk(c, s.ctxs[c], s.ctxAt, s.ctxBorn, s.socks);
    }
    forall a | a in s1.aios ensures AnchorsOk(s1.aios[a], s1.ctxs, s1.socks) {
      assert AnchorsOk(s.aios[a], s.ctxs, s.socks);
    }
    SameLog(s, s1);
  }

  lemma NewSockKeeps(s: State, r: nat)
    requires Core(s) && r !in s.sockIds
    ensures Core(Next(s, NewSock(r)))
  {
    var s1 := Next(s, NewSock(r));
    SameLog(s, s1);
  }

  // ── Every step, every run ──────────────────────────────────────────────

  lemma SockStep(s: State, t: Step)
    requires Core(s) && Enabled(s, t) && (t.NewSock? || t.ShareSock? || t.DropSock?)
    ensures Core(Next(s, t))
  {
    match t
    case NewSock(r) => NewSockKeeps(s, r);
    case ShareSock(r) => UsersKeep(s, Next(s, t));
    case DropSock(r) =>
      var s1 := s.(socks := s.socks[r := s.socks[r] - 1]);
      UsersKeep(s, s1);
      ReleaseSockKeeps(s1, Some(r));
  }

  lemma CtxStep(s: State, t: Step)
    requires Core(s) && Enabled(s, t) && (t.NewCtx? || t.EmptyCtx? || t.ShareCtx?)
    ensures Core(Next(s, t))
  {
    match t
    case NewCtx(c, x, r) => OpenCtxKeeps(s, c, x, r);
    case EmptyCtx(c) => AddCtxKeeps(s, c);
    case ShareCtx(c) => CtxUsersKeep(s, c, s.ctxs[c].users + 1);
  }

  lemma CtxMoveStep(s: State, t: Step)
    requires Core(s) && Enabled(s, t) && (t.DropCtx? || t.MoveCtx? || t.AssignCtx?)
    ensures Core(Next(s, t))
  {
    match t
    case DropCtx(c) => DropCtxKeeps(s, c);
    case MoveCtx(d, c) => MoveStepKeeps(s, d, c);
    case AssignCtx(d, c) => AssignStepKeeps(s, d, c);
  }

  /** A caller's reference goes, before anything follows from it. */
  lemma CtxUsersKeep(s: State, c: nat, n: nat)
    requires Core(s) && c in s.ctxs
    ensures Core(s.(ctxs := s.ctxs[c := s.ctxs[c].(users := n)]))
  {
    UsersKeep(s, s.(ctxs := s.ctxs[c := s.ctxs[c].(users := n)]));
  }

  lemma DropCtxKeeps(s: State, c: nat)
    requires Core(s) && Enabled(s, DropCtx(c))
    ensures Core(Next(s, DropCtx(c)))
  {
    CtxUsersKeep(s, c, s.ctxs[c].users - 1);
    ReleaseCtxKeeps(s.(ctxs := s.ctxs[c := s.ctxs[c].(users := s.ctxs[c].users - 1)]), Some(c));
  }

  lemma MoveStepKeeps(s: State, d: nat, c: nat)
    requires Core(s) && Enabled(s, MoveCtx(d, c))
    ensures Core(Next(s, MoveCtx(d, c)))
  {
    AddCtxKeeps(s, d);
    MoveCtxKeeps(AddCtx(s, d), d, c);
  }

  lemma AssignStepKeeps(s: State, d: nat, c: nat)
    requires Core(s) && Enabled(s, AssignCtx(d, c))
    ensures Core(Next(s, AssignCtx(d, c)))
  {
    if d != c {
      ResetCtxKeeps(s, d);
      MoveCtxKeeps(ResetCtx(s, d), d, c);
    }
  }

  lemma AioStep(s: State, t: Step)
    requires Core(s) && Enabled(s, t) && (t.NewAio? || t.EmptyAio? || t.NewOp?)
    ensures Core(Next(s, t))
  {
    match t
    case NewAio(a, y, anchor) => MakeAioKeeps(s, a, y, anchor, None);
    case EmptyAio(a) => AddAioKeeps(s, a);
    case NewOp(o, a, y, anchor) => MakeAioKeeps(s, a, y, anchor, Some(o));
  }

  lemma AioMoveStep(s: State, t: Step)
    requires Core(s) && Enabled(s, t) && (t.MoveAio? || t.AssignAio? || t.DropAio? || t.DropOp?)
    ensures Core(Next(s, t))
  {
    match t
    case MoveAio(b, a) =>
      AddAioKeeps(s, b);
      MoveAioKeeps(AddAio(s, b, None), b, a);
    case AssignAio(b, a) =>
      if b != a {
        ResetAioKeeps(s, b);
        MoveAioKeeps(ResetAio(s, b), b, a);
      }
    case DropAio(a) =>
      ResetAioKeeps(s, a);
      RemoveAioKeeps(ResetAio(s, a), a);
    case DropOp(o) => DropOpKeeps(s, o);
  }

  lemma DropOpKeeps(s: State, o: nat)
    requires Core(s) && Enabled(s, DropOp(o))
    ensures Core(Next(s, DropOp(o)))
  {
    ResetAioKeeps(s, s.ops[o]);
    RemoveOpKeeps(ResetAio(s, s.ops[o]), o);
  }

  lemma StepKeepsCore(s: State, t: Step)
    requires Core(s) && Enabled(s, t)
    ensures Core(Next(s, t))
  {
    if t.NewSock? || t.ShareSock? || t.DropSock? {
      SockStep(s, t);
    } else if t.NewCtx? || t.EmptyCtx? || t.ShareCtx? {
      CtxStep(s, t);
    } else if t.DropCtx? || t.MoveCtx? || t.AssignCtx? {
      CtxMoveStep(s, t);
    } else if t.NewAio? || t.EmptyAio? || t.NewOp? {
      AioStep(s, t);
    } else {
      AioMoveStep(s, t);
    }
  }
}
