/**
 The handles as objects updated in place, with the strong counts that the control blocks of
 shared_ptr really keep.  Every method is proved to do what the ownership graph of module
 Handles does, where a count is zero exactly when nobody refers to the object.
 */
module HandleObjects {
  import opened Options
  import opened Handles
  import opened HandlesInvariant

  // ── Counting references ────────────────────────────────────────────────

  function CtxsOn(ctxs: map<nat, Ctx>, r: nat): set<nat> {
    set c | c in ctxs && ctxs[c].sock == Some(r)
  }

  function AiosOnSock(aios: map<nat, Aio>, r: nat): set<nat> {
    set a | a in aios && aios[a].onSock == Some(r)
  }

  function AiosOnCtx(aios: map<nat, Aio>, c: nat): set<nat> {
    set a | a in aios && aios[a].onCtx == Some(c)
  }

  function SockCount(s: State, r: nat): nat
    requires r in s.socks
  {
    s.socks[r] + |CtxsOn(s.ctxs, r)| + |AiosOnSock(s.aios, r)|
  }

  function CtxCount(s: State, c: nat): nat
    requires c in s.ctxs
  {
    s.ctxs[c].users + |AiosOnCtx(s.aios, c)|
  }

  /** A count is zero exactly when nobody holds the object. */
  lemma SockCountZero(s: State, r: nat)
    requires r in s.socks
    ensures SockCount(s, r) == 0 <==> !SockHeld(s, r)
  {
    if c :| c in s.ctxs && s.ctxs[c].sock == Some(r) {
      assert c in CtxsOn(s.ctxs, r);
    }
    if a :| a in s.aios && s.aios[a].onSock == Some(r) {
      assert a in AiosOnSock(s.aios, r);
    }
    if !SockHeld(s, r) {
      assert CtxsOn(s.ctxs, r) == {} && AiosOnSock(s.aios, r) == {};
    }
  }

  lemma CtxCountZero(s: State, c: nat)
    requires c in s.ctxs
    ensures CtxCount(s, c) == 0 <==> !CtxHeld(s, c)
  {
    if a :| a in s.aios && s.aios[a].onCtx == Some(c) {
      assert a in AiosOnCtx(s.aios, c);
    }
    if !CtxHeld(s, c) {
      assert AiosOnCtx(s.aios, c) == {};
    }
  }

  function One(b: bool): nat {
    if b then 1 else 0
  }

  lemma Recount(before: set<nat>, after: set<nat>, h: nat)
    requires forall x :: x != h ==> (x in before <==> x in after)
    ensures |after| + One(h in before) == |before| + One(h in after)
  {
    var rest := before - {h};
    assert before == if h in before then rest + {h} else rest;
    assert after == if h in after then rest + {h} else rest;
  }

  /** One handle changes: the counts change by its references. */
  lemma CtxsOnSet(ctxs: map<nat, Ctx>, c: nat, p: Ctx, r: nat)
    ensures |CtxsOn(ctxs[c := p], r)| + One(c in ctxs && ctxs[c].sock == Some(r))
         == |CtxsOn(ctxs, r)| + One(p.sock == Some(r))
  {
    Recount(CtxsOn(ctxs, r), CtxsOn(ctxs[c := p], r), c);
  }

  lemma CtxsOnRemove(ctxs: map<nat, Ctx>, c: nat, r: nat)
    requires c in ctxs && ctxs[c].sock == None
    ensures CtxsOn(ctxs - {c}, r) == CtxsOn(ctxs, r)
  {
  }

  lemma AiosOnSet(aios: map<nat, Aio>, a: nat, p: Aio, h: nat)
    ensures |AiosOnSock(aios[a := p], h)| + One(a in aios && aios[a].onSock == Some(h))
         == |AiosOnSock(aios, h)| + One(p.onSock == Some(h))
    ensures |AiosOnCtx(aios[a := p], h)| + One(a in aios && aios[a].onCtx == Some(h))
         == |AiosOnCtx(aios, h)| + One(p.onCtx == Some(h))
  {
    Recount(AiosOnSock(aios, h), AiosOnSock(aios[a := p], h), a);
    Recount(AiosOnCtx(aios, h), AiosOnCtx(aios[a := p], h), a);
  }

  lemma AiosOnRemove(aios: map<nat, Aio>, a: nat, h: nat)
    requires a in aios && aios[a].onSock == None && aios[a].onCtx == None
    ensures AiosOnSock(aios - {a}, h) == AiosOnSock(aios, h) && AiosOnCtx(aios - {a}, h) == AiosOnCtx(aios, h)
  {
  }

  // ── The objects ────────────────────────────────────────────────────────

  type Refs = map<nat, nat>
  type Due = multiset<nat>

  const NOTHING: Due := multiset{}   // no reference is due to be counted down

  datatype CtxFields = CtxFields(ctx: Option<nat>, socket: Option<nat>)

  datatype AioFields = AioFields(aio: Option<nat>, onCtx: Option<nat>, onSock: Option<nat>)

  function Owed(h: Option<nat>): multiset<nat> {
    if h.Some? then multiset{h.value} else multiset{}
  }

  ghost predicate CountsOk(s: State, ctxRefs: Refs, sockRefs: Refs, cs: Due, rs: Due) {
    && sockRefs.Keys == s.socks.Keys && (forall r :: r in s.socks ==> sockRefs[r] == SockCount(s, r) + rs[r])
    && ctxRefs.Keys == s.ctxs.Keys && (forall c :: c in s.ctxs ==> ctxRefs[c] == CtxCount(s, c) + cs[c])
  }

  ghost predicate FieldsOk(s: State, ctxs: map<nat, CtxFields>, aios: map<nat, AioFields>) {
    && ctxs.Keys == s.ctxs.Keys
    && (forall c :: c in s.ctxs ==> ctxs[c] == CtxFields(s.ctxs[c].ctx, s.ctxs[c].sock))
    && aios.Keys == s.aios.Keys
    && (forall a :: a in s.aios ==> aios[a] == AioFields(s.aios[a].aio, s.aios[a].onCtx, s.aios[a].onSock))
  }

  /** What the references of a handle point to exists; an aio has at most one anchor. */
  ghost predicate Pointing(s: State) {
    && (forall c :: c in s.ctxs && s.ctxs[c].sock.Some? ==> s.ctxs[c].sock.value in s.socks)
    && (forall a :: a in s.aios ==>
          AnchorsOk(s.aios[a], s.ctxs, s.socks) && (s.aios[a].onCtx == None || s.aios[a].onSock == None))
  }

  lemma CorePoints(s: State)
    requires Core(s)
    ensures Pointing(s)
  {
    forall c | c in s.ctxs && s.ctxs[c].sock.Some? ensures s.ctxs[c].sock.value in s.socks {
      assert CtxOk(c, s.ctxs[c], s.ctxAt, s.ctxBorn, s.socks);
    }
    forall a | a in s.aios ensures s.aios[a].onCtx == None || s.aios[a].onSock == None {
      assert AioOk(a, s.aios[a], s.aioAt, s.aioBorn);
    }
  }

  // ── What each change does to the fields ────────────────────────────────

  lemma ShutCtxFields(s: State, ctxs: map<nat, CtxFields>, aios: map<nat, AioFields>, c: nat)
    requires FieldsOk(s, ctxs, aios) && c in s.ctxs
    ensures FieldsOk(ShutCtx(s, c), ctxs[c := CtxFields(None, None)], aios)
    ensures ShutCtx(s, c).log == s.log + if s.ctxs[c].ctx.Some? then [ClosedCtx(s.ctxs[c].ctx.value)] else []
    ensures ShutCtx(s, c).socks == s.socks
  {
  }

  lemma MoveCtxFields(s: State, ctxs: map<nat, CtxFields>, aios: map<nat, AioFields>, d: nat, c: nat)
    requires FieldsOk(s, ctxs, aios) && c in s.ctxs && d in s.ctxs && c != d
    ensures FieldsOk(MoveCtxInto(s, d, c), ctxs[d := ctxs[c]][c := CtxFields(None, None)], aios)
    ensures MoveCtxInto(s, d, c).log == s.log
  {
  }

  lemma ShutAioFields(s: State, ctxs: map<nat, CtxFields>, aios: map<nat, AioFields>, a: nat)
    requires FieldsOk(s, ctxs, aios) && a in s.aios
    ensures FieldsOk(ShutAio(s, a), ctxs, aios[a := AioFields(None, None, None)])
    ensures ShutAio(s, a).log == s.log + if s.aios[a].aio.Some? then [FreedAio(s.aios[a].aio.value)] else []
  {
  }

  // ── What each change does to the counts ────────────────────────────────

  /** The count of a socket goes down by the reference that was given up. */
  lemma CountDownSock(s: State, cr: Refs, sr: Refs, cs: Due, r: nat)
    requires CountsOk(s, cr, sr, cs, multiset{r}) && r in s.socks
    ensures sr[r] > 0 && (sr[r] == 1 <==> !SockHeld(s, r))
    ensures sr[r] > 1 ==> CountsOk(s, cr, sr[r := sr[r] - 1], cs, NOTHING)
    ensures sr[r] == 1 ==> CountsOk(ReleaseSock(s, Some(r)), cr, sr - {r}, cs, NOTHING)
  {
    SockCountZero(s, r);
    if sr[r] == 1 {
      LastSock(s, cr, sr, cs, r);
    }
  }

  lemma LastSock(s: State, cr: Refs, sr: Refs, cs: Due, r: nat)
    requires CountsOk(s, cr, sr, cs, multiset{r}) && r in s.socks && !SockHeld(s, r)
    ensures CountsOk(ReleaseSock(s, Some(r)), cr, sr - {r}, cs, NOTHING)
  {
    var s1 := ReleaseSock(s, Some(r));
    assert s1.socks == s.socks - {r};
    forall q | q in s1.socks ensures (sr - {r})[q] == SockCount(s1, q) + NOTHING[q] {
      assert sr[q] == SockCount(s, q) + multiset{r}[q];
    }
    forall c | c in s1.ctxs ensures cr[c] == CtxCount(s1, c) + cs[c] {
      assert cr[c] == CtxCount(s, c) + cs[c];
    }
  }

  lemma CountDownCtx(s: State, cr: Refs, sr: Refs, c: nat)
    requires CountsOk(s, cr, sr, multiset{c}, NOTHING) && c in s.ctxs
    ensures cr[c] > 0 && (cr[c] == 1 <==> !CtxHeld(s, c))
    ensures CountsOk(s, cr[c := cr[c] - 1], sr, NOTHING, NOTHING)
  {
    CtxCountZero(s, c);
  }

  lemma ShutCtxCounts(s: State, cr: Refs, sr: Refs, c: nat)
    requires CountsOk(s, cr, sr, NOTHING, NOTHING) && c in s.ctxs
    ensures CountsOk(ShutCtx(s, c), cr, sr, NOTHING, Owed(s.ctxs[c].sock))
  {
    var s1 := ShutCtx(s, c);
    forall r | r in s.socks ensures SockCount(s1, r) + Owed(s.ctxs[c].sock)[r] == SockCount(s, r) {
      CtxsOnSet(s.ctxs, c, Ctx(None, None, s.ctxs[c].users), r);
    }
    assert forall d :: d in s.ctxs ==> CtxCount(s1, d) == CtxCount(s, d);
  }

  lemma RemoveCtxCounts(s: State, cr: Refs, sr: Refs, c: nat)
    requires CountsOk(s, cr, sr, NOTHING, NOTHING) && c in s.ctxs && s.ctxs[c].sock == None
    ensures CountsOk(s.(ctxs := s.ctxs - {c}), cr - {c}, sr, NOTHING, NOTHING)
  {
    var s1 := s.(ctxs := s.ctxs - {c});
    forall r | r in s.socks ensures SockCount(s1, r) == SockCount(s, r) {
      CtxsOnRemove(s.ctxs, c, r);
    }
    assert forall d :: d in s1.ctxs ==> CtxCount(s1, d) == CtxCount(s, d);
  }

  lemma ShutAioCounts(s: State, cr: Refs, sr: Refs, a: nat)
    requires CountsOk(s, cr, sr, NOTHING, NOTHING) && a in s.aios
    ensures CountsOk(ShutAio(s, a), cr, sr, Owed(s.aios[a].onCtx), Owed(s.aios[a].onSock))
  {
    var s1 := ShutAio(s, a);
    var empty := Aio(None, None, None, s.aios[a].owner);
    forall r | r in s.socks ensures SockCount(s1, r) + Owed(s.aios[a].onSock)[r] == SockCount(s, r) {
      AiosOnSet(s.aios, a, empty, r);
    }
    forall c | c in s.ctxs ensures CtxCount(s1, c) + Owed(s.aios[a].onCtx)[c] == CtxCount(s, c) {
      AiosOnSet(s.aios, a, empty, c);
    }
  }

  lemma RemoveAioCounts(s: State, cr: Refs, sr: Refs, a: nat)
    requires CountsOk(s, cr, sr, NOTHING, NOTHING) && a in s.aios && s.aios[a].onCtx == None && s.aios[a].onSock == None
    ensures CountsOk(s.(aios := s.aios - {a}), cr, sr, NOTHING, NOTHING)
  {
    var s1 := s.(aios := s.aios - {a});
    forall r | r in s.socks ensures SockCount(s1, r) == SockCount(s, r) {
      AiosOnRemove(s.aios, a, r);
    }
    forall c | c in s.ctxs ensures CtxCount(s1, c) == CtxCount(s, c) {
      AiosOnRemove(s.aios, a, c);
    }
  }

  /** A reference that moves is counted once, before and after. */
  lemma MoveCtxCounts(s: State, cr: Refs, sr: Refs, d: nat, c: nat)
    requires CountsOk(s, cr, sr, NOTHING, NOTHING) && c in s.ctxs && d in s.ctxs && c != d && s.ctxs[d].sock == None
    ensures CountsOk(MoveCtxInto(s, d, c), cr, sr, NOTHING, NOTHING)
  {
    var s1 := MoveCtxInto(s, d, c);
    var p := Ctx(s.ctxs[c].ctx, s.ctxs[c].sock, s.ctxs[d].users);
    forall r | r in s.socks ensures SockCount(s1, r) == SockCount(s, r) {
      CtxsOnSet(s.ctxs, d, p, r);
      CtxsOnSet(s.ctxs[d := p], c, Ctx(None, None, s.ctxs[c].users), r);
    }
    assert forall h :: h in s.ctxs ==> CtxCount(s1, h) == CtxCount(s, h);
  }

  lemma MoveAioCounts(s: State, cr: Refs, sr: Refs, b: nat, a: nat)
    requires CountsOk(s, cr, sr, NOTHING, NOTHING) && a in s.aios && b in s.aios && a != b
    requires s.aios[b].onCtx == None && s.aios[b].onSock == None
    ensures CountsOk(MoveAioInto(s, b, a), cr, sr, NOTHING, NOTHING)
  {
    var s1 := MoveAioInto(s, b, a);
    var p := Aio(s.aios[a].aio, s.aios[a].onCtx, s.aios[a].onSock, s.aios[b].owner);
    var empty := Aio(None, None, None, s.aios[a].owner);
    forall r | r in s.socks ensures SockCount(s1, r) == SockCount(s, r) {
      AiosOnSet(s.aios, b, p, r);
      AiosOnSet(s.aios[b := p], a, empty, r);
    }
    forall c | c in s.ctxs ensures CtxCount(s1, c) == CtxCount(s, c) {
      AiosOnSet(s.aios, b, p, c);
      AiosOnSet(s.aios[b := p], a, empty, c);
    }
  }

  lemma SockUserCounts(s: State, cr: Refs, sr: Refs, r: nat)
    requires CountsOk(s, cr, sr, NOTHING, NOTHING) && r in s.socks && s.socks[r] > 0
    ensures CountsOk(s.(socks := s.socks[r := s.socks[r] - 1]), cr, sr, NOTHING, multiset{r})
  {
    var s1 := s.(socks := s.socks[r := s.socks[r] - 1]);
    forall q | q in s1.socks ensures sr[q] == SockCount(s1, q) + multiset{r}[q] {
      assert sr[q] == SockCount(s, q) + NOTHING[q];
    }
    forall c | c in s1.ctxs ensures cr[c] == CtxCount(s1, c) + NOTHING[c] {
      assert cr[c] == CtxCount(s, c) + NOTHING[c];
    }
  }

  lemma CtxUserCounts(s: State, cr: Refs, sr: Refs, c: nat)
    requires CountsOk(s, cr, sr, NOTHING, NOTHING) && c in s.ctxs && s.ctxs[c].users > 0
    ensures CountsOk(s.(ctxs := s.ctxs[c := s.ctxs[c].(users := s.ctxs[c].users - 1)]), cr, sr, multiset{c}, NOTHING)
  {
    var p := s.ctxs[c].(users := s.ctxs[c].users - 1);
    var s1 := s.(ctxs := s.ctxs[c := p]);
    forall r | r in s.socks ensures SockCount(s1, r) == SockCount(s, r) {
      CtxsOnSet(s.ctxs, c, p, r);
    }
    forall d | d in s1.ctxs ensures cr[d] == CtxCount(s1, d) + multiset{c}[d] {
      assert cr[d] == CtxCount(s, d) + NOTHING[d];
    }
  }

  // ── The heap ───────────────────────────────────────────────────────────

  class HandleHeap {
    var ctxs: map<nat, CtxFields>
    var aios: map<nat, AioFields>
    var ctxRefs: Refs        // strong counts of the ContextHandle objects
    var sockRefs: Refs       // strong counts of the open SocketHandle objects
    var log: seq<Release>

    /** The heap shows `s`, apart from references given up but not yet counted down. */
    ghost predicate Owes(s: State, cs: Due, rs: Due)
      reads this
    {
      log == s.log && FieldsOk(s, ctxs, aios) && CountsOk(s, ctxRefs, sockRefs, cs, rs)
    }

    ghost predicate Shows(s: State)
      reads this
    {
      Owes(s, NOTHING, NOTHING)
    }

    constructor ()
      ensures Shows(Init())
    {
      ctxs, aios, ctxRefs, sockRefs, log := map[], map[], map[], map[], [];
    }

    /** A shared_ptr to a socket handle is reset: at zero ~SocketHandle closes the socket. */
    method GiveUpSock(r: Option<nat>, ghost s: State, ghost cs: Due)
      requires Owes(s, cs, Owed(r)) && (r.Some? ==> r.value in s.socks)
      modifies this`sockRefs, this`log
      ensures Owes(ReleaseSock(s, r), cs, NOTHING)
    {
      if r.None? {
        return;
      }
      CountDownSock(s, ctxRefs, sockRefs, cs, r.value);
      if sockRefs[r.value] == 1 {
        log := log + [ClosedSock(r.value)];
        sockRefs := sockRefs - {r.value};
      } else {
        sockRefs := sockRefs[r.value := sockRefs[r.value] - 1];
      }
    }

    /** close_if_open, then the socket reference of the handle goes. */
    method CloseCtx(c: nat, ghost s: State)
      requires Shows(s) && c in s.ctxs && (s.ctxs[c].sock.Some? ==> s.ctxs[c].sock.value in s.socks)
      modifies this`ctxs, this`sockRefs, this`log
      ensures Shows(ResetCtx(s, c))
    {
      var fields := Empty(c, s);
      GiveUpSock(fields.socket, ShutCtx(s, c), NOTHING);
    }

    /** close_if_open on the handle's own fields. */
    method Empty(c: nat, ghost s: State) returns (fields: CtxFields)
      requires Shows(s) && c in s.ctxs
      modifies this`ctxs, this`log
      ensures fields == CtxFields(s.ctxs[c].ctx, s.ctxs[c].sock)
      ensures Owes(ShutCtx(s, c), NOTHING, Owed(s.ctxs[c].sock))
    {
      ShutCtxCounts(s, ctxRefs, sockRefs, c);
      ShutCtxFields(s, ctxs, aios, c);
      fields := ctxs[c];
      ctxs := ctxs[c := CtxFields(None, None)];
      if fields.ctx.Some? {
        log := log + [ClosedCtx(fields.ctx.value)];
      } else {
        assert log + [] == log;
      }
    }

    /** A shared_ptr to a context handle is reset: at zero the handle is destroyed. */
    method GiveUpCtx(c: Option<nat>, ghost s: State)
      requires Owes(s, Owed(c), NOTHING) && (c.Some? ==> c.value in s.ctxs)
      requires c.Some? && s.ctxs[c.value].sock.Some? ==> s.ctxs[c.value].sock.value in s.socks
      modifies this`ctxs, this`ctxRefs, this`sockRefs, this`log
      ensures Shows(ReleaseCtx(s, c))
    {
      if c.None? {
        return;
      }
      CountDownCtx(s, ctxRefs, sockRefs, c.value);
      ctxRefs := ctxRefs[c.value := ctxRefs[c.value] - 1];
      if ctxRefs[c.value] == 0 {
        CloseCtx(c.value, s);
        Erase(c.value, ResetCtx(s, c.value));
      }
    }

    /** The memory of an empty context handle is returned. */
    method Erase(c: nat, ghost s: State)
      requires Shows(s) && c in s.ctxs && s.ctxs[c].sock == None
      modifies this`ctxs, this`ctxRefs
      ensures Shows(s.(ctxs := s.ctxs - {c}))
    {
      RemoveCtxCounts(s, ctxRefs, sockRefs, c);
      ctxs := ctxs - {c};
      ctxRefs := ctxRefs - {c};
    }

    /** destroy(): the aio is freed, then the anchor (there is at most one) is reset. */
    method Destroy(a: nat, ghost s: State)
      requires Shows(s) && Pointing(s) && a in s.aios
      modifies this
      ensures Shows(ResetAio(s, a))
    {
      ShutAioCounts(s, ctxRefs, sockRefs, a);
      ShutAioFields(s, ctxs, aios, a);
      var fields := aios[a];
      if fields.aio.Some? {
        log := log + [FreedAio(fields.aio.value)];
      }
      aios := aios[a := AioFields(None, None, None)];
      if fields.onSock == None {
        GiveUpCtx(fields.onCtx, ShutAio(s, a));
      } else {
        GiveUpSock(fields.onSock, ShutAio(s, a), NOTHING);
      }
    }

    /** The memory of an empty aio handle is returned. */
    method EraseAio(a: nat, ghost s: State)
      requires Shows(s) && a in s.aios && s.aios[a].onCtx == None && s.aios[a].onSock == None
      modifies this`aios
      ensures Shows(s.(aios := s.aios - {a}))
    {
      RemoveAioCounts(s, ctxRefs, sockRefs, a);
      aios := aios - {a};
    }

    /** ~AioHandle. */
    method DropAio(a: nat, ghost s: State)
      requires Shows(s) && Core(s) && a in s.aios
      modifies this
      ensures Shows(Dispose(s, a))
    {
      CorePoints(s);
      Destroy(a, s);
      EraseAio(a, ResetAio(s, a));
    }

    /** Move construction or assignment into a handle that is empty. */
    method TakeCtx(d: nat, c: nat, ghost s: State)
      requires Shows(s) && c in s.ctxs && d in s.ctxs && c != d && s.ctxs[d].sock == None
      modifies this`ctxs
      ensures Shows(MoveCtxInto(s, d, c))
    {
      MoveCtxCounts(s, ctxRefs, sockRefs, d, c);
      MoveCtxFields(s, ctxs, aios, d, c);
      ghost var s1 := MoveCtxInto(s, d, c);
      ctxs := ctxs[d := ctxs[c]][c := CtxFields(None, None)];
      assert FieldsOk(s1, ctxs, aios) && CountsOk(s1, ctxRefs, sockRefs, NOTHING, NOTHING);
    }

    method TakeAio(b: nat, a: nat, ghost s: State)
      requires Shows(s) && a in s.aios && b in s.aios && a != b && s.aios[b].onCtx == None && s.aios[b].onSock == None
      modifies this`aios
      ensures Shows(MoveAioInto(s, b, a))
    {
      MoveAioCounts(s, ctxRefs, sockRefs, b, a);
      aios := aios[b := aios[a]][a := AioFields(None, None, None)];
    }

    /** A caller's shared_ptr to a socket goes. */
    method DropSocket(r: nat, ghost s: State)
      requires Shows(s) && Enabled(s, DropSock(r))
      modifies this`sockRefs, this`log
      ensures Shows(Next(s, DropSock(r)))
    {
      SockUserCounts(s, ctxRefs, sockRefs, r);
      GiveUpSock(Some(r), s.(socks := s.socks[r := s.socks[r] - 1]), NOTHING);
    }

    /** A caller's shared_ptr to a context handle goes. */
    method DropContext(c: nat, ghost s: State)
      requires Shows(s) && Core(s) && Enabled(s, DropCtx(c))
      modifies this
      ensures Shows(Next(s, DropCtx(c)))
    {
      CorePoints(s);
      CtxUserCounts(s, ctxRefs, sockRefs, c);
      GiveUpCtx(Some(c), s.(ctxs := s.ctxs[c := s.ctxs[c].(users := s.ctxs[c].users - 1)]));
    }

    /** ContextHandle's move assignment does what the graph does, down to the socket it may close. */
    method AssignContext(d: nat, c: nat, ghost s: State)
      requires Shows(s) && Core(s) && Enabled(s, AssignCtx(d, c))
      modifies this
      ensures Shows(Next(s, AssignCtx(d, c)))
    {
      CorePoints(s);
      if d != c {
        CloseCtx(d, s);
        TakeCtx(d, c, ResetCtx(s, d));
      }
    }

    /** AioHandle's move assignment, down to the context and socket its old anchor may close. */
    method AssignHandle(b: nat, a: nat, ghost s: State)
      requires Shows(s) && Core(s) && Enabled(s, AssignAio(b, a))
      modifies this
      ensures Shows(Next(s, AssignAio(b, a)))
    {
      CorePoints(s);
      if b != a {
        Destroy(b, s);
        TakeAio(b, a, ResetAio(s, b));
      }
    }
  }
}
