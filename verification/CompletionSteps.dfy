/** Every step of the completion pipeline keeps the invariant. */
module CompletionSteps {
  import opened Options
  import opened DispatchModel
  import opened CompletionPipeline
  import opened CompletionInvariant

  // ── Steps that change one op in a way the tables do not see ────────────

  /** A byte, an unsent announcement or a listening consumer survives such a step. */
  lemma KeepWakeup(s: State, o: OpRef, p: Op, bytes: nat)
    requires WakeupInv(s.ops, s.queue, s.bytes, s.drain) && o in s.ops
    requires bytes >= s.bytes && (s.ops[o].fire == Unsent ==> p.fire == Unsent || bytes > 0)
    ensures WakeupInv(s.ops[o := p], s.queue, bytes, s.drain)
  {
    if SomeUnsent(s.ops) {
      var w :| w in s.ops && s.ops[w].fire == Unsent;
      var ops' := s.ops[o := p];
      assert w in ops';
      assert ops'[w].fire == Unsent || bytes > 0;
    }
  }

  lemma LocalStep(s: State, o: OpRef, p: Op, bytes: nat)
    requires Inv(s) && o in s.ops && SameView(s.ops[o], p) && OpInv(s, o, p)
    requires bytes >= s.bytes && (s.ops[o].fire == Unsent ==> p.fire == Unsent || bytes > 0)
    ensures Inv(s.(ops := s.ops[o := p], bytes := bytes))
  {
    var s' := s.(ops := s.ops[o := p], bytes := bytes);
    HiddenUpdate(s, o, p);
    KeepWakeup(s, o, p, bytes);
    assert PhaseInv(s');
    forall q: OpRef, x: Op | q != o && OpInv(s, q, x) ensures OpInv(s', q, x) {}
    OneOp(s, s', o, p);
  }

  lemma StartStep(s: State, o: OpRef)
    requires Inv(s) && o in s.ops && s.ops[o].submit == Registered
    ensures Inv(SetOp(s, o, s.ops[o].(submit := Started)))
  {
    StartOp(s, o, s.ops[o]);
    LocalStep(s, o, s.ops[o].(submit := Started), s.bytes);
  }

  lemma StartOp(s: State, o: OpRef, p: Op)
    requires OpInv(s, o, p) && p.submit == Registered
    ensures OpInv(s, o, p.(submit := Started)) && SameView(p, p.(submit := Started))
  {
  }

  lemma ReachSkipStep(s: State, o: OpRef)
    requires Inv(s) && o in s.ops && s.ops[o].submit == Started
    ensures Inv(SetOp(s, o, SkipCas(s.ops[o])))
  {
    SkipCasOp(s, o, s.ops[o]);
    LocalStep(s, o, SkipCas(s.ops[o]), s.bytes);
  }

  lemma SkipCasOp(s: State, o: OpRef, p: Op)
    requires OpInv(s, o, p) && p.submit == Started
    ensures OpInv(s, o, SkipCas(p)) && SameView(p, SkipCas(p))
  {
  }

  lemma DropStep(s: State, o: OpRef)
    requires Inv(s) && o in s.ops && !InSubmit(s.ops[o])
    ensures Inv(SetOp(s, o, s.ops[o].(held := false)))
  {
    assert OpInv(s, o, s.ops[o]);
    LocalStep(s, o, s.ops[o].(held := false), s.bytes);
  }

  lemma UserCancelStep(s: State, o: OpRef)
    requires Inv(s) && o in s.ops && s.ops[o].fut == Waiting
    ensures Inv(SetOp(s, o, s.ops[o].(fut := Cancelled)))
  {
    assert OpInv(s, o, s.ops[o]);
    LocalStep(s, o, s.ops[o].(fut := Cancelled), s.bytes);
  }

  lemma RunScheduledStep(s: State, o: OpRef)
    requires Inv(s) && o in s.ops && s.ops[o].scheduled
    ensures Inv(SetOp(s, o, Settle(s.ops[o], s.ops[o].plan).(scheduled := false)))
  {
    assert OpInv(s, o, s.ops[o]);
    LocalStep(s, o, Settle(s.ops[o], s.ops[o].plan).(scheduled := false), s.bytes);
  }

  lemma FireCasStep(s: State, o: OpRef, code: bool)
    requires Inv(s) && o in s.ops && IsStarted(s.ops[o]) && s.ops[o].fire == Unfired
    ensures Inv(SetOp(s, o, FireSwap(s.ops[o], code)))
  {
    FiredOp(s, o, code);
    LocalStep(s, o, FireSwap(s.ops[o], code), s.bytes);
  }

  lemma FiredOp(s: State, o: OpRef, code: bool)
    requires Inv(s) && o in s.ops && IsStarted(s.ops[o]) && s.ops[o].fire == Unfired
    ensures OpInv(s, o, FireSwap(s.ops[o], code)) && SameView(s.ops[o], FireSwap(s.ops[o], code))
  {
    assert OpInv(s, o, s.ops[o]);
    if s.ops[o].skip == Open {
      FiredFirst(s, o, s.ops[o], code);
    } else {
      FiredSecond(s, o, s.ops[o], code);
    }
  }

  lemma FiredFirst(s: State, o: OpRef, p: Op, code: bool)
    requires OpInv(s, o, p) && IsStarted(p) && p.fire == Unfired && p.skip == Open
    ensures OpInv(s, o, FireSwap(p, code)) && SameView(p, FireSwap(p, code))
  {
  }

  lemma FiredSecond(s: State, o: OpRef, p: Op, code: bool)
    requires OpInv(s, o, p) && IsStarted(p) && p.fire == Unfired && p.skip != Open
    ensures OpInv(s, o, FireSwap(p, code)) && SameView(p, FireSwap(p, code))
  {
  }

  lemma SendStep(s: State, o: OpRef)
    requires Inv(s) && o in s.ops && s.ops[o].fire == Unsent
    ensures Inv(SetOp(s, o, s.ops[o].(fire := Fired)).(bytes := Send(s.bytes, s.capacity)))
  {
    assert OpInv(s, o, s.ops[o]);
    LocalStep(s, o, s.ops[o].(fire := Fired), Send(s.bytes, s.capacity));
  }

  // ── Creation, registration, deallocation ───────────────────────────────

  lemma CreateStep(s: State, o: OpRef, a: Addr)
    requires Inv(s) && o !in s.ops && AddressFree(s, a)
    ensures Inv(SetOp(s, o, NewOp(a)))
  {
    var s' := SetOp(s, o, NewOp(a));
    CreateTables(s, o, a);
    assert WakeupInv(s'.ops, s'.queue, s'.bytes, s'.drain) by {
      if SomeUnsent(s.ops) {
        var w :| w in s.ops && s.ops[w].fire == Unsent;
        assert w in s'.ops && s'.ops[w].fire == Unsent;
      }
    }
    assert OpInv(s', o, NewOp(a)) by { CreateOpInv(s, o, a); }
    forall q: OpRef, x: Op | q != o && OpInv(s, q, x) ensures OpInv(s', q, x) {}
    OneOp(s, s', o, NewOp(a));
  }

  lemma CreateTables(s: State, o: OpRef, a: Addr)
    requires TablesInv(s) && o !in s.ops && AddressFree(s, a)
    ensures TablesInv(SetOp(s, o, NewOp(a)))
  {
  }

  lemma CreateOpInv(s: State, o: OpRef, a: Addr)
    requires Inv(s) && o !in s.ops
    ensures OpInv(s, o, NewOp(a))
  {
    assert s.running != Some(o) && s.relRunning != Some(o);
    assert !Holds(s.snapshot, a, o);
  }

  lemma FreeStep(s: State, o: OpRef)
    requires Inv(s) && o in s.ops && !s.ops[o].held && !Referenced(s, o) && !Busy(s.ops[o])
    ensures Inv(SetOp(s, o, s.ops[o].(freed := true)))
  {
    var p := s.ops[o].(freed := true);
    var s' := SetOp(s, o, p);
    assert OpInv(s, o, s.ops[o]);
    FreeTables(s, o);
    KeepWakeup(s, o, p, s.bytes);
    FreedOp(s, o);
    forall q: OpRef, x: Op | q != o && OpInv(s, q, x) ensures OpInv(s', q, x) {}
    OneOp(s, s', o, p);
  }

  lemma FreedOp(s: State, o: OpRef)
    requires o in s.ops && OpInv(s, o, s.ops[o]) && !s.ops[o].held && !Referenced(s, o) && !Busy(s.ops[o])
    ensures OpInv(SetOp(s, o, s.ops[o].(freed := true)), o, s.ops[o].(freed := true))
  {
  }

  lemma FreeTables(s: State, o: OpRef)
    requires TablesInv(s) && o in s.ops && !Referenced(s, o)
    ensures TablesInv(SetOp(s, o, s.ops[o].(freed := true)))
  {
  }

  lemma RegisterStep(s: State, o: OpRef)
    requires Inv(s) && o in s.ops && s.ops[o].submit == Created && s.ops[o].held
    ensures Inv(DoRegister(s, o))
  {
    var s' := DoRegister(s, o);
    assert OpInv(s, o, s.ops[o]);
    RegisterTables(s, o);
    KeepWakeup(s, o, s'.ops[o], s.bytes);
    RegisterOps(s, o);
  }

  lemma RegisterTables(s: State, o: OpRef)
    requires TablesInv(s) && o in s.ops && s.ops[o].submit == Created && !s.ops[o].freed && !s.ops[o].drainTook
    ensures TablesInv(DoRegister(s, o))
  {
  }

  lemma RegisterOps(s: State, o: OpRef)
    requires OpsInv(s) && AddressInv(s.ops)
    requires o in s.ops && s.ops[o].submit == Created && s.ops[o].held
    ensures OpsInv(DoRegister(s, o))
  {
    var s' := DoRegister(s, o);
    assert OpInv(s, o, s.ops[o]);
    forall q | q in s'.ops ensures OpInv(s', q, s'.ops[q]) {
      assert OpInv(s, q, s.ops[q]);
    }
  }

  lemma CancelStep(s: State, o: OpRef)
    requires Inv(s) && o in s.ops && s.ops[o].submit == Skipping
    ensures Inv(DoCancel(s, o))
  {
    assert OpInv(s, o, s.ops[o]);
    CancelTables(s, o);
    KeepWakeup(s, o, DoCancel(s, o).ops[o], s.bytes);
    CancelOps(s, o);
  }

  lemma CancelTables(s: State, o: OpRef)
    requires TablesInv(s) && o in s.ops && Holds(s.dict, s.ops[o].addr, o)
    ensures TablesInv(DoCancel(s, o))
  {
    var s' := DoCancel(s, o);
    CancelDict(s, o);
    assert ToCallInv(s'.ops, s'.snapshot, s'.toCall, s'.relRunning);
    assert AddressInv(s'.ops) && CallbackInv(s'.ops, s'.callbacks, s'.running);
  }

  lemma CancelDict(s: State, o: OpRef)
    requires DictInv(s.ops, s.dict) && o in s.ops && Holds(s.dict, s.ops[o].addr, o)
    ensures DictInv(DoCancel(s, o).ops, DoCancel(s, o).dict)
  {
  }

  lemma CancelOps(s: State, o: OpRef)
    requires OpsInv(s) && AddressInv(s.ops) && o in s.ops && s.ops[o].submit == Skipping
    ensures OpsInv(DoCancel(s, o))
  {
    var s' := DoCancel(s, o);
    assert OpInv(s, o, s.ops[o]);
    forall q | q in s'.ops ensures OpInv(s', q, s'.ops[q]) {
      assert OpInv(s, q, s.ops[q]);
    }
  }

  // ── Queue ──────────────────────────────────────────────────────────────

  lemma PushStep(s: State, o: OpRef)
    requires Inv(s) && o in s.ops && s.ops[o].fire == LostRace
    ensures Inv(DoPush(s, o))
  {
    var s' := DoPush(s, o);
    assert OpInv(s, o, s.ops[o]);
    PushTables(s, o);
    PushOps(s, o);
    assert WakeupInv(s'.ops, s'.queue, s'.bytes, s'.drain) by {
      if s.queue == [] {
        assert o in s'.ops && s'.ops[o].fire == Unsent;
      } else {
        KeepWakeup(s, o, s'.ops[o], s.bytes);
      }
    }
  }

  lemma PushTables(s: State, o: OpRef)
    requires TablesInv(s) && o in s.ops && s.ops[o].pushes == 0 && !s.ops[o].drainTook
    requires s.ops[o].submit == Returned(false)
    ensures TablesInv(DoPush(s, o))
  {
    var s' := DoPush(s, o);
    PushQueue(s, o);
    assert DictInv(s'.ops, s'.dict);
    assert AddressInv(s'.ops);
  }

  lemma PushQueue(s: State, o: OpRef)
    requires QueueInv(s.ops, s.queue, s.ready) && o in s.ops && s.ops[o].pushes == 0 && !s.ops[o].drainTook
    ensures var s' := DoPush(s, o); QueueInv(s'.ops, s'.queue, s'.ready)
  {
    var s' := DoPush(s, o);
    var e := Entry(s.ops[o].addr, o);
    assert e !in s.queue && e !in s.ready by { assert !EntryOk(s.ops, e); }
    assert forall x :: x in s'.queue ==> x in s.queue || x == e;
    assert forall x :: EntryOk(s.ops, x) ==> EntryOk(s'.ops, x);
  }

  lemma PushOps(s: State, o: OpRef)
    requires OpsInv(s) && o in s.ops && s.ops[o].fire == LostRace
    ensures OpsInv(DoPush(s, o))
  {
    var s' := DoPush(s, o);
    assert OpInv(s, o, s.ops[o]);
    assert Entry(s.ops[o].addr, o) == s'.queue[|s.queue|];
    forall q | q in s'.ops ensures OpInv(s', q, s'.ops[q]) {
      assert OpInv(s, q, s.ops[q]);
      assert TransitInv(q, s'.ops[q], s'.queue, s'.ready, s'.lost);
    }
  }

  lemma DrainReadyStep(s: State)
    requires Inv(s) && s.drain == DCollecting
    ensures Inv(DoDrainReady(s))
  {
    var s' := DoDrainReady(s);
    assert s.ready == [];
    assert s.ready + s.queue == s.queue;
    forall q | q in s'.ops ensures OpInv(s', q, s'.ops[q]) {
      assert OpInv(s, q, s.ops[q]);
      assert TransitInv(q, s'.ops[q], s'.queue, s'.ready, s'.lost);
    }
  }

  // ── Dictionary pop ─────────────────────────────────────────────────────

  /** The first ready id is a key of the dictionary and belongs to the op that pushed it. */
  lemma ReadyHead(s: State)
    requires Inv(s) && s.ready != []
    ensures var e := s.ready[0]; EntryOk(s.ops, e) && Holds(s.dict, e.id, e.from) && !s.ops[e.from].freed
  {
    var e := s.ready[0];
    assert e in s.ready;
    assert EntryOk(s.ops, e);
    assert OpInv(s, e.from, s.ops[e.from]);
  }

  lemma PopStep(s: State)
    requires Inv(s) && s.drain == DPopping && s.ready != []
    ensures Inv(DoPop(s))
  {
    ReadyHead(s);
    var o := s.ready[0].from;
    assert OpInv(s, o, s.ops[o]);
    PopTables(s, o);
    PopOps(s, o);
    KeepWakeup(s, o, DoPop(s).ops[o], s.bytes);
  }

  lemma PopTables(s: State, o: OpRef)
    requires TablesInv(s) && s.ready != [] && s.ready[0].from == o && o in s.ops
    requires Holds(s.dict, s.ready[0].id, o) && s.ops[o].attempts == 0 && s.running == None
    ensures TablesInv(DoPop(s))
  {
    PopQueue(s, o);
    PopMaps(s, o);
  }

  lemma PopQueue(s: State, o: OpRef)
    requires QueueInv(s.ops, s.queue, s.ready) && s.ready != [] && s.ready[0].from == o && o in s.ops
    requires Holds(s.dict, s.ready[0].id, o)
    ensures QueueInv(DoPop(s).ops, DoPop(s).queue, DoPop(s).ready)
  {
    var s' := DoPop(s);
    var e := s.ready[0];
    assert e in s.ready;
    forall x | x in s'.ready ensures x in s.ready && x != e && EntryOk(s'.ops, x) && x !in s.queue {
      var i :| 0 <= i < |s'.ready| && s'.ready[i] == x;
      assert s.ready[i + 1] == x;
    }
    assert forall x :: x in s.queue ==> x != e && EntryOk(s'.ops, x);
  }

  lemma PopMaps(s: State, o: OpRef)
    requires TablesInv(s) && s.ready != [] && s.ready[0].from == o && o in s.ops
    requires Holds(s.dict, s.ready[0].id, o) && s.ops[o].attempts == 0 && s.running == None
    ensures DictInv(DoPop(s).ops, DoPop(s).dict) && AddressInv(DoPop(s).ops)
    ensures ToCallInv(DoPop(s).ops, s.snapshot, s.toCall, s.relRunning)
    ensures CallbackInv(DoPop(s).ops, DoPop(s).callbacks, s.running)
  {
    assert o !in s.callbacks;
  }

  lemma PopOps(s: State, o: OpRef)
    requires OpsInv(s) && AddressInv(s.ops) && PhaseInv(s) && s.drain == DPopping
    requires s.ready != [] && s.ready[0].from == o && o in s.ops && Holds(s.dict, s.ready[0].id, o)
    requires s.ready[0].id == s.ops[o].addr && s.ops[o].pushes == 1 && !s.ops[o].freed
    ensures OpsInv(DoPop(s))
  {
    var s' := DoPop(s);
    assert s'.callbacks[|s.callbacks|] == o;
    forall q | q in s'.ops ensures OpInv(s', q, s'.ops[q]) {
      assert OpInv(s, q, s.ops[q]);
      assert TransitInv(q, s'.ops[q], s'.queue, s'.ready, s'.lost) by {
        assert s.ready == [s.ready[0]] + s'.ready;
      }
      assert DrainSideInv(q, s'.ops[q], s'.callbacks, s'.running, s'.snapshot);
    }
  }

  // ── Completion callbacks ───────────────────────────────────────────────

  lemma CbTakeStep(s: State)
    requires Inv(s) && s.drain == DDispatching && s.running == None && s.callbacks != []
    ensures s.callbacks[0] in s.ops && Inv(DoCbTake(s))
  {
    var o := s.callbacks[0];
    assert o in s.callbacks;
    assert OpInv(s, o, s.ops[o]);
    assert s.relRunning != Some(o);
    CbTakeTables(s, o);
    CbTakeOps(s, o);
    KeepWakeup(s, o, DoCbTake(s).ops[o], s.bytes);
  }

  lemma CbTakeTables(s: State, o: OpRef)
    requires TablesInv(s) && s.running == None && s.callbacks != [] && s.callbacks[0] == o
    requires o in s.ops && s.ops[o].hasFuture
    ensures TablesInv(DoCbTake(s))
  {
    var s' := DoCbTake(s);
    assert o in s.callbacks;
    HiddenUpdate(s, o, s'.ops[o]);
    forall x | x in s'.callbacks ensures x in s.callbacks && x != o {
      var i :| 0 <= i < |s'.callbacks| && s'.callbacks[i] == x;
      assert s.callbacks[i + 1] == x;
    }
  }

  lemma CbTakeOps(s: State, o: OpRef)
    requires OpsInv(s) && s.running == None && s.callbacks != [] && s.callbacks[0] == o
    requires o in s.ops && s.ops[o].hasFuture
    ensures OpsInv(DoCbTake(s))
  {
    var s' := DoCbTake(s);
    assert s.callbacks == [o] + s'.callbacks;
    forall q | q in s'.ops ensures OpInv(s', q, s'.ops[q]) {
      assert OpInv(s, q, s.ops[q]);
    }
  }

  lemma CbSettleStep(s: State)
    requires Inv(s) && s.running.Some?
    ensures s.running.value in s.ops && Inv(DoCbSettle(s))
  {
    var o := s.running.value;
    assert OpInv(s, o, s.ops[o]);
    CbSettleTables(s, o);
    CbSettleOps(s, o);
    KeepWakeup(s, o, DoCbSettle(s).ops[o], s.bytes);
  }

  lemma CbSettleTables(s: State, o: OpRef)
    requires TablesInv(s) && s.running == Some(o) && o in s.ops && !Holds(s.snapshot, s.ops[o].addr, o)
    ensures TablesInv(DoCbSettle(s))
  {
  }

  lemma CbSettleOps(s: State, o: OpRef)
    requires OpsInv(s) && s.running == Some(o) && o in s.ops && s.ops[o].drainTook && s.ops[o].attempts == 0
    ensures OpsInv(DoCbSettle(s))
  {
    var s' := DoCbSettle(s);
    forall q | q in s'.ops ensures OpInv(s', q, s'.ops[q]) {
      assert OpInv(s, q, s.ops[q]);
    }
  }

  // ── release() ──────────────────────────────────────────────────────────

  lemma SnapshotStep(s: State)
    requires Inv(s) && s.release == RLocked
    ensures Inv(s.(release := RSnapped, snapshot := s.dict, toCall := s.dict))
  {
    var s' := s.(release := RSnapped, snapshot := s.dict, toCall := s.dict);
    forall q | q in s'.ops ensures OpInv(s', q, s'.ops[q]) {
      assert OpInv(s, q, s.ops[q]);
    }
    assert ToCallInv(s'.ops, s'.snapshot, s'.toCall, s'.relRunning) by {
      forall a | a in s.dict ensures s.ops[s.dict[a]].attempts == 0 {
        assert OpInv(s, s.dict[a], s.ops[s.dict[a]]);
      }
    }
  }

  lemma RelTakeStep(s: State, a: Addr)
    requires Inv(s) && s.release == RCalling && s.relRunning == None && a in s.toCall
    ensures s.toCall[a] in s.ops && Inv(DoRelTake(s, a))
  {
    var o := s.toCall[a];
    assert Holds(s.snapshot, a, o);
    assert OpInv(s, o, s.ops[o]);
    assert s.running != Some(o);
    RelTakeTables(s, a);
    RelTakeOps(s, a);
    KeepWakeup(s, o, DoRelTake(s, a).ops[o], s.bytes);
  }

  lemma RelTakeTables(s: State, a: Addr)
    requires TablesInv(s) && s.relRunning == None && a in s.toCall && s.toCall[a] in s.ops
    requires s.ops[s.toCall[a]].hasFuture
    ensures TablesInv(DoRelTake(s, a))
  {
    var o := s.toCall[a];
    HiddenUpdate(s, o, s.ops[o].(hasFuture := false));
    assert forall b :: b in s.toCall && b != a ==> s.toCall[b] != o;
  }

  lemma RelTakeOps(s: State, a: Addr)
    requires OpsInv(s) && s.relRunning == None && a in s.toCall && s.toCall[a] in s.ops
    requires s.ops[s.toCall[a]].addr == a && s.ops[s.toCall[a]].hasFuture
    ensures OpsInv(DoRelTake(s, a))
  {
    var s' := DoRelTake(s, a);
    forall q | q in s'.ops ensures OpInv(s', q, s'.ops[q]) {
      assert OpInv(s, q, s.ops[q]);
    }
  }

  lemma RelSettleStep(s: State, onLoop: bool)
    requires Inv(s) && s.relRunning.Some?
    ensures s.relRunning.value in s.ops && Inv(DoRelSettle(s, onLoop))
  {
    var o := s.relRunning.value;
    assert OpInv(s, o, s.ops[o]);
    RelSettleTables(s, o, onLoop);
    RelSettleOps(s, o, onLoop);
    KeepWakeup(s, o, DoRelSettle(s, onLoop).ops[o], s.bytes);
  }

  lemma RelSettleTables(s: State, o: OpRef, onLoop: bool)
    requires TablesInv(s) && s.relRunning == Some(o) && o in s.ops && !s.ops[o].drainTook
    ensures TablesInv(DoRelSettle(s, onLoop))
  {
    var s' := DoRelSettle(s, onLoop);
    assert DictInv(s'.ops, s'.dict);
    assert AddressInv(s'.ops);
    RelSettleCalls(s, o, onLoop);
  }

  lemma RelSettleCalls(s: State, o: OpRef, onLoop: bool)
    requires TablesInv(s) && s.relRunning == Some(o) && o in s.ops && !s.ops[o].drainTook
    ensures var s' := DoRelSettle(s, onLoop);
      && ToCallInv(s'.ops, s'.snapshot, s'.toCall, s'.relRunning)
      && CallbackInv(s'.ops, s'.callbacks, s'.running)
  {
  }

  lemma RelSettleOps(s: State, o: OpRef, onLoop: bool)
    requires OpsInv(s) && s.relRunning == Some(o) && o in s.ops && Holds(s.snapshot, s.ops[o].addr, o)
    requires s.ops[o].attempts == 0
    ensures OpsInv(DoRelSettle(s, onLoop))
  {
    var s' := DoRelSettle(s, onLoop);
    forall q | q in s'.ops ensures OpInv(s', q, s'.ops[q]) {
      assert OpInv(s, q, s.ops[q]);
    }
  }

  // ── Steps that move only the program counters and the byte count ───────

  predicate DrainControls(t: Step) {
    t.SockRecv? || t.LockDrain? || t.RecvBytes? || t.BytesGone? || t.PopEnd? || t.CbEnd? || t.DrainCancelled?
  }

  predicate ReleaseControls(t: Step) {
    t.RelLock? || t.RelDetach? || t.RelEnd?
  }

  lemma DrainPhase(s: State, t: Step)
    requires PhaseInv(s) && Enabled(s, t) && DrainControls(t)
    ensures PhaseInv(Next(s, t)) && Next(s, t) == s.(drain := Next(s, t).drain, bytes := Next(s, t).bytes)
  {
  }

  lemma DrainWakeup(s: State, t: Step)
    requires PhaseInv(s) && WakeupInv(s.ops, s.queue, s.bytes, s.drain) && Enabled(s, t) && DrainControls(t)
    ensures WakeupInv(s.ops, s.queue, Next(s, t).bytes, Next(s, t).drain)
  {
  }

  lemma DrainControlStep(s: State, t: Step)
    requires Inv(s) && Enabled(s, t) && DrainControls(t)
    ensures Inv(Next(s, t))
  {
    DrainPhase(s, t);
    DrainWakeup(s, t);
    SameOps(s, Next(s, t));
  }

  lemma ReleasePhase(s: State, t: Step)
    requires PhaseInv(s) && Enabled(s, t) && ReleaseControls(t)
    ensures PhaseInv(Next(s, t)) && BeforeSnapshot(Next(s, t).release) == BeforeSnapshot(s.release)
    ensures Next(s, t) == s.(release := Next(s, t).release, detached := Next(s, t).detached)
  {
  }

  predicate BeforeSnapshot(release: ReleasePc) {
    release == RNotYet || release == RLocked
  }

  lemma ReleaseControlStep(s: State, t: Step)
    requires Inv(s) && Enabled(s, t) && ReleaseControls(t)
    ensures Inv(Next(s, t))
  {
    ReleasePhase(s, t);
    SameOps(s, Next(s, t));
  }

  /** What an op is required to be depends on the tables, not on the program counters. */
  lemma SameOps(s: State, s': State)
    requires OpsInv(s) && BeforeSnapshot(s'.release) == BeforeSnapshot(s.release)
    requires s' == s.(drain := s'.drain, bytes := s'.bytes, release := s'.release, detached := s'.detached)
    ensures OpsInv(s')
  {
    forall q | q in s'.ops ensures OpInv(s', q, s'.ops[q]) {
      assert OpInv(s, q, s.ops[q]);
    }
  }

  // ── All steps, all runs ────────────────────────────────────────────────

  predicate BySubmitter(t: Step) {
    t.Register? || t.Start? || t.ReachSkip? || t.CancelDispatch?
  }

  predicate ByOwner(t: Step) {
    t.Create? || t.Drop? || t.Free? || t.UserCancel? || t.RunScheduled?
  }

  predicate ByNng(t: Step) {
    t.FireCas? || t.PushId? || t.SendByte?
  }

  predicate ByDrain(t: Step) {
    t.DrainReady? || t.PopOne? || t.CbTake? || t.CbSettle?
  }

  predicate ByRelease(t: Step) {
    t.RelSnapshot? || t.RelTake? || t.RelSettle?
  }

  lemma SubmitterKeepsInv(s: State, t: Step)
    requires Inv(s) && Enabled(s, t) && BySubmitter(t)
    ensures Inv(Next(s, t))
  {
    match t
    case Register(o) => RegisterStep(s, o);
    case Start(o) => StartStep(s, o);
    case ReachSkip(o) => ReachSkipStep(s, o);
    case CancelDispatch(o) => CancelStep(s, o);
  }

  lemma OwnerKeepsInv(s: State, t: Step)
    requires Inv(s) && Enabled(s, t) && ByOwner(t)
    ensures Inv(Next(s, t))
  {
    match t
    case Create(o, a) => CreateStep(s, o, a);
    case Drop(o) => DropStep(s, o);
    case Free(o) => FreeStep(s, o);
    case UserCancel(o) => UserCancelStep(s, o);
    case RunScheduled(o) => RunScheduledStep(s, o);
  }

  lemma NngKeepsInv(s: State, t: Step)
    requires Inv(s) && Enabled(s, t) && ByNng(t)
    ensures Inv(Next(s, t))
  {
    match t
    case FireCas(o, code) => FireCasStep(s, o, code);
    case PushId(o) => PushStep(s, o);
    case SendByte(o) => SendStep(s, o);
  }

  lemma DrainKeepsInv(s: State, t: Step)
    requires Inv(s) && Enabled(s, t) && ByDrain(t)
    ensures Inv(Next(s, t))
  {
    match t
    case DrainReady => DrainReadyStep(s);
    case PopOne => PopStep(s);
    case CbTake => CbTakeStep(s);
    case CbSettle => CbSettleStep(s);
  }

  lemma ReleaseKeepsInv(s: State, t: Step)
    requires Inv(s) && Enabled(s, t) && ByRelease(t)
    ensures Inv(Next(s, t))
  {
    match t
    case RelSnapshot => SnapshotStep(s);
    case RelTake(a) => RelTakeStep(s, a);
    case RelSettle(onLoop) => RelSettleStep(s, onLoop);
  }

  lemma StepKeepsInv(s: State, t: Step)
    requires Inv(s) && Enabled(s, t)
    ensures Inv(Next(s, t))
  {
    if BySubmitter(t) {
      SubmitterKeepsInv(s, t);
    } else if ByOwner(t) {
      OwnerKeepsInv(s, t);
    } else if ByNng(t) {
      NngKeepsInv(s, t);
    } else if ByDrain(t) {
      DrainKeepsInv(s, t);
    } else if ByRelease(t) {
      ReleaseKeepsInv(s, t);
    } else if DrainControls(t) {
      DrainControlStep(s, t);
    } else {
      ReleaseControlStep(s, t);
    }
  }

  lemma {:induction false} RunKeepsInv(s0: State, trace: seq<Step>, s1: State)
    requires Inv(s0) && Run(s0, trace, s1)
    ensures Inv(s1)
    decreases trace
  {
    if trace != [] {
      StepKeepsInv(s0, trace[0]);
      RunKeepsInv(Next(s0, trace[0]), trace[1..], s1);
    }
  }
}
