/** What a completed future holds, told from the result codes in the trace. */
module CompletionOutcomes {
  import opened Options
  import opened CompletionPipeline
  import opened CompletionInvariant
  import opened CompletionSteps
  import opened CompletionTheorems
  import opened CompletionOrder

  // ── Nothing but fire() changes the code ────────────────────────────────

  predicate SameCode(p: Op, r: Op) {
    r.code == p.code && (r.fire == Unfired <==> p.fire == Unfired)
  }

  ghost predicate KeepsCode(s: State, s1: State, o: OpRef)
    requires o in s.ops
  {
    o in s1.ops && SameCode(s.ops[o], s1.ops[o])
  }

  lemma OneOpKeepsCode(s: State, s1: State, q: OpRef, r: Op, o: OpRef)
    requires o in s.ops && q in s.ops && s1.ops == s.ops[q := r] && SameCode(s.ops[q], r)
    ensures KeepsCode(s, s1, o)
  {
  }

  lemma SubmitKeepsCode(s: State, t: Step, o: OpRef)
    requires Enabled(s, t) && o in s.ops && BySubmitter(t)
    ensures KeepsCode(s, Next(s, t), o)
  {
    match t
    case ReachSkip(q) => OneOpKeepsCode(s, Next(s, t), q, SkipCas(s.ops[q]), o);
    case _ =>
  }

  lemma OwnerKeepsCode(s: State, t: Step, o: OpRef)
    requires Enabled(s, t) && o in s.ops && ByOwner(t)
    ensures KeepsCode(s, Next(s, t), o)
  {
  }

  lemma NngKeepsCode(s: State, t: Step, o: OpRef)
    requires Enabled(s, t) && o in s.ops && ByNng(t) && !(t.FireCas? && t.o == o)
    ensures KeepsCode(s, Next(s, t), o)
  {
    match t
    case FireCas(q, code) => assert Next(s, t).ops == s.ops[q := FireSwap(s.ops[q], code)];
    case _ =>
  }

  lemma DrainKeepsCode(s: State, t: Step, o: OpRef)
    requires Enabled(s, t) && o in s.ops && (t == PopOne || t == CbTake || t == CbSettle)
    ensures KeepsCode(s, Next(s, t), o)
  {
    match t
    case PopOne => PopKeepsCode(s, o);
    case CbTake => TakeKeepsCode(s, o);
    case CbSettle =>
  }

  lemma PopKeepsCode(s: State, o: OpRef)
    requires Enabled(s, PopOne) && o in s.ops
    ensures KeepsCode(s, DoPop(s), o)
  {
  }

  lemma TakeKeepsCode(s: State, o: OpRef)
    requires Enabled(s, CbTake) && o in s.ops
    ensures KeepsCode(s, DoCbTake(s), o)
  {
    var q := s.callbacks[0];
    assert DoCbTake(s).ops == s.ops || DoCbTake(s).ops == s.ops[q := s.ops[q].(hasFuture := false)];
  }

  lemma RelTakeKeepsCode(s: State, a: Addr, o: OpRef)
    requires Enabled(s, RelTake(a)) && o in s.ops
    ensures KeepsCode(s, DoRelTake(s, a), o)
  {
    var q := s.toCall[a];
    assert DoRelTake(s, a).ops == s.ops || DoRelTake(s, a).ops == s.ops[q := s.ops[q].(hasFuture := false)];
  }

  lemma RelSettleKeepsCode(s: State, onLoop: bool, o: OpRef)
    requires Enabled(s, RelSettle(onLoop)) && o in s.ops
    ensures KeepsCode(s, DoRelSettle(s, onLoop), o)
  {
  }

  lemma StepKeepsCode(s: State, t: Step, o: OpRef)
    requires Enabled(s, t) && o in s.ops && !(t.FireCas? && t.o == o)
    ensures KeepsCode(s, Next(s, t), o)
  {
    if BySubmitter(t) {
      SubmitKeepsCode(s, t, o);
    } else if ByNng(t) {
      NngKeepsCode(s, t, o);
    } else if ByOwner(t) {
      OwnerKeepsCode(s, t, o);
    } else if LeavesOps(t) {
      OpsStay(s, t);
    } else if t.RelTake? {
      RelTakeKeepsCode(s, t.a, o);
    } else if t.RelSettle? {
      RelSettleKeepsCode(s, t.onLoop, o);
    } else {
      DrainKeepsCode(s, t, o);
    }
  }

  // ── The code of a run ──────────────────────────────────────────────────

  /** The code is the one that nng's callback came with; before that, NNG_OK. */
  ghost predicate CodeTold(p: Op, o: OpRef, trace: seq<Step>) {
    && (p.fire == Unfired <==> FireCas(o, true) !in trace && FireCas(o, false) !in trace)
    && (FireCas(o, false) in trace ==> !p.code && FireCas(o, true) !in trace)
    && (FireCas(o, true) in trace ==> p.code)
  }

  ghost predicate CodesTold(s: State, trace: seq<Step>) {
    && (forall o :: o in s.ops ==> CodeTold(s.ops[o], o, trace))
    && (forall o, code :: FireCas(o, code) in trace ==> o in s.ops)
  }

  lemma StepTellsCode(s: State, trace: seq<Step>, t: Step, o: OpRef)
    requires CodesTold(s, trace) && Enabled(s, t) && o in Next(s, t).ops
    ensures CodeTold(Next(s, t).ops[o], o, trace + [t])
  {
    if o !in s.ops {
      NewOpIsUnfired(s, t, o);
    } else {
      assert CodeTold(s.ops[o], o, trace);
      if t.FireCas? && t.o == o {
        assert Next(s, t).ops[o] == FireSwap(s.ops[o], t.code);
      } else {
        StepKeepsCode(s, t, o);
      }
    }
  }

  lemma NewOpIsUnfired(s: State, t: Step, o: OpRef)
    requires Enabled(s, t) && o !in s.ops && o in Next(s, t).ops
    ensures t.Create? && Next(s, t).ops[o].fire == Unfired
  {
    if !t.Create? {
      OpsKept(s, t);
    }
  }

  lemma OpsKept(s: State, t: Step)
    requires Enabled(s, t) && !t.Create?
    ensures Next(s, t).ops.Keys == s.ops.Keys
  {
    if LeavesOps(t) {
      OpsStay(s, t);
    } else if ByDrain(t) {
      DrainKeepsOps(s, t);
    } else if ByRelease(t) {
      ReleaseKeepsOps(s, t);
    } else if t.FireCas? {
      assert Next(s, t).ops == s.ops[t.o := FireSwap(s.ops[t.o], t.code)];
    } else if t.ReachSkip? {
      assert Next(s, t).ops == s.ops[t.o := SkipCas(s.ops[t.o])];
    } else {
      assert Next(s, t).ops == s.ops[t.o := Next(s, t).ops[t.o]];
    }
  }

  lemma DrainKeepsOps(s: State, t: Step)
    requires Enabled(s, t) && (t == PopOne || t == CbTake || t == CbSettle)
    ensures Next(s, t).ops.Keys == s.ops.Keys
  {
    match t
    case PopOne => PopKeepsOps(s);
    case CbTake => TakeKeepsOps(s);
    case CbSettle =>
  }

  lemma PopKeepsOps(s: State)
    requires Enabled(s, PopOne)
    ensures DoPop(s).ops.Keys == s.ops.Keys
  {
  }

  lemma TakeKeepsOps(s: State)
    requires Enabled(s, CbTake)
    ensures DoCbTake(s).ops.Keys == s.ops.Keys
  {
  }

  lemma ReleaseKeepsOps(s: State, t: Step)
    requires Enabled(s, t) && (t.RelTake? || t.RelSettle?)
    ensures Next(s, t).ops.Keys == s.ops.Keys
  {
  }

  lemma StepTellsCodes(s: State, trace: seq<Step>, t: Step)
    requires CodesTold(s, trace) && Enabled(s, t)
    ensures CodesTold(Next(s, t), trace + [t])
  {
    forall o | o in Next(s, t).ops ensures CodeTold(Next(s, t).ops[o], o, trace + [t]) {
      StepTellsCode(s, trace, t, o);
    }
    forall o, code | FireCas(o, code) in trace + [t] ensures o in Next(s, t).ops {
      assert o in s.ops;
      if !t.Create? {
        OpsKept(s, t);
      }
    }
  }

  lemma {:induction false} RunTellsCodes(s0: State, past: seq<Step>, trace: seq<Step>, s: State)
    requires CodesTold(s0, past) && Run(s0, trace, s)
    ensures CodesTold(s, past + trace)
    decreases trace
  {
    if trace == [] {
      assert past + trace == past;
    } else {
      StepTellsCodes(s0, past, trace[0]);
      RunTellsCodes(Next(s0, trace[0]), past + [trace[0]], trace[1..], s);
      assert past + [trace[0]] + trace[1..] == past + trace;
    }
  }

  /**
   In every run a future completed by the drain holds a result exactly if nng's callback for its
   op came with NNG_OK and an exception exactly if it came with an error; and whoever completed
   it, an exception is there only for an op whose callback came with an error.
   */
  lemma ResultReachesItsFuture(poll: bool, capacity: nat, trace: seq<Step>, s: State, o: OpRef)
    requires capacity > 0 && Run(Init(poll, capacity), trace, s) && o in s.ops && s.ops[o].fut.Resolved?
    ensures s.ops[o].drainTook ==> (s.ops[o].fut == Resolved(true) <==> FireCas(o, true) in trace)
    ensures s.ops[o].drainTook ==> (s.ops[o].fut == Resolved(false) <==> FireCas(o, false) in trace)
    ensures s.ops[o].fut == Resolved(false) ==> FireCas(o, false) in trace
    ensures FireCas(o, true) in trace ==> s.ops[o].fut == Resolved(true)
  {
    InitInv(poll, capacity);
    RunFromStart(Init(poll, capacity), trace, s, o);
    CodeFromStart(Init(poll, capacity), trace, s, o);
    HoldsAsTold(s.ops[o], o, trace);
  }

  lemma RunFromStart(s0: State, trace: seq<Step>, s: State, o: OpRef)
    requires Inv(s0) && Run(s0, trace, s) && o in s.ops
    ensures RouteInv(s.ops[o]) && FutureInv(s.ops[o])
  {
    RunKeepsInv(s0, trace, s);
    assert OpInv(s, o, s.ops[o]);
  }

  lemma CodeFromStart(s0: State, trace: seq<Step>, s: State, o: OpRef)
    requires s0.ops == map[] && Run(s0, trace, s) && o in s.ops
    ensures CodeTold(s.ops[o], o, trace)
  {
    RunTellsCodes(s0, [], trace, s);
    assert [] + trace == trace;
  }

  lemma HoldsAsTold(p: Op, o: OpRef, trace: seq<Step>)
    requires RouteInv(p) && FutureInv(p) && p.fut.Resolved? && CodeTold(p, o, trace)
    ensures p.drainTook ==> (p.fut.ok <==> FireCas(o, true) in trace)
    ensures p.drainTook ==> (!p.fut.ok <==> FireCas(o, false) in trace)
    ensures !p.fut.ok ==> FireCas(o, false) in trace
    ensures FireCas(o, true) in trace ==> p.fut.ok
  {
  }
}
