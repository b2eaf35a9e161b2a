/** What becomes of a future, told from the steps of a run; and that no party of the pool is ever stuck. */
module ThreadPoolOutcomes {
  import opened Options
  import opened ThreadPool
  import opened ThreadPoolInvariant
  import opened ThreadPoolTheorems

  // ── What settles a future ──────────────────────────────────────────────

  /** The step gives the undone future of c this value: the function returned or raised, or somebody cancels. */
  predicate Gives(s: State, t: Step, c: CallRef, f: Future)
    requires Enabled(s, t)
  {
    && c in s.calls && s.calls[c].fut == Undone
    && match t
       case Finish(w, ok) => s.workers[w].c == c && f == (if ok then Result else Failure)
       case UserCancel(d) => d == c && f == Cancelled
       case CancelItem(k) => s.shuts[k].pc.c == c && f == Cancelled
       case _ => false
  }

  /** Some step of the run does. */
  ghost predicate Given(s: State, trace: seq<Step>, c: CallRef, f: Future)
    decreases trace
  {
    && trace != [] && Enabled(s, trace[0])
    && (Gives(s, trace[0], c, f) || Given(Next(s, trace[0]), trace[1..], c, f))
  }

  /** What the step does to the future of c. */
  ghost predicate FutureStep(s: State, t: Step, c: CallRef)
    requires Enabled(s, t) && c in s.calls
  {
    && c in Next(s, t).calls
    && (forall f :: Gives(s, t, c, f) ==> Next(s, t).calls[c].fut == f)
    && ((forall f :: !Gives(s, t, c, f)) ==> Next(s, t).calls[c].fut == s.calls[c].fut)
  }

  lemma SubmitFuture(s: State, t: Step, c: CallRef)
    requires Enabled(s, t) && c in s.calls
    requires t.Enter? || t.ReadId? || t.BumpId? || t.Store? || t.Send? || t.SendFails?
    ensures c in Next(s, t).calls && Next(s, t).calls[c].fut == s.calls[c].fut
  {
  }

  lemma MailFuture(s: State, i: nat, m: Mail, c: CallRef)
    requires c in s.calls
    ensures c in SetMail(s, i, m).calls && SetMail(s, i, m).calls[c].fut == s.calls[c].fut
  {
  }

  lemma PopFuture(s: State, w: Worker, i: nat, c: CallRef)
    requires c in s.calls
    ensures c in DoPop(s, w, i).calls && DoPop(s, w, i).calls[c].fut == s.calls[c].fut
  {
    if i in s.pending && s.pending[i] in s.calls {
      var d := s.pending[i];
      var p := s.calls[d].(place := AtWorker(w), taker := SomeWorker, mail := Consumed);
      SameOrSet(s.calls, d, p, c);
      assert DoPop(s, w, i).calls == s.calls[d := p];
    } else {
      MailFuture(s, i, Consumed, c);
    }
  }

  lemma SameOrSet(calls: map<CallRef, Call>, d: CallRef, p: Call, c: CallRef)
    requires c in calls && d in calls && p.fut == calls[d].fut
    ensures c in calls[d := p] && calls[d := p][c].fut == calls[c].fut
  {
  }

  lemma CheckFuture(s: State, w: Worker, i: nat, d: CallRef, c: CallRef)
    requires c in s.calls && d in s.calls
    ensures c in DoCheck(s, w, i, d).calls && DoCheck(s, w, i, d).calls[c].fut == s.calls[c].fut
  {
    if s.calls[d].fut == Cancelled {
      SameOrSet(s.calls, d, s.calls[d].(place := Retired), c);
      assert DoCheck(s, w, i, d).calls == s.calls[d := s.calls[d].(place := Retired)];
    } else {
      assert DoCheck(s, w, i, d).calls == s.calls;
    }
  }

  lemma FinishOther(s: State, w: Worker, d: CallRef, ok: bool, c: CallRef)
    requires c in s.calls && d in s.calls && (c != d || s.calls[c].fut != Undone)
    ensures c in DoFinish(s, w, d, ok).calls && DoFinish(s, w, d, ok).calls[c].fut == s.calls[c].fut
  {
  }

  lemma FinishOwn(s: State, w: Worker, c: CallRef, ok: bool)
    requires c in s.calls && s.calls[c].fut == Undone
    ensures c in DoFinish(s, w, c, ok).calls && DoFinish(s, w, c, ok).calls[c].fut == if ok then Result else Failure
  {
  }

  lemma FinishFuture(s: State, w: Worker, ok: bool, c: CallRef)
    requires Enabled(s, Finish(w, ok)) && c in s.calls
    ensures FutureStep(s, Finish(w, ok), c)
  {
    var d := s.workers[w].c;
    if d == c && s.calls[c].fut == Undone {
      FinishOwn(s, w, c, ok);
      assert Gives(s, Finish(w, ok), c, if ok then Result else Failure);
    } else {
      FinishOther(s, w, d, ok, c);
    }
  }

  lemma CancelFuture(s: State, d: CallRef, c: CallRef)
    requires Enabled(s, UserCancel(d)) && c in s.calls
    ensures FutureStep(s, UserCancel(d), c)
  {
    if d == c {
      assert Gives(s, UserCancel(d), c, Cancelled);
    }
  }

  lemma CancelItemFuture(s: State, k: ShutRef, c: CallRef)
    requires Enabled(s, CancelItem(k)) && c in s.calls
    ensures FutureStep(s, CancelItem(k), c)
  {
    if s.shuts[k].pc.c == c && s.calls[c].fut == Undone {
      CancelOwn(s, k);
      assert Gives(s, CancelItem(k), c, Cancelled);
    } else {
      CancelOther(s, k, c);
    }
  }

  lemma CancelOwn(s: State, k: ShutRef)
    requires Enabled(s, CancelItem(k)) && s.calls[s.shuts[k].pc.c].fut == Undone
    ensures s.shuts[k].pc.c in DoCancelItem(s, k).calls && DoCancelItem(s, k).calls[s.shuts[k].pc.c].fut == Cancelled
  {
  }

  lemma CancelOther(s: State, k: ShutRef, c: CallRef)
    requires Enabled(s, CancelItem(k)) && c in s.calls && (s.shuts[k].pc.c != c || s.calls[c].fut != Undone)
    ensures c in DoCancelItem(s, k).calls && DoCancelItem(s, k).calls[c].fut == s.calls[c].fut
  {
  }

  lemma ControlFuture(s: State, t: Step, c: CallRef)
    requires Enabled(s, t) && c in s.calls
    requires t.Exit? || t.ShutBegin? || t.ShutSet? || t.TakeItem? || t.SawEmpty? || t.Close?
    ensures c in Next(s, t).calls && Next(s, t).calls[c].fut == s.calls[c].fut
  {
  }

  lemma StepFuture(s: State, t: Step, c: CallRef)
    requires Enabled(s, t) && c in s.calls
    ensures FutureStep(s, t, c)
  {
    match t
    case Finish(w, ok) => FinishFuture(s, w, ok, c);
    case UserCancel(d) => CancelFuture(s, d, c);
    case CancelItem(k) => CancelItemFuture(s, k, c);
    case Recv(w, i) => MailFuture(s, i, With(w), c);
    case Lose(i) => MailFuture(s, i, Lost, c);
    case Pop(w) => PopFuture(s, w, s.workers[w].id, c);
    case Check(w) => CheckFuture(s, w, s.workers[w].id, s.workers[w].c, c);
    case _ =>
      if t.Enter? || t.ReadId? || t.BumpId? || t.Store? || t.Send? || t.SendFails? {
        SubmitFuture(s, t, c);
      } else {
        ControlFuture(s, t, c);
      }
  }

  lemma {:induction false} DoneIsFinal(s0: State, trace: seq<Step>, s1: State, c: CallRef)
    requires Run(s0, trace, s1) && c in s0.calls && s0.calls[c].fut != Undone
    ensures c in s1.calls && s1.calls[c].fut == s0.calls[c].fut && forall f :: !Given(s0, trace, c, f)
    decreases trace
  {
    if trace != [] {
      StepFuture(s0, trace[0], c);
      DoneIsFinal(Next(s0, trace[0]), trace[1..], s1, c);
    }
  }

  /** From an undone future: it ends as some step of the run says, and stays undone exactly if none does. */
  lemma {:induction false} FutureOfRun(s0: State, trace: seq<Step>, s1: State, c: CallRef)
    requires Run(s0, trace, s1) && c in s0.calls && s0.calls[c].fut == Undone
    ensures c in s1.calls && forall f :: f != Undone ==> (s1.calls[c].fut == f <==> Given(s0, trace, c, f))
    decreases trace
  {
    if trace != [] {
      var s := Next(s0, trace[0]);
      StepFuture(s0, trace[0], c);
      if s.calls[c].fut == Undone {
        FutureOfRun(s, trace[1..], s1, c);
      } else {
        DoneIsFinal(s, trace[1..], s1, c);
      }
    }
  }

  lemma {:induction false} FutureFromStart(s0: State, trace: seq<Step>, s1: State, c: CallRef)
    requires Run(s0, trace, s1) && c !in s0.calls && c in s1.calls
    ensures forall f :: f != Undone ==> (s1.calls[c].fut == f <==> Given(s0, trace, c, f))
    decreases trace
  {
    var s := Next(s0, trace[0]);
    NewCallIsUndone(s0, trace[0], c);
    if c in s.calls {
      FutureOfRun(s, trace[1..], s1, c);
    } else {
      FutureFromStart(s, trace[1..], s1, c);
    }
  }

  lemma NewCallIsUndone(s: State, t: Step, c: CallRef)
    requires Enabled(s, t) && c !in s.calls
    ensures c in Next(s, t).calls ==> t == Enter(c) && Next(s, t).calls[c].fut == Undone
  {
    if t.Recv? || t.Lose? || t.Pop? {
      MessagesKeepKeys(s, t);
    } else if t.Check? || t.Finish? || t.CancelItem? {
      EndsKeepKeys(s, t);
    } else if t.Exit? || t.ShutBegin? || t.ShutSet? || t.TakeItem? || t.SawEmpty? || t.Close? {
      ShutKeepsKeys(s, t);
    } else if !t.Enter? {
      SubmitKeepsKeys(s, t);
    }
  }

  lemma SubmitKeepsKeys(s: State, t: Step)
    requires Enabled(s, t) && (t.ReadId? || t.BumpId? || t.Store? || t.Send? || t.SendFails? || t.UserCancel?)
    ensures Next(s, t).calls.Keys == s.calls.Keys
  {
    assert Next(s, t).calls == s.calls[t.c := Next(s, t).calls[t.c]];
  }

  lemma EndsKeepKeys(s: State, t: Step)
    requires Enabled(s, t) && (t.Check? || t.Finish? || t.CancelItem?)
    ensures Next(s, t).calls.Keys == s.calls.Keys
  {
    match t
    case Check(w) => CheckKeys(s, w, s.workers[w].id, s.workers[w].c);
    case Finish(w, ok) => FinishKeys(s, w, s.workers[w].c, ok);
    case CancelItem(k) => CancelKeys(s, k);
  }

  lemma CheckKeys(s: State, w: Worker, i: nat, c: CallRef)
    requires c in s.calls
    ensures DoCheck(s, w, i, c).calls.Keys == s.calls.Keys
  {
    if s.calls[c].fut == Cancelled {
      assert DoCheck(s, w, i, c).calls == s.calls[c := s.calls[c].(place := Retired)];
    }
  }

  lemma FinishKeys(s: State, w: Worker, c: CallRef, ok: bool)
    requires c in s.calls
    ensures DoFinish(s, w, c, ok).calls.Keys == s.calls.Keys
  {
  }

  lemma CancelKeys(s: State, k: ShutRef)
    requires Enabled(s, CancelItem(k))
    ensures DoCancelItem(s, k).calls.Keys == s.calls.Keys
  {
  }

  lemma ShutKeepsKeys(s: State, t: Step)
    requires Enabled(s, t) && (t.Exit? || t.ShutBegin? || t.ShutSet? || t.TakeItem? || t.SawEmpty? || t.Close?)
    ensures Next(s, t).calls.Keys == s.calls.Keys
  {
  }

  lemma MessagesKeepKeys(s: State, t: Step)
    requires Enabled(s, t) && (t.Recv? || t.Lose? || t.Pop?)
    ensures Next(s, t).calls.Keys == s.calls.Keys
  {
    match t
    case Recv(w, i) => MailKeys(s, i, With(w));
    case Lose(i) => MailKeys(s, i, Lost);
    case Pop(w) => MailKeys(s, s.workers[w].id, Consumed);
  }

  lemma MailKeys(s: State, i: nat, m: Mail)
    ensures SetMail(s, i, m).calls.Keys == s.calls.Keys && SetMail(s, i, m).shutdown == s.shutdown
  {
  }

  /**
   In every run: a future holds a result exactly if the Finish step that settled it found the
   function returned, an exception exactly if that step found it raised, and is cancelled exactly if
   the user or a cancel loop did that while it was undone.
   */
  lemma OutcomeIsWhatHappened(workers: set<Worker>, trace: seq<Step>, s: State, c: CallRef)
    requires Run(Init(workers), trace, s) && c in s.calls
    ensures s.calls[c].fut == Result <==> Given(Init(workers), trace, c, Result)
    ensures s.calls[c].fut == Failure <==> Given(Init(workers), trace, c, Failure)
    ensures s.calls[c].fut == Cancelled <==> Given(Init(workers), trace, c, Cancelled)
  {
    FutureFromStart(Init(workers), trace, s, c);
  }

  // ── After shutdown ─────────────────────────────────────────────────────

  lemma ShutdownStays(s: State, t: Step)
    requires Enabled(s, t) && s.shutdown
    ensures Next(s, t).shutdown
  {
    match t
    case Recv(w, i) => MailKeys(s, i, With(w));
    case Lose(i) => MailKeys(s, i, Lost);
    case Pop(w) => MailKeys(s, s.workers[w].id, Consumed);
    case Check(w) =>
    case Finish(w, ok) =>
    case CancelItem(k) =>
    case _ => FlagStays(s, t);
  }

  lemma FlagStays(s: State, t: Step)
    requires Enabled(s, t) && s.shutdown && !t.Recv? && !t.Lose? && !t.Pop? && !t.Check? && !t.Finish? && !t.CancelItem?
    ensures Next(s, t).shutdown
  {
  }

  lemma NoNewCalls(s: State, t: Step)
    requires Enabled(s, t) && s.shutdown
    ensures Next(s, t).calls.Keys <= s.calls.Keys
  {
    forall c | c in Next(s, t).calls ensures c in s.calls {
      if c !in s.calls {
        NewCallIsUndone(s, t, c);
      }
    }
  }

  /** Once the flag is set, submit() is refused for good. */
  lemma {:induction false} NoCallAfterShutdown(s0: State, trace: seq<Step>, s1: State)
    requires Run(s0, trace, s1) && s0.shutdown
    ensures s1.shutdown && s1.calls.Keys <= s0.calls.Keys
    decreases trace
  {
    if trace != [] {
      ShutdownStays(s0, trace[0]);
      NoNewCalls(s0, trace[0]);
      NoCallAfterShutdown(Next(s0, trace[0]), trace[1..], s1);
    }
  }

  // ── Nobody is stuck ────────────────────────────────────────────────────

  /** A worker with something in its hands can always go on; an idle one whenever there is a message. */
  lemma WorkerCanGoOn(s: State, w: Worker)
    requires Reachable(s) && w in s.workers
    ensures WorkerSteps(s, w, s.workers[w])
  {
    ReachableInv(s);
    HandsExist(s, w);
    HandsMove(s, w, s.workers[w]);
  }

  ghost predicate WorkerSteps(s: State, w: Worker, pc: WorkerPc) {
    match pc
    case Got(_) => Enabled(s, Pop(w))
    case Popped(_, _) => Enabled(s, Check(w))
    case Running(_, _) => Enabled(s, Finish(w, true)) && Enabled(s, Finish(w, false))
    case Waiting =>
      (forall i :: s.channel[i] > 0 ==> Enabled(s, Recv(w, i))) && (s.closed ==> Enabled(s, Exit(w)))
    case _ => true
  }

  lemma HandsMove(s: State, w: Worker, pc: WorkerPc)
    requires w in s.workers && s.workers[w] == pc && (pc.Popped? || pc.Running? ==> pc.c in s.calls)
    ensures WorkerSteps(s, w, pc)
  {
  }

  lemma HandsExist(s: State, w: Worker)
    requires w in s.workers && WorkerInv(w, s.workers[w], s.calls, s.callOf, s.closed)
    ensures s.workers[w].Popped? || s.workers[w].Running? ==> s.workers[w].c in s.calls
  {
  }

  /** submit() waits for nothing but the lock, whose holder can release it. */
  lemma SubmitCanGoOn(s: State, c: CallRef)
    requires Reachable(s) && c in s.calls
    ensures s.calls[c].pc == Entered ==> Enabled(s, ReadId(c)) || (s.lock.Some? && Enabled(s, BumpId(s.lock.value)))
    ensures s.calls[c].pc == Reading ==> Enabled(s, BumpId(c))
    ensures s.calls[c].pc == Allocated ==> Enabled(s, Store(c))
    ensures s.calls[c].pc == Stored ==> Enabled(s, if s.closed then SendFails(c) else Send(c))
  {
    ReachableInv(s);
    LockIsHeld(s);
  }

  lemma LockIsHeld(s: State)
    requires CallsInv(s)
    ensures s.lock.Some? ==> CallAt(s, s.lock.value, Reading)
  {
    if s.lock.Some? {
      assert NumberedOnce(s.lock.value, s.calls[s.lock.value], s.next, s.lock, s.callOf);
    }
  }

  /** shutdown() waits for nothing before its join. */
  lemma ShutdownCanGoOn(s: State, k: ShutRef)
    requires Reachable(s) && k in s.shuts
    ensures s.shuts[k].pc == Passed ==> Enabled(s, ShutSet(k))
    ensures s.shuts[k].pc == Cancelling ==> Enabled(s, SawEmpty(k)) || exists i :: Enabled(s, TakeItem(k, i))
    ensures s.shuts[k].pc.Holding? ==> Enabled(s, CancelItem(k))
    ensures s.shuts[k].pc == Closing ==> Enabled(s, Close(k))
  {
    ReachableInv(s);
    assert ShutInv(k, s.shuts[k], s.calls, s.asked, s.emptied, s.closed);
    if s.shuts[k].pc == Cancelling {
      CancellingGoesOn(s, k);
    }
  }

  lemma CancellingGoesOn(s: State, k: ShutRef)
    requires CallsInv(s) && TablesInv(s) && ShutAt(s, k, Cancelling)
    ensures Enabled(s, SawEmpty(k)) || exists i :: Enabled(s, TakeItem(k, i))
  {
    if s.pending != map[] {
      var i :| i in s.pending;
      assert Numbers(i, s.callOf[i], s.calls, s.next);
      assert Enabled(s, TakeItem(k, i));
    }
  }
}
