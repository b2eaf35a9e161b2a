/** What holds of the thread pool in every interleaving of submit, workers and shutdown. */
module ThreadPoolTheorems {
  import opened Options
  import opened ThreadPool
  import opened ThreadPoolInvariant

  ghost predicate Reachable(s: State) {
    exists workers: set<Worker>, trace: seq<Step> :: Run(Init(workers), trace, s)
  }

  lemma ReachableInv(s: State)
    requires Reachable(s)
    ensures Inv(s)
  {
    var workers: set<Worker>, trace: seq<Step> :| Run(Init(workers), trace, s);
    InitInv(workers);
    RunKeepsInv(Init(workers), trace, s);
  }

  /** Where a call is, told from the pool's own data and not from its history. */
  ghost predicate Found(s: State, c: CallRef, p: Place)
    requires c in s.calls
  {
    match p
    case Storing => s.calls[c].pc == Entered || s.calls[c].pc == Reading || s.calls[c].pc == Allocated
    case Pending => exists i :: i in s.pending && s.pending[i] == c
    case AtWorker(w) => w in s.workers && (s.workers[w].Popped? || s.workers[w].Running?) && s.workers[w].c == c
    case AtCancelLoop(k) => k in s.shuts && s.shuts[k].pc == Holding(c)
    case Retired => s.calls[c].fut != Undone
  }

  lemma FoundAtPlace(s: State, c: CallRef)
    requires Inv(s) && c in s.calls
    ensures s.calls[c].place == Retired || Found(s, c, s.calls[c].place)
  {
    assert Sound(s.calls[c]);
    if HasId(s.calls[c]) {
      LocalFacts(s, c);
    }
  }

  lemma FoundNowhereElse(s: State, c: CallRef, p: Place)
    requires Inv(s) && c in s.calls && Found(s, c, p) && p != Retired
    ensures p == s.calls[c].place
  {
    assert Sound(s.calls[c]);
    match p
    case Storing =>
    case Pending =>
      var i :| i in s.pending && s.pending[i] == c;
      assert Numbers(i, s.callOf[i], s.calls, s.next);
      LocalFacts(s, c);
    case AtWorker(w) => assert WorkerInv(w, s.workers[w], s.calls, s.callOf, s.closed);
    case AtCancelLoop(k) => assert ShutInv(k, s.shuts[k], s.calls, s.asked, s.emptied, s.closed);
  }

  /**
   A call whose future the user has not cancelled is in exactly one place: being stored,
   pending, at one worker, in the hands of one cancel loop, or finished.
   */
  lemma ExactlyOnePlace(s: State, c: CallRef)
    requires Reachable(s) && c in s.calls && !s.calls[c].userCancelled
    ensures exists p :: Found(s, c, p) && forall q :: Found(s, c, q) ==> q == p
  {
    ReachableInv(s);
    assert Sound(s.calls[c]);
    var p := s.calls[c].place;
    FoundAtPlace(s, c);
    forall q | Found(s, c, q) ensures q == p {
      if q != Retired {
        FoundNowhereElse(s, c, q);
      }
    }
    assert Found(s, c, p);
  }

  /** With user cancels, a call is still held by at most one party, and by none once it is retired. */
  lemma AtMostOneHolder(s: State, c: CallRef, p: Place, q: Place)
    requires Reachable(s) && c in s.calls && Found(s, c, p) && Found(s, c, q) && p != Retired && q != Retired
    ensures p == q
  {
    ReachableInv(s);
    FoundNowhereElse(s, c, p);
    FoundNowhereElse(s, c, q);
  }

  /** No two calls share a number, and no call is pending under two numbers. */
  lemma NumbersAreDistinct(s: State)
    requires Reachable(s)
    ensures forall c, d :: c in s.calls && d in s.calls && c != d && HasId(s.calls[c]) && HasId(s.calls[d]) ==>
      s.calls[c].id != s.calls[d].id
    ensures forall i :: i in s.pending ==> s.pending[i] in s.calls && s.calls[s.pending[i]].id == i
  {
    ReachableInv(s);
    forall c, d | c in s.calls && d in s.calls && c != d && HasId(s.calls[c]) && HasId(s.calls[d])
      ensures s.calls[c].id != s.calls[d].id
    {
      assert NumberedOnce(c, s.calls[c], s.next, s.lock, s.callOf);
      assert NumberedOnce(d, s.calls[d], s.next, s.lock, s.callOf);
    }
    forall i | i in s.pending ensures s.pending[i] in s.calls && s.calls[s.pending[i]].id == i {
      assert Numbers(i, s.callOf[i], s.calls, s.next);
    }
  }

  /**
   The pool settles or cancels a future at most once.  A worker about to settle one finds it
   undone unless the user cancelled it, and only that can end a worker early.
   */
  lemma SettledAtMostOnce(s: State)
    requires Reachable(s)
    ensures forall c :: c in s.calls ==> s.calls[c].settles <= 1
    ensures forall w :: w in s.workers && s.workers[w].Running? ==>
      && s.workers[w].c in s.calls
      && (s.calls[s.workers[w].c].fut == Undone <==> !s.calls[s.workers[w].c].userCancelled)
    ensures forall w :: w in s.workers && s.workers[w].Crashed? ==>
      s.workers[w].c in s.calls && s.calls[s.workers[w].c].userCancelled
  {
    ReachableInv(s);
    forall w | w in s.workers && s.workers[w].Running?
      ensures s.workers[w].c in s.calls
      ensures s.calls[s.workers[w].c].fut == Undone <==> !s.calls[s.workers[w].c].userCancelled
    {
      assert WorkerInv(w, s.workers[w], s.calls, s.callOf, s.closed);
      assert Sound(s.calls[s.workers[w].c]);
    }
    forall w | w in s.workers && s.workers[w].Crashed?
      ensures s.workers[w].c in s.calls && s.calls[s.workers[w].c].userCancelled
    {
      assert WorkerInv(w, s.workers[w], s.calls, s.callOf, s.closed);
    }
    forall c | c in s.calls ensures s.calls[c].settles <= 1 {
      assert Sound(s.calls[c]);
    }
  }

  /** A worker that finds its entry missing lost it to a cancel loop, never to another worker. */
  lemma MissingMeansCancelled(s: State, w: Worker)
    requires Reachable(s) && w in s.workers && s.workers[w].Got? && s.workers[w].id !in s.pending
    ensures s.asked
    ensures exists c ::
      && c in s.calls && HasId(s.calls[c]) && s.calls[c].id == s.workers[w].id
      && s.calls[c].taker == CancelLoop
  {
    ReachableInv(s);
    assert WorkerInv(w, s.workers[w], s.calls, s.callOf, s.closed);
    var i := s.workers[w].id;
    assert Numbers(i, s.callOf[i], s.calls, s.next);
    LocalFacts(s, s.callOf[i]);
    assert s.calls[s.callOf[i]].taker == CancelLoop;
  }

  /** While the channel is open, the message of every pending call whose submit returned is on its way. */
  lemma NoCallIsForgotten(s: State, i: nat)
    requires Reachable(s) && !s.closed && i in s.pending
    requires s.pending[i] in s.calls && s.calls[s.pending[i]].pc == Returned
    ensures s.channel[i] == 1 || exists w :: w in s.workers && s.workers[w] == Got(i)
  {
    ReachableInv(s);
    var c := s.pending[i];
    assert Numbers(i, c, s.calls, s.next);
    LocalFacts(s, c);
    if s.calls[c].mail.With? {
      assert s.workers[s.calls[c].mail.w] == Got(i);
    }
  }

  /**
   When a shutdown(cancel_futures=True) is over and every worker has stopped, a stored call is
   left undone if and only if its entry is still pending and the user did not cancel it, and
   then it was stored after the cancel loop had found nothing.
   */
  lemma LeftUndoneExactly(s: State, k: ShutRef, c: CallRef)
    requires Reachable(s) && k in s.shuts && s.shuts[k] == Shut(Closed, true)
    requires forall w :: w in s.workers ==> s.workers[w] == Exited || s.workers[w].Crashed?
    requires forall j :: j in s.shuts ==> !s.shuts[j].pc.Holding?
    requires c in s.calls && WasStored(s.calls[c])
    ensures s.calls[c].fut == Undone <==> s.calls[c].id in s.pending && !s.calls[c].userCancelled
    ensures s.calls[c].id in s.pending ==> s.calls[c].late
  {
    ReachableInv(s);
    LocalFacts(s, c);
    assert ShutInv(k, s.shuts[k], s.calls, s.asked, s.emptied, s.closed);
  }

  // ── Calls that a cancelling shutdown can miss ──────────────────────────

  /** Nothing will look for pending entries any more: no cancel loop runs or is about to. */
  ghost predicate NoLoopLeft(s: State) {
    && s.shutdown
    && forall k :: k in s.shuts ==>
         s.shuts[k].pc == Closing || s.shuts[k].pc == Closed || s.shuts[k] == Shut(Passed, false)
  }

  /** The entry is pending and no message names it: submit() raised, or the channel lost the message. */
  predicate Missed(p: Call) {
    p.place == Pending && (p.pc == Raised || (p.pc == Returned && p.mail == Lost))
  }

  ghost predicate Doomed(s: State, c: CallRef) {
    Inv(s) && NoLoopLeft(s) && c in s.calls && Missed(s.calls[c])
  }

  /** The pool never completes such a call; only the user can still cancel it. */
  lemma DoomedIsUndone(s: State, c: CallRef)
    requires Doomed(s, c)
    ensures s.calls[c].fut == Undone || s.calls[c].userCancelled
    ensures s.calls[c].settles == 0 && (s.calls[c].pc == Raised ==> s.calls[c].fut == Undone)
  {
    assert Sound(s.calls[c]);
  }

  predicate ByShutdown(t: Step) {
    t.ShutBegin? || t.ShutSet? || t.TakeItem? || t.CancelItem? || t.SawEmpty? || t.Close?
  }

  lemma NoLoopComes(s: State, t: Step)
    requires NoLoopLeft(s) && Enabled(s, t) && ByShutdown(t)
    ensures NoLoopLeft(Next(s, t)) && (t.ShutSet? || t.Close?)
  {
  }

  /** The step is none of a shutdown, and not one of call c. */
  predicate Spares(s: State, s1: State, c: CallRef) {
    && s1.shuts == s.shuts && s1.shutdown == s.shutdown
    && c in s.calls && c in s1.calls && s1.calls[c] == s.calls[c]
  }

  lemma SubmitSpares(s: State, t: Step, c: CallRef)
    requires c in s.calls && Missed(s.calls[c]) && Enabled(s, t) && t != UserCancel(c)
    requires t.Enter? || t.ReadId? || t.BumpId? || t.Store? || t.Send? || t.SendFails? || t.UserCancel?
    ensures Spares(s, Next(s, t), c)
  {
  }

  lemma MailSpares(s: State, t: Step, c: CallRef)
    requires Enabled(s, t) && (t.Recv? || t.Lose?) && c in s.calls && t.i in s.callOf && s.callOf[t.i] != c
    ensures Spares(s, Next(s, t), c)
  {
    SetMailSpares(s, t.i, if t.Recv? then With(t.w) else Lost, c);
  }

  lemma SetMailSpares(s: State, i: nat, m: Mail, c: CallRef)
    requires c in s.calls && i in s.callOf && s.callOf[i] != c
    ensures Spares(s, SetMail(s, i, m), c)
  {
  }

  lemma PopSpares(s: State, w: Worker, i: nat, c: CallRef)
    requires c in s.calls && i in s.callOf && s.callOf[i] != c && (i in s.pending ==> s.pending[i] != c)
    ensures Spares(s, DoPop(s, w, i), c)
  {
    if i in s.pending && s.pending[i] in s.calls {
      PopFoundSpares(s, w, i, c);
    } else {
      PopMissingSpares(s, w, i, c);
    }
  }

  lemma PopFoundSpares(s: State, w: Worker, i: nat, c: CallRef)
    requires c in s.calls && i in s.pending && s.pending[i] in s.calls && s.pending[i] != c
    ensures Spares(s, DoPop(s, w, i), c)
  {
  }

  lemma PopMissingSpares(s: State, w: Worker, i: nat, c: CallRef)
    requires c in s.calls && i in s.callOf && s.callOf[i] != c && !(i in s.pending && s.pending[i] in s.calls)
    ensures Spares(s, DoPop(s, w, i), c)
  {
  }

  lemma CheckSpares(s: State, w: Worker, i: nat, d: CallRef, c: CallRef)
    requires c in s.calls && d in s.calls && c != d
    ensures Spares(s, DoCheck(s, w, i, d), c)
  {
    assert s.calls[d].fut != Cancelled ==> DoCheck(s, w, i, d).calls == s.calls;
  }

  lemma FinishSpares(s: State, w: Worker, d: CallRef, ok: bool, c: CallRef)
    requires c in s.calls && d in s.calls && c != d
    ensures Spares(s, DoFinish(s, w, d, ok), c)
  {
  }

  /** The channel has nothing to do with a call without a message. */
  lemma ChannelSpares(s: State, t: Step, c: CallRef)
    requires Doomed(s, c) && Enabled(s, t) && (t.Recv? || t.Lose?)
    ensures Spares(s, Next(s, t), c)
  {
    LocalFacts(s, c);
    MailElsewhere(s, t.i, c);
    MailSpares(s, t, c);
  }

  /** Nor have the workers. */
  lemma WorkersSpare(s: State, t: Step, c: CallRef)
    requires Doomed(s, c) && Enabled(s, t) && (t.Pop? || t.Check? || t.Finish?)
    ensures Spares(s, Next(s, t), c)
  {
    LocalFacts(s, c);
    BusyElsewhere(s, t.w, c);
    if t.Pop? {
      PopSpares(s, t.w, s.workers[t.w].id, c);
    } else if t.Check? {
      CheckSpares(s, t.w, s.workers[t.w].id, s.workers[t.w].c, c);
    } else {
      FinishSpares(s, t.w, s.workers[t.w].c, t.ok, c);
    }
  }

  lemma MailElsewhere(s: State, i: nat, c: CallRef)
    requires Inv(s) && Local(s, c) && Missed(s.calls[c]) && s.channel[i] > 0
    ensures i in s.callOf && s.callOf[i] != c
  {
    assert i in s.channel;
    assert Numbers(i, s.callOf[i], s.calls, s.next);
  }

  lemma BusyElsewhere(s: State, w: Worker, c: CallRef)
    requires Inv(s) && Local(s, c) && Missed(s.calls[c]) && w in s.workers
    ensures s.workers[w].Popped? || s.workers[w].Running? ==> s.workers[w].c != c
    ensures s.workers[w].Got? ==> s.workers[w].id in s.callOf && s.callOf[s.workers[w].id] != c
    ensures s.workers[w].Got? && s.workers[w].id in s.pending ==> s.pending[s.workers[w].id] != c
  {
    assert WorkerInv(w, s.workers[w], s.calls, s.callOf, s.closed);
  }

  /** Whatever step comes, the call stays missed. */
  lemma StaysDoomed(s: State, t: Step, c: CallRef)
    requires Doomed(s, c) && Enabled(s, t)
    ensures Doomed(Next(s, t), c)
  {
    StepKeepsInv(s, t);
    if t.Recv? || t.Lose? {
      ChannelSpares(s, t, c);
    } else if t.Pop? || t.Check? || t.Finish? {
      WorkersSpare(s, t, c);
    } else if ByShutdown(t) {
      NoLoopComes(s, t);
    } else if !t.Exit? && t != UserCancel(c) {
      SubmitSpares(s, t, c);
    }
  }

  lemma {:induction false} DoomedForGood(s0: State, trace: seq<Step>, s1: State, c: CallRef)
    requires Doomed(s0, c) && Run(s0, trace, s1)
    ensures Doomed(s1, c)
    decreases trace
  {
    if trace != [] {
      StaysDoomed(s0, trace[0], c);
      DoomedForGood(Next(s0, trace[0]), trace[1..], s1, c);
    }
  }

  /** A call that raised keeps doing so: nobody was given its future. */
  lemma {:induction false} RaisedForGood(s0: State, trace: seq<Step>, s1: State, c: CallRef)
    requires Doomed(s0, c) && s0.calls[c].pc == Raised && Run(s0, trace, s1)
    ensures c in s1.calls && s1.calls[c].fut == Undone
    decreases trace
  {
    if trace == [] {
      DoomedIsUndone(s0, c);
    } else {
      StaysDoomed(s0, trace[0], c);
      StaysRaised(s0, trace[0], c);
      RaisedForGood(Next(s0, trace[0]), trace[1..], s1, c);
    }
  }

  lemma StaysRaised(s: State, t: Step, c: CallRef)
    requires Doomed(s, c) && s.calls[c].pc == Raised && Enabled(s, t) && Doomed(Next(s, t), c)
    ensures Next(s, t).calls[c].pc == Raised
  {
    if t.Recv? || t.Lose? {
      ChannelSpares(s, t, c);
    } else if t.Pop? || t.Check? || t.Finish? {
      WorkersSpare(s, t, c);
    } else if ByShutdown(t) {
      NoLoopComes(s, t);
    } else if !t.Exit? {
      SubmitSpares(s, t, c);
    }
  }

  /** A call that has entered submit() can get its number, while nothing else that matters changes. */
  lemma GetsNumber(s: State, c: CallRef) returns (trace: seq<Step>, s1: State)
    requires CallsInv(s) && c in s.calls && !WasStored(s.calls[c])
    ensures Run(s, trace, s1) && CallAt(s1, c, Allocated)
    ensures s1.shuts == s.shuts && s1.shutdown == s.shutdown && s1.closed == s.closed
  {
    if s.calls[c].pc == Entered {
      var before, s0 := FreesLock(s, c);
      var rest: seq<Step>;
      rest, s1 := TakesNumber(s0, c);
      RunConcat(s, before, s0, rest, s1);
      trace := before + rest;
    } else if s.calls[c].pc == Reading {
      trace, s1 := BumpsNumber(s, c);
    } else {
      trace, s1 := [], s;
    }
  }

  lemma BumpsNumber(s: State, c: CallRef) returns (trace: seq<Step>, s1: State)
    requires CallAt(s, c, Reading)
    ensures Run(s, trace, s1) && CallAt(s1, c, Allocated) && s1.lock == None
    ensures s1.shuts == s.shuts && s1.shutdown == s.shutdown && s1.closed == s.closed
    ensures forall d :: d in s.calls && d != c ==> d in s1.calls && s1.calls[d] == s.calls[d]
  {
    RunOne(s, BumpId(c));
    trace, s1 := [BumpId(c)], Next(s, BumpId(c));
  }

  lemma TakesNumber(s: State, c: CallRef) returns (trace: seq<Step>, s1: State)
    requires CallAt(s, c, Entered) && s.lock == None
    ensures Run(s, trace, s1) && CallAt(s1, c, Allocated)
    ensures s1.shuts == s.shuts && s1.shutdown == s.shutdown && s1.closed == s.closed
  {
    RunOne(s, ReadId(c));
    var s0 := Next(s, ReadId(c));
    RunOne(s0, BumpId(c));
    s1 := Next(s0, BumpId(c));
    RunConcat(s, [ReadId(c)], s0, [BumpId(c)], s1);
    trace := [ReadId(c)] + [BumpId(c)];
  }

  lemma FreesLock(s: State, c: CallRef) returns (trace: seq<Step>, s1: State)
    requires CallsInv(s) && CallAt(s, c, Entered)
    ensures Run(s, trace, s1) && CallAt(s1, c, Entered) && s1.lock == None
    ensures s1.shuts == s.shuts && s1.shutdown == s.shutdown && s1.closed == s.closed
  {
    if s.lock.Some? {
      var d := s.lock.value;
      assert NumberedOnce(d, s.calls[d], s.next, s.lock, s.callOf);
      trace, s1 := BumpsNumber(s, d);
    } else {
      trace, s1 := [], s;
    }
  }

  /**
   From every reachable state in which the cancel loops have found nothing: a call that has
   entered submit() and is not stored yet may be left undone, and then it is for good.
   */
  lemma UnstoredCallCanBeMissed(s: State, k: ShutRef, c: CallRef) returns (trace: seq<Step>, s1: State)
    requires Reachable(s) && NoLoopLeft(s) && k in s.shuts && s.shuts[k].cancel
    requires c in s.calls && !WasStored(s.calls[c])
    ensures Run(s, trace, s1)
    ensures forall t, s2 :: Run(s1, t, s2) ==> c in s2.calls && s2.calls[c].fut == Undone
  {
    ReachableInv(s);
    var numbering, s0 := GetsNumber(s, c);
    RunKeepsInv(s, numbering, s0);
    var rest: seq<Step>;
    rest, s1 := StoredTooLate(s0, k, c);
    trace := numbering + rest;
    RunConcat(s, numbering, s0, rest, s1);
    forall t, s2 | Run(s1, t, s2) ensures c in s2.calls && s2.calls[c].fut == Undone {
      RaisedForGood(s1, t, s2, c);
    }
  }

  /** The push socket is closed, the entry is stored, the send fails. */
  lemma StoredTooLate(s: State, k: ShutRef, c: CallRef) returns (trace: seq<Step>, s1: State)
    requires Inv(s) && NoLoopLeft(s) && k in s.shuts && s.shuts[k].cancel && CallAt(s, c, Allocated)
    ensures Run(s, trace, s1) && Doomed(s1, c) && s1.calls[c].pc == Raised && s1.closed
  {
    var closing, s0 := GetsClosed(s, k, c);
    RunKeepsInv(s, closing, s0);
    assert Sound(s0.calls[c]);
    var rest: seq<Step>;
    rest, s1 := StoreFails(s0, c);
    RunConcat(s, closing, s0, rest, s1);
    RunKeepsInv(s0, rest, s1);
    trace := closing + rest;
  }

  lemma StoreFails(s: State, c: CallRef) returns (trace: seq<Step>, s1: State)
    requires CallAt(s, c, Allocated) && s.calls[c].fut == Undone
    ensures Run(s, trace, s1) && CallAt(s1, c, Raised) && s1.calls[c].place == Pending && s1.calls[c].fut == Undone
    ensures s1.shuts == s.shuts && s1.shutdown == s.shutdown && s1.closed == s.closed
  {
    RunOne(s, Store(c));
    var s0 := Next(s, Store(c));
    RunOne(s0, SendFails(c));
    s1 := Next(s0, SendFails(c));
    RunConcat(s, [Store(c)], s0, [SendFails(c)], s1);
    trace := [Store(c)] + [SendFails(c)];
  }

  /**
   As long as the push socket is open, such a call can even return: its message is sent, lost
   when the socket closes, and the future that the caller holds is never completed by the pool.
   */
  lemma ReturnedCallCanBeMissed(s: State, k: ShutRef, c: CallRef) returns (trace: seq<Step>, s1: State)
    requires Reachable(s) && NoLoopLeft(s) && ShutAt(s, k, Closing) && !s.closed
    requires c in s.calls && !WasStored(s.calls[c])
    ensures Run(s, trace, s1) && CallAt(s1, c, Returned) && s1.calls[c].fut == Undone
    ensures forall t, s2 :: Run(s1, t, s2) ==>
      && c in s2.calls && s2.calls[c].settles == 0
      && (s2.calls[c].fut == Undone || s2.calls[c].userCancelled)
  {
    ReachableInv(s);
    var numbering, s0 := GetsNumber(s, c);
    RunKeepsInv(s, numbering, s0);
    var rest: seq<Step>;
    rest, s1 := SentAndLost(s0, k, c);
    trace := numbering + rest;
    RunConcat(s, numbering, s0, rest, s1);
    forall t, s2 | Run(s1, t, s2)
      ensures c in s2.calls && s2.calls[c].settles == 0 && (s2.calls[c].fut == Undone || s2.calls[c].userCancelled)
    {
      DoomedForGood(s1, t, s2, c);
      DoomedIsUndone(s2, c);
    }
  }

  lemma SentAndLost(s: State, k: ShutRef, c: CallRef) returns (trace: seq<Step>, s1: State)
    requires Inv(s) && NoLoopLeft(s) && ShutAt(s, k, Closing) && !s.closed && CallAt(s, c, Allocated)
    ensures Run(s, trace, s1) && Doomed(s1, c) && CallAt(s1, c, Returned) && s1.calls[c].fut == Undone
  {
    assert Sound(s.calls[c]);
    var sending, s0 := StoreSends(s, c);
    RunKeepsInv(s, sending, s0);
    RunOne(s0, Close(k));
    NoLoopComes(s0, Close(k));
    var s2 := Next(s0, Close(k));
    StepKeepsInv(s0, Close(k));
    s1 := LosesMail(s2, c);
    StepKeepsInv(s2, Lose(s2.calls[c].id));
    RunConcat(s0, [Close(k)], s2, [Lose(s2.calls[c].id)], s1);
    RunConcat(s, sending, s0, [Close(k)] + [Lose(s2.calls[c].id)], s1);
    trace := sending + ([Close(k)] + [Lose(s2.calls[c].id)]);
  }

  lemma StoreSends(s: State, c: CallRef) returns (trace: seq<Step>, s1: State)
    requires CallAt(s, c, Allocated) && s.calls[c].fut == Undone && !s.closed
    ensures Run(s, trace, s1) && CallAt(s1, c, Returned) && s1.calls[c].fut == Undone
    ensures s1.calls[c].place == Pending && s1.calls[c].mail == Queued
    ensures s1.shuts == s.shuts && s1.shutdown == s.shutdown
  {
    RunOne(s, Store(c));
    var s0 := Next(s, Store(c));
    RunOne(s0, Send(c));
    s1 := Next(s0, Send(c));
    RunConcat(s, [Store(c)], s0, [Send(c)], s1);
    trace := [Store(c)] + [Send(c)];
  }

  lemma LosesMail(s: State, c: CallRef) returns (s1: State)
    requires Inv(s) && NoLoopLeft(s) && CallAt(s, c, Returned) && s.closed
    requires s.calls[c].place == Pending && s.calls[c].mail == Queued && s.calls[c].fut == Undone
    ensures Enabled(s, Lose(s.calls[c].id)) && Run(s, [Lose(s.calls[c].id)], s1) && s1 == Next(s, Lose(s.calls[c].id))
    ensures NoLoopLeft(s1) && CallAt(s1, c, Returned) && Missed(s1.calls[c]) && s1.calls[c].fut == Undone
  {
    LocalFacts(s, c);
    var i := s.calls[c].id;
    RunOne(s, Lose(i));
    s1 := Next(s, Lose(i));
  }

  lemma GetsClosed(s: State, k: ShutRef, c: CallRef) returns (trace: seq<Step>, s1: State)
    requires Inv(s) && NoLoopLeft(s) && k in s.shuts && s.shuts[k].cancel && CallAt(s, c, Allocated)
    ensures Run(s, trace, s1) && s1.closed && NoLoopLeft(s1) && CallAt(s1, c, Allocated)
  {
    if s.shuts[k].pc == Closing {
      RunOne(s, Close(k));
      NoLoopComes(s, Close(k));
      trace, s1 := [Close(k)], Next(s, Close(k));
    } else {
      assert ShutInv(k, s.shuts[k], s.calls, s.asked, s.emptied, s.closed);
      trace, s1 := [], s;
    }
  }

  lemma ReachableNext(s: State, t: Step)
    requires Reachable(s) && Enabled(s, t)
    ensures Reachable(Next(s, t))
  {
    var workers: set<Worker>, trace: seq<Step> :| Run(Init(workers), trace, s);
    RunOne(s, t);
    RunConcat(Init(workers), trace, s, [t], Next(s, t));
  }

  /** One worker, one call that has its number. */
  function CallAllocated(): State {
    State(1, None, map[0 := NewCall().(pc := Allocated)], map[], multiset{}, map[0 := Waiting],
          false, false, map[], false, false, map[0 := 0])
  }

  function CallEntered(): State {
    Init({0}).(calls := map[0 := NewCall()])
  }

  lemma EnteredIsReachable()
    ensures Reachable(CallEntered())
  {
    var s0 := Init({0});
    assert Run(s0, [], s0);
    ReachableNext(s0, Enter(0));
    assert Next(s0, Enter(0)) == CallEntered();
  }

  function CallReading(): State {
    CallEntered().(calls := map[0 := NewCall().(pc := Reading)], lock := Some(0))
  }

  lemma ReadingIsReachable()
    ensures Reachable(CallReading())
  {
    EnteredIsReachable();
    ReachableNext(CallEntered(), ReadId(0));
    assert Next(CallEntered(), ReadId(0)) == CallReading();
  }

  lemma AllocatedIsReachable()
    ensures Reachable(CallAllocated())
  {
    ReadingIsReachable();
    ReachableNext(CallReading(), BumpId(0));
    var s := Next(CallReading(), BumpId(0));
    assert s.calls == CallAllocated().calls && s.callOf == CallAllocated().callOf;
    assert s == CallAllocated();
  }

  function LoopBegun(): State {
    CallAllocated().(shutdown := true, asked := true, shuts := map[0 := Shut(Cancelling, true)])
  }

  lemma CancellingIsReachable()
    ensures Reachable(LoopBegun())
  {
    AllocatedIsReachable();
    var s3 := CallAllocated();
    ReachableNext(s3, ShutBegin(0, true));
    var s4 := s3.(shuts := map[0 := Shut(Passed, true)]);
    assert Next(s3, ShutBegin(0, true)) == s4;
    ReachableNext(s4, ShutSet(0));
    assert Next(s4, ShutSet(0)) == LoopBegun();
  }

  function LoopEnded(): State {
    LoopBegun().(emptied := true, shuts := map[0 := Shut(Closing, true)])
  }

  /** Such calls exist: submit() looks at the flag, the loop finds nothing, the entry is not stored yet. */
  lemma MissableCallExists()
    ensures exists s: State, k: ShutRef, c: CallRef ::
      && Reachable(s) && NoLoopLeft(s) && k in s.shuts && s.shuts[k] == Shut(Closing, true) && !s.closed
      && c in s.calls && !WasStored(s.calls[c])
  {
    CancellingIsReachable();
    ReachableNext(LoopBegun(), SawEmpty(0));
    assert Next(LoopBegun(), SawEmpty(0)) == LoopEnded();
    var s := LoopEnded();
    assert NoLoopLeft(s) && 0 in s.shuts && 0 in s.calls;
  }
}
