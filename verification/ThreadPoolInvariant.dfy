/** The invariant of the thread pool, and that every step keeps it. */
module ThreadPoolInvariant {
  import opened Options
  import opened ThreadPool

  predicate HasId(p: Call) {
    p.pc != Entered && p.pc != Reading
  }

  predicate WasStored(p: Call) {
    p.pc == Stored || p.pc == Returned || p.pc == Raised
  }

  predicate TakenFrom(place: Place, taker: Taker) {
    match place
    case Storing => taker == Nobody
    case Pending => taker == Nobody
    case AtWorker(_) => taker == SomeWorker
    case AtCancelLoop(_) => taker == CancelLoop
    case Retired => taker != Nobody
  }

  /** The pool touches the future of a call once, when it retires the call. */
  predicate FutureIs(p: Call) {
    if p.userCancelled then p.fut == Cancelled && p.settles == 0 && p.pc == Returned
    else if p.place != Retired then p.fut == Undone && p.settles == 0
    else p.settles == 1 && (if p.taker == CancelLoop then p.fut == Cancelled else p.fut == Result || p.fut == Failure)
  }

  /** What is known of a call from its own fields. */
  predicate Sound(p: Call) {
    && (WasStored(p) <==> p.place != Storing)
    && (p.pc == Returned <==> p.mail != Unsent)
    && TakenFrom(p.place, p.taker)
    && (p.taker == SomeWorker ==> p.mail == Consumed)
    && (p.mail == Consumed ==> p.taker != Nobody)
    && FutureIs(p)
  }

  /** Numbers are handed out once. */
  predicate NumberedOnce(c: CallRef, p: Call, next: nat, lock: Option<CallRef>, callOf: map<nat, CallRef>) {
    && (HasId(p) ==> p.id < next && p.id in callOf && callOf[p.id] == c)
    && (p.pc == Reading <==> lock == Some(c))
    && (p.pc == Reading ==> p.id == next)
  }

  predicate Numbers(i: nat, c: CallRef, calls: map<CallRef, Call>, next: nat) {
    i < next && c in calls && HasId(calls[c]) && calls[c].id == i
  }

  /** The history of a call agrees with _pending and the channel. */
  predicate Filed(p: Call, pending: bool, copies: nat, closed: bool, emptied: bool) {
    && (p.place == Pending <==> pending)
    && copies == (if p.mail == Queued then 1 else 0)
    && (p.mail == Lost ==> closed)
    && (pending && emptied ==> p.late)
  }

  /** The history of a call agrees with the threads. */
  predicate Handled(p: Call, i: nat, c: CallRef, workers: map<Worker, WorkerPc>, shuts: map<ShutRef, Shut>) {
    && (p.place.AtWorker? ==> p.place.w in workers && Handles(workers[p.place.w], i, c))
    && (p.place.AtCancelLoop? ==> p.place.k in shuts && shuts[p.place.k].pc == Holding(c))
    && (p.mail.With? ==> p.mail.w in workers && workers[p.mail.w] == Got(i))
  }

  predicate Handles(pc: WorkerPc, i: nat, c: CallRef) {
    pc == Popped(i, c) || pc == Running(i, c)
  }

  predicate WorkerInv(w: Worker, pc: WorkerPc, calls: map<CallRef, Call>, callOf: map<nat, CallRef>, closed: bool) {
    match pc
    case Got(i) => i in callOf && callOf[i] in calls && calls[callOf[i]].mail == With(w)
    case Popped(i, c) => i in callOf && callOf[i] == c && c in calls && calls[c].place == AtWorker(w)
    case Running(i, c) => i in callOf && callOf[i] == c && c in calls && calls[c].place == AtWorker(w)
    case Crashed(c) => c in calls && calls[c].userCancelled && calls[c].taker == SomeWorker
    case Exited => closed
    case Waiting => true
  }

  predicate ShutInv(k: ShutRef, sh: Shut, calls: map<CallRef, Call>, asked: bool, emptied: bool, closed: bool) {
    && (sh.pc.Holding? ==> sh.pc.c in calls && calls[sh.pc.c].place == AtCancelLoop(k))
    && (sh.pc == Cancelling || sh.pc.Holding? ==> sh.cancel && asked)
    && (sh.pc == Closed ==> closed)
    && (sh.cancel && (sh.pc == Closing || sh.pc == Closed) ==> emptied)
  }

  ghost predicate CallsInv(s: State) {
    && (s.lock.Some? ==> s.lock.value in s.calls)
    && (forall c :: c in s.calls ==> Sound(s.calls[c]))
    && (forall c :: c in s.calls ==> NumberedOnce(c, s.calls[c], s.next, s.lock, s.callOf))
    && (forall c :: c in s.calls && s.calls[c].taker == CancelLoop ==> s.asked)
    && (forall i :: i in s.callOf ==> Numbers(i, s.callOf[i], s.calls, s.next))
  }

  ghost predicate TablesInv(s: State) {
    && (forall i :: i in s.callOf ==>
          s.callOf[i] in s.calls && Filed(s.calls[s.callOf[i]], i in s.pending, s.channel[i], s.closed, s.emptied))
    && (forall i :: i in s.pending ==> i in s.callOf && s.pending[i] == s.callOf[i])
    && (forall i :: i in s.channel ==> i in s.callOf)
  }

  ghost predicate PartiesInv(s: State) {
    && (forall i :: i in s.callOf ==>
          s.callOf[i] in s.calls && Handled(s.calls[s.callOf[i]], i, s.callOf[i], s.workers, s.shuts))
    && (forall w :: w in s.workers ==> WorkerInv(w, s.workers[w], s.calls, s.callOf, s.closed))
    && (forall k :: k in s.shuts ==> ShutInv(k, s.shuts[k], s.calls, s.asked, s.emptied, s.closed))
  }

  ghost predicate Inv(s: State) {
    CallsInv(s) && TablesInv(s) && PartiesInv(s)
  }

  lemma InitInv(workers: set<Worker>)
    ensures Inv(Init(workers))
  {
  }

  // ── One call changes ───────────────────────────────────────────────────

  /** `s1` differs from `s` in call `c`, numbered as before, and possibly in the tables. */
  predicate Changes(s: State, s1: State, c: CallRef, p: Call) {
    && c in s.calls && HasId(s.calls[c]) && HasId(p) && p.id == s.calls[c].id
    && s1.calls == s.calls[c := p] && s1.callOf == s.callOf && s1.next == s.next && s1.lock == s.lock
    && s1.asked == s.asked && s1.emptied == s.emptied && s1.closed == s.closed
  }

  lemma CallChange(s: State, s1: State, c: CallRef, p: Call)
    requires CallsInv(s) && Changes(s, s1, c, p) && Sound(p) && (p.taker == CancelLoop ==> s.asked)
    ensures CallsInv(s1)
  {
    forall i | i in s1.callOf ensures Numbers(i, s1.callOf[i], s1.calls, s1.next) {
      assert Numbers(i, s.callOf[i], s.calls, s.next);
    }
  }

  ghost predicate TableStep(s: State, s1: State, c: CallRef, p: Call) {
    && Changes(s, s1, c, p)
    && (forall j :: j != p.id ==> s1.channel[j] == s.channel[j] && (j in s1.pending <==> j in s.pending))
    && (p.id in s1.pending ==> s1.pending[p.id] == c)
    && (forall j :: j in s1.pending && j != p.id ==> j in s.pending && s1.pending[j] == s.pending[j])
    && Filed(p, p.id in s1.pending, s1.channel[p.id], s.closed, s.emptied)
  }

  lemma OthersFiled(s: State, s1: State, c: CallRef, p: Call, i: nat)
    requires CallsInv(s) && TablesInv(s) && TableStep(s, s1, c, p) && i in s.callOf
    ensures s.callOf[i] in s1.calls
    ensures Filed(s1.calls[s.callOf[i]], i in s1.pending, s1.channel[i], s1.closed, s1.emptied)
  {
    assert Numbers(i, s.callOf[i], s.calls, s.next);
    assert Filed(s.calls[s.callOf[i]], i in s.pending, s.channel[i], s.closed, s.emptied);
  }

  lemma TableChange(s: State, s1: State, c: CallRef, p: Call)
    requires CallsInv(s) && TablesInv(s) && TableStep(s, s1, c, p)
    ensures TablesInv(s1)
  {
    assert NumberedOnce(c, s.calls[c], s.next, s.lock, s.callOf);
    forall i | i in s1.callOf
      ensures s1.callOf[i] in s1.calls
      ensures Filed(s1.calls[s1.callOf[i]], i in s1.pending, s1.channel[i], s1.closed, s1.emptied)
    {
      OthersFiled(s, s1, c, p, i);
    }
  }

  datatype Thread = Submitter | PoolWorker(w: Worker) | ShutCaller(k: ShutRef)

  /** Only the thread that holds a call, or its message, takes it further. */
  predicate Respects(q: Call, p: Call, who: Thread) {
    && (q.userCancelled ==> p.userCancelled)
    && (q.taker == SomeWorker ==> p.taker == SomeWorker)
    && (q.place.AtWorker? && who != PoolWorker(q.place.w) ==> p.place == q.place)
    && (q.place.AtCancelLoop? && who != ShutCaller(q.place.k) ==> p.place == q.place)
    && (q.mail.With? && who != PoolWorker(q.mail.w) ==> p.mail == q.mail)
  }

  predicate Mine(pc: WorkerPc, i: nat, c: CallRef) {
    pc == Waiting || pc == Got(i) || Handles(pc, i, c)
  }

  /** Apart from call `c`, only thread `who` moves, and it had to do with no other call. */
  predicate Moves(s: State, s1: State, c: CallRef, i: nat, who: Thread) {
    match who
    case Submitter => s1.workers == s.workers && s1.shuts == s.shuts
    case PoolWorker(w) =>
      && s1.shuts == s.shuts && w in s.workers && Mine(s.workers[w], i, c)
      && w in s1.workers && s1.workers == s.workers[w := s1.workers[w]]
      && WorkerInv(w, s1.workers[w], s1.calls, s1.callOf, s1.closed)
    case ShutCaller(k) =>
      && s1.workers == s.workers && k in s.shuts
      && (s.shuts[k].pc == Cancelling || s.shuts[k].pc == Holding(c))
      && k in s1.shuts && s1.shuts == s.shuts[k := s1.shuts[k]]
      && ShutInv(k, s1.shuts[k], s1.calls, s1.asked, s1.emptied, s1.closed)
  }

  predicate PartyStep(s: State, s1: State, c: CallRef, p: Call, who: Thread) {
    && Changes(s, s1, c, p) && Respects(s.calls[c], p, who) && Moves(s, s1, c, p.id, who)
    && Handled(p, p.id, c, s1.workers, s1.shuts)
  }

  lemma OthersHandled(s: State, s1: State, c: CallRef, p: Call, who: Thread, i: nat)
    requires CallsInv(s) && PartiesInv(s) && PartyStep(s, s1, c, p, who) && i in s.callOf
    ensures s.callOf[i] in s1.calls && Handled(s1.calls[s.callOf[i]], i, s.callOf[i], s1.workers, s1.shuts)
  {
    assert NumberedOnce(c, s.calls[c], s.next, s.lock, s.callOf);
    assert Numbers(i, s.callOf[i], s.calls, s.next);
    assert Handled(s.calls[s.callOf[i]], i, s.callOf[i], s.workers, s.shuts);
  }

  lemma OtherWorkers(s: State, s1: State, c: CallRef, p: Call, who: Thread, v: Worker)
    requires CallsInv(s) && PartiesInv(s) && PartyStep(s, s1, c, p, who) && v in s1.workers
    ensures WorkerInv(v, s1.workers[v], s1.calls, s1.callOf, s1.closed)
  {
    assert NumberedOnce(c, s.calls[c], s.next, s.lock, s.callOf);
    assert WorkerInv(v, s.workers[v], s.calls, s.callOf, s.closed);
  }

  lemma OtherShuts(s: State, s1: State, c: CallRef, p: Call, who: Thread, k: ShutRef)
    requires CallsInv(s) && PartiesInv(s) && PartyStep(s, s1, c, p, who) && k in s1.shuts
    ensures ShutInv(k, s1.shuts[k], s1.calls, s1.asked, s1.emptied, s1.closed)
  {
    assert ShutInv(k, s.shuts[k], s.calls, s.asked, s.emptied, s.closed);
  }

  lemma PartyChange(s: State, s1: State, c: CallRef, p: Call, who: Thread)
    requires CallsInv(s) && PartiesInv(s) && PartyStep(s, s1, c, p, who)
    ensures PartiesInv(s1)
  {
    forall i | i in s1.callOf
      ensures s1.callOf[i] in s1.calls && Handled(s1.calls[s1.callOf[i]], i, s1.callOf[i], s1.workers, s1.shuts)
    {
      OthersHandled(s, s1, c, p, who, i);
    }
    forall v | v in s1.workers ensures WorkerInv(v, s1.workers[v], s1.calls, s1.callOf, s1.closed) {
      OtherWorkers(s, s1, c, p, who, v);
    }
    forall k | k in s1.shuts ensures ShutInv(k, s1.shuts[k], s1.calls, s1.asked, s1.emptied, s1.closed) {
      OtherShuts(s, s1, c, p, who, k);
    }
  }

  /** What is known about one call. */
  predicate Known(s: State, c: CallRef) {
    && c in s.calls && HasId(s.calls[c]) && Sound(s.calls[c]) && (s.calls[c].taker == CancelLoop ==> s.asked)
    && var p := s.calls[c];
    && p.id in s.callOf && s.callOf[p.id] == c && (p.id in s.pending ==> s.pending[p.id] == c)
    && Filed(p, p.id in s.pending, s.channel[p.id], s.closed, s.emptied)
  }

  predicate Local(s: State, c: CallRef) {
    Known(s, c) && Handled(s.calls[c], s.calls[c].id, c, s.workers, s.shuts)
  }

  /** What a step may do to the call and to the tables. */
  ghost predicate Files(s: State, s1: State, c: CallRef) {
    && c in s1.calls
    && var p := s1.calls[c];
    && Sound(p) && (p.taker == CancelLoop ==> s.asked)
    && (forall j :: j != p.id ==> s1.channel[j] == s.channel[j] && (j in s1.pending <==> j in s.pending))
    && (p.id in s1.pending ==> s1.pending[p.id] == c)
    && (forall j :: j in s1.pending && j != p.id ==> j in s.pending && s1.pending[j] == s.pending[j])
    && Filed(p, p.id in s1.pending, s1.channel[p.id], s.closed, s.emptied)
  }

  /** A step that keeps the invariant, as seen from the only call it changes. */
  ghost predicate Good(s: State, s1: State, c: CallRef, who: Thread) {
    Files(s, s1, c) && PartyStep(s, s1, c, s1.calls[c], who)
  }

  lemma Change(s: State, s1: State, c: CallRef, who: Thread)
    requires Inv(s) && Good(s, s1, c, who)
    ensures Inv(s1)
  {
    CallChange(s, s1, c, s1.calls[c]);
    TableChange(s, s1, c, s1.calls[c]);
    PartyChange(s, s1, c, s1.calls[c], who);
  }

  lemma LocalFacts(s: State, c: CallRef)
    requires Inv(s) && c in s.calls && HasId(s.calls[c])
    ensures Local(s, c)
  {
    assert NumberedOnce(c, s.calls[c], s.next, s.lock, s.callOf);
  }

  // ── Each step ──────────────────────────────────────────────────────────

  lemma StoreStep(s: State, c: CallRef)
    requires Local(s, c) && Enabled(s, Store(c))
    ensures Good(s, Next(s, Store(c)), c, Submitter)
  {
  }

  lemma SubmitStep(s: State, t: Step)
    requires (t.Send? || t.SendFails? || t.UserCancel?) && Local(s, t.c) && Enabled(s, t)
    ensures Good(s, Next(s, t), t.c, Submitter)
  {
  }

  lemma MailStep(s: State, t: Step, c: CallRef)
    requires Local(s, c) && Enabled(s, t) && (t.Recv? || t.Lose?) && s.calls[c].id == t.i
    ensures Good(s, Next(s, t), c, if t.Recv? then PoolWorker(t.w) else Submitter)
  {
  }

  lemma PopFound(s: State, w: Worker, c: CallRef)
    requires Local(s, c) && s.calls[c].mail == With(w) && s.calls[c].place == Pending
    ensures Good(s, DoPop(s, w, s.calls[c].id), c, PoolWorker(w))
  {
  }

  lemma PopMissing(s: State, w: Worker, c: CallRef)
    requires Local(s, c) && s.calls[c].mail == With(w) && s.calls[c].place != Pending
    ensures Good(s, DoPop(s, w, s.calls[c].id), c, PoolWorker(w))
  {
  }

  lemma CheckFiles(s: State, w: Worker, c: CallRef)
    requires Known(s, c) && s.calls[c].place == AtWorker(w)
    ensures Files(s, DoCheck(s, w, s.calls[c].id, c), c)
  {
  }

  lemma CheckStep(s: State, w: Worker, c: CallRef)
    requires Local(s, c) && w in s.workers && s.workers[w] == Popped(s.calls[c].id, c)
    requires s.calls[c].place == AtWorker(w)
    ensures Good(s, DoCheck(s, w, s.calls[c].id, c), c, PoolWorker(w))
  {
    CheckFiles(s, w, c);
    assert s.calls[c := s.calls[c]] == s.calls;
  }

  lemma FinishFiles(s: State, w: Worker, ok: bool, c: CallRef)
    requires Known(s, c) && s.calls[c].place == AtWorker(w)
    ensures Files(s, DoFinish(s, w, c, ok), c)
  {
  }

  lemma FinishStep(s: State, w: Worker, ok: bool, c: CallRef)
    requires Local(s, c) && w in s.workers && s.workers[w] == Running(s.calls[c].id, c)
    requires s.calls[c].place == AtWorker(w)
    ensures Good(s, DoFinish(s, w, c, ok), c, PoolWorker(w))
  {
    FinishFiles(s, w, ok, c);
  }

  lemma TakeStep(s: State, k: ShutRef, i: nat, c: CallRef)
    requires Local(s, c) && Enabled(s, TakeItem(k, i)) && s.calls[c].id == i
    requires ShutInv(k, s.shuts[k], s.calls, s.asked, s.emptied, s.closed)
    ensures Good(s, Next(s, TakeItem(k, i)), c, ShutCaller(k))
  {
  }

  lemma CancelStep(s: State, k: ShutRef, c: CallRef)
    requires Local(s, c) && k in s.shuts && s.shuts[k].pc == Holding(c)
    requires ShutInv(k, s.shuts[k], s.calls, s.asked, s.emptied, s.closed)
    ensures Good(s, DoCancelItem(s, k), c, ShutCaller(k))
  {
  }

  // ── Steps that change no numbered call ─────────────────────────────────

  /** A call without a number touches no table. */
  lemma EarlyStep(s: State, t: Step)
    requires CallsInv(s) && Enabled(s, t) && (t.Enter? || t.ReadId?)
    ensures CallsInv(Next(s, t))
  {
    var s1 := Next(s, t);
    forall c | c in s1.calls ensures NumberedOnce(c, s1.calls[c], s1.next, s1.lock, s1.callOf) && Sound(s1.calls[c]) {
      if c in s.calls {
        assert NumberedOnce(c, s.calls[c], s.next, s.lock, s.callOf) && Sound(s.calls[c]);
      }
    }
    forall i | i in s1.callOf ensures Numbers(i, s1.callOf[i], s1.calls, s1.next) {
      assert Numbers(i, s.callOf[i], s.calls, s.next);
    }
  }

  lemma BumpStep(s: State, c: CallRef)
    requires CallsInv(s) && Enabled(s, BumpId(c))
    ensures CallsInv(Next(s, BumpId(c))) && s.calls[c].id !in s.callOf
  {
    var s1 := Next(s, BumpId(c));
    assert NumberedOnce(c, s.calls[c], s.next, s.lock, s.callOf) && Sound(s.calls[c]);
    assert forall i :: i in s.callOf ==> Numbers(i, s.callOf[i], s.calls, s.next);
    forall d | d in s1.calls ensures NumberedOnce(d, s1.calls[d], s1.next, s1.lock, s1.callOf) {
      BumpNumbers(s, c, d);
    }
    forall i | i in s1.callOf ensures Numbers(i, s1.callOf[i], s1.calls, s1.next) {
      assert i in s.callOf ==> Numbers(i, s.callOf[i], s.calls, s.next);
    }
  }

  lemma BumpNumbers(s: State, c: CallRef, d: CallRef)
    requires CallsInv(s) && Enabled(s, BumpId(c)) && d in s.calls
    ensures var s1 := Next(s, BumpId(c)); NumberedOnce(d, s1.calls[d], s1.next, s1.lock, s1.callOf)
  {
    assert NumberedOnce(c, s.calls[c], s.next, s.lock, s.callOf);
    assert NumberedOnce(d, s.calls[d], s.next, s.lock, s.callOf);
  }

  /** The new state has call `c`, without a place in any table, and knows at most number `i` more. */
  predicate Unfiled(s: State, s1: State, c: CallRef, i: nat) {
    && (c in s.calls ==> !HasId(s.calls[c])) && c in s1.calls && s1.calls == s.calls[c := s1.calls[c]]
    && s1.calls[c].place == Storing && s1.calls[c].mail == Unsent
    && (s1.callOf == s.callOf || (i !in s.callOf && s1.callOf == s.callOf[i := c]))
    && s1.pending == s.pending && s1.channel == s.channel && s1.workers == s.workers && s1.shuts == s.shuts
    && s1.asked == s.asked && s1.emptied == s.emptied && s1.closed == s.closed
  }

  lemma UnfiledTable(s: State, s1: State, c: CallRef, i: nat, j: nat)
    requires TablesInv(s) && Unfiled(s, s1, c, i) && j in s1.callOf
    requires j in s.callOf ==> Numbers(j, s.callOf[j], s.calls, s.next)
    ensures s1.callOf[j] in s1.calls
    ensures Filed(s1.calls[s1.callOf[j]], j in s1.pending, s1.channel[j], s1.closed, s1.emptied)
  {
    if j in s.callOf {
      assert Filed(s.calls[s.callOf[j]], j in s.pending, s.channel[j], s.closed, s.emptied);
    } else {
      assert j !in s.pending && j !in s.channel;
    }
  }

  lemma UnfiledTables(s: State, s1: State, c: CallRef, i: nat)
    requires CallsInv(s) && TablesInv(s) && Unfiled(s, s1, c, i)
    ensures TablesInv(s1)
  {
    forall j | j in s1.callOf
      ensures s1.callOf[j] in s1.calls
      ensures Filed(s1.calls[s1.callOf[j]], j in s1.pending, s1.channel[j], s1.closed, s1.emptied)
    {
      UnfiledTable(s, s1, c, i, j);
    }
  }

  lemma UnfiledParties(s: State, s1: State, c: CallRef, i: nat)
    requires CallsInv(s) && PartiesInv(s) && Unfiled(s, s1, c, i)
    ensures PartiesInv(s1)
  {
    forall j | j in s1.callOf
      ensures s1.callOf[j] in s1.calls && Handled(s1.calls[s1.callOf[j]], j, s1.callOf[j], s1.workers, s1.shuts)
    {
      assert j in s.callOf ==> Numbers(j, s.callOf[j], s.calls, s.next);
    }
    forall v | v in s1.workers ensures WorkerInv(v, s1.workers[v], s1.calls, s1.callOf, s1.closed) {
      UnfiledWorker(s, s1, c, i, v);
    }
    forall k | k in s1.shuts ensures ShutInv(k, s1.shuts[k], s1.calls, s1.asked, s1.emptied, s1.closed) {
      assert ShutInv(k, s.shuts[k], s.calls, s.asked, s.emptied, s.closed);
      assert s.shuts[k].pc.Holding? ==> Sound(s.calls[s.shuts[k].pc.c]);
    }
  }

  lemma UnfiledWorker(s: State, s1: State, c: CallRef, i: nat, v: Worker)
    requires CallsInv(s) && Unfiled(s, s1, c, i) && v in s.workers
    requires WorkerInv(v, s.workers[v], s.calls, s.callOf, s.closed)
    ensures WorkerInv(v, s1.workers[v], s1.calls, s1.callOf, s1.closed)
  {
    assert c in s.calls ==> Sound(s.calls[c]);
    match s.workers[v]
    case Got(j) => assert Numbers(j, s.callOf[j], s.calls, s.next);
    case _ =>
  }

  /** Flags only rise, and the cancel loop finds _pending empty only when it is. */
  predicate Raises(s: State, s1: State) {
    && s1.calls == s.calls && s1.callOf == s.callOf && s1.next == s.next && s1.lock == s.lock
    && s1.pending == s.pending && s1.channel == s.channel
    && (s.asked ==> s1.asked) && (s.closed ==> s1.closed) && (s.emptied ==> s1.emptied)
    && (s1.emptied && !s.emptied ==> s.pending == map[])
  }

  lemma RaiseTables(s: State, s1: State)
    requires CallsInv(s) && TablesInv(s) && Raises(s, s1)
    ensures CallsInv(s1) && TablesInv(s1)
  {
  }

  lemma ShutMoves(s: State, s1: State, k: ShutRef, sh: Shut)
    requires PartiesInv(s) && Raises(s, s1) && s1.workers == s.workers && s1.shuts == s.shuts[k := sh]
    requires (k in s.shuts ==> !s.shuts[k].pc.Holding?) && !sh.pc.Holding?
    requires ShutInv(k, sh, s1.calls, s1.asked, s1.emptied, s1.closed)
    ensures PartiesInv(s1)
  {
    forall i | i in s1.callOf
      ensures s1.callOf[i] in s1.calls && Handled(s1.calls[s1.callOf[i]], i, s1.callOf[i], s1.workers, s1.shuts)
    {
      assert Handled(s.calls[s.callOf[i]], i, s.callOf[i], s.workers, s.shuts);
    }
    forall v | v in s1.workers ensures WorkerInv(v, s1.workers[v], s1.calls, s1.callOf, s1.closed) {
      assert WorkerInv(v, s.workers[v], s.calls, s.callOf, s.closed);
    }
    forall j | j in s1.shuts ensures ShutInv(j, s1.shuts[j], s1.calls, s1.asked, s1.emptied, s1.closed) {
      assert j != k ==> ShutInv(j, s.shuts[j], s.calls, s.asked, s.emptied, s.closed);
    }
  }

  lemma ShutStep(s: State, t: Step)
    requires PartiesInv(s) && Enabled(s, t) && (t.ShutBegin? || t.ShutSet? || t.SawEmpty? || t.Close?)
    ensures Raises(s, Next(s, t)) && PartiesInv(Next(s, t))
  {
    if t.k in s.shuts {
      assert ShutInv(t.k, s.shuts[t.k], s.calls, s.asked, s.emptied, s.closed);
    }
    ShutMoves(s, Next(s, t), t.k, Next(s, t).shuts[t.k]);
  }

  lemma ExitStep(s: State, w: Worker)
    requires PartiesInv(s) && Enabled(s, Exit(w))
    ensures PartiesInv(Next(s, Exit(w)))
  {
    var s1 := Next(s, Exit(w));
    forall i | i in s1.callOf
      ensures s1.callOf[i] in s1.calls && Handled(s1.calls[s1.callOf[i]], i, s1.callOf[i], s1.workers, s1.shuts)
    {
      assert Handled(s.calls[s.callOf[i]], i, s.callOf[i], s.workers, s.shuts);
    }
  }

  // ── Every step, every run ──────────────────────────────────────────────

  lemma SubmitterKeeps(s: State, t: Step)
    requires Inv(s) && Enabled(s, t)
    requires t.Enter? || t.ReadId? || t.BumpId? || t.Store? || t.Send? || t.SendFails? || t.UserCancel?
    ensures Inv(Next(s, t))
  {
    var (c, s1) := (t.c, Next(s, t));
    if t.Enter? || t.ReadId? {
      EarlyStep(s, t);
      UnfiledTables(s, s1, c, 0);
      UnfiledParties(s, s1, c, 0);
    } else if t.BumpId? {
      assert Sound(s.calls[c]);
      BumpStep(s, c);
      UnfiledTables(s, s1, c, s.calls[c].id);
      UnfiledParties(s, s1, c, s.calls[c].id);
    } else {
      LocalFacts(s, c);
      if t.Store? {
        StoreStep(s, c);
      } else {
        SubmitStep(s, t);
      }
      Change(s, s1, c, Submitter);
    }
  }

  lemma PopKeeps(s: State, w: Worker)
    requires Inv(s) && Enabled(s, Pop(w))
    ensures Inv(Next(s, Pop(w)))
  {
    var i := s.workers[w].id;
    assert WorkerInv(w, s.workers[w], s.calls, s.callOf, s.closed);
    var c := s.callOf[i];
    assert Numbers(i, c, s.calls, s.next);
    LocalFacts(s, c);
    if s.calls[c].place == Pending {
      PopFound(s, w, c);
    } else {
      PopMissing(s, w, c);
    }
    Change(s, Next(s, Pop(w)), c, PoolWorker(w));
  }

  lemma WorkerKeeps(s: State, t: Step)
    requires Inv(s) && Enabled(s, t) && (t.Check? || t.Finish?)
    ensures Inv(Next(s, t))
  {
    var (w, c) := (t.w, s.workers[t.w].c);
    assert WorkerInv(w, s.workers[w], s.calls, s.callOf, s.closed);
    assert Numbers(s.workers[w].id, c, s.calls, s.next);
    LocalFacts(s, c);
    if t.Check? {
      CheckStep(s, w, c);
    } else {
      FinishStep(s, w, t.ok, c);
    }
    Change(s, Next(s, t), c, PoolWorker(w));
  }

  lemma MailKeeps(s: State, t: Step)
    requires Inv(s) && Enabled(s, t) && (t.Recv? || t.Lose?)
    ensures Inv(Next(s, t))
  {
    assert t.i in s.channel;
    var c := s.callOf[t.i];
    assert Numbers(t.i, c, s.calls, s.next);
    LocalFacts(s, c);
    MailStep(s, t, c);
    Change(s, Next(s, t), c, if t.Recv? then PoolWorker(t.w) else Submitter);
  }

  lemma CancelKeeps(s: State, t: Step)
    requires Inv(s) && Enabled(s, t) && (t.TakeItem? || t.CancelItem?)
    ensures Inv(Next(s, t))
  {
    assert ShutInv(t.k, s.shuts[t.k], s.calls, s.asked, s.emptied, s.closed);
    var c := if t.TakeItem? then s.pending[t.i] else s.shuts[t.k].pc.c;
    assert Sound(s.calls[c]);
    if t.TakeItem? {
      assert Numbers(t.i, s.callOf[t.i], s.calls, s.next);
      LocalFacts(s, c);
      TakeStep(s, t.k, t.i, c);
    } else {
      LocalFacts(s, c);
      CancelStep(s, t.k, c);
    }
    Change(s, Next(s, t), c, ShutCaller(t.k));
  }

  lemma StepKeepsInv(s: State, t: Step)
    requires Inv(s) && Enabled(s, t)
    ensures Inv(Next(s, t))
  {
    if t.Pop? {
      PopKeeps(s, t.w);
    } else if t.Check? || t.Finish? {
      WorkerKeeps(s, t);
    } else if t.Recv? || t.Lose? {
      MailKeeps(s, t);
    } else if t.TakeItem? || t.CancelItem? {
      CancelKeeps(s, t);
    } else if t.Exit? {
      ExitStep(s, t.w);
      RaiseTables(s, Next(s, t));
    } else if t.ShutBegin? || t.ShutSet? || t.SawEmpty? || t.Close? {
      ShutStep(s, t);
      RaiseTables(s, Next(s, t));
    } else {
      SubmitterKeeps(s, t);
    }
  }

  lemma {:induction false} RunKeepsInv(s0: State, trace: seq<Step>, s1: State)
    requires Inv(s0) && Run(s0, trace, s1)
    ensures Inv(s1)
    decreases trace
  {
    if trace != [] {
      StepKeepsInv(s0, trace[0]);
      RunKeepsInv(Next(s0, trace[0]), trace[1..], s1);
    }
  }
}
