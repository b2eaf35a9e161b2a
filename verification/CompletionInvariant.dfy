/**
 The inductive invariant of the completion pipeline.

 Every part takes only the components of the state that it speaks about, so that a step
 which leaves those components alone keeps the part without any proof.
 */
module CompletionInvariant {
  import opened Options
  import opened CompletionPipeline

  type Ops = map<OpRef, Op>
  type Table = map<Addr, OpRef>

  ghost predicate NoDup<T(!new)>(q: seq<T>) {
    forall i, j :: 0 <= i < j < |q| ==> q[i] != q[j]
  }

  /** The op has an entry in the dictionary unless the drain has taken it. */
  predicate IsRegistered(p: Op) {
    p.submit != Created && p.submit != Returned(true)
  }

  predicate Holds(table: Table, a: Addr, o: OpRef) {
    a in table && table[a] == o
  }

  /** The race between fire() and reach_skip_point(), seen from one op. */
  predicate RouteInv(p: Op) {
    && (p.skip == Open ==> p.fire == Unfired && (p.submit == Created || p.submit == Registered || p.submit == Started))
    && (p.skip == FireFirst ==>
          p.fire == Fired && (p.submit == Started || p.submit == Skipping || p.submit == Returned(true)))
    && (p.skip == SubmitFirst ==> p.submit == Returned(false))
    && p.pushes == (if p.skip == SubmitFirst && (p.fire == Unsent || p.fire == Fired) then 1 else 0)
    && ((p.submit == Registered || p.submit == Started || p.submit == Skipping) ==> p.held)
    && (p.freed ==> !p.held)
  }

  /** What the op's own fields say about its completion. */
  predicate FutureInv(p: Op) {
    && p.attempts <= 1
    && (p.attempts == 1 ==> !p.hasFuture && (p.fut != Waiting || p.scheduled))
    && (p.fut.Resolved? || p.scheduled ==> p.attempts == 1)
    && (p.drainTook ==> p.pushes == 1 && !p.scheduled)
    && (p.drainTook && p.fut.Resolved? ==> p.fut.ok == p.code)
    && (p.fut == Resolved(false) || (p.scheduled && !p.plan) ==> !p.code)
    && (!p.code ==> p.fire != Unfired)
  }

  /** The op's future is taken only while its callback runs or after it has run. */
  predicate TakerInv(o: OpRef, p: Op, running: Option<OpRef>, relRunning: Option<OpRef>) {
    p.hasFuture <==> p.attempts == 0 && running != Some(o) && relRunning != Some(o)
  }

  /** What the drain took is listed, running or complete; release does not have it as well. */
  predicate DrainSideInv(o: OpRef, p: Op, callbacks: seq<OpRef>, running: Option<OpRef>, snapshot: Table) {
    p.drainTook ==>
      && !Holds(snapshot, p.addr, o)
      && (o in callbacks || running == Some(o) || p.attempts == 1)
  }

  /** What release took is still to be called, running or complete; only what was taken is completed. */
  predicate ReleaseSideInv(o: OpRef, p: Op, snapshot: Table, toCall: Table, relRunning: Option<OpRef>) {
    && (Holds(snapshot, p.addr, o) ==> Holds(toCall, p.addr, o) || relRunning == Some(o) || p.attempts == 1)
    && (p.attempts == 1 ==> p.drainTook || Holds(snapshot, p.addr, o))
  }

  /** A registered op stays in the dictionary, alive, until the drain takes it. */
  predicate RegistrationInv(o: OpRef, p: Op, dict: Table) {
    IsRegistered(p) && !p.drainTook ==> Holds(dict, p.addr, o) && !p.freed
  }

  /** A pushed id is in transit until the drain takes its op. */
  predicate TransitInv(o: OpRef, p: Op, queue: seq<Entry>, ready: seq<Entry>, lost: seq<Entry>) {
    p.pushes == 1 ==>
      p.drainTook || Entry(p.addr, o) in queue || Entry(p.addr, o) in ready || Entry(p.addr, o) in lost
  }

  /** Everything registered before the snapshot was in it, unless it had already left, and nothing else was. */
  predicate SnapshotInv(o: OpRef, p: Op, release: ReleasePc, snapshot: Table) {
    && (p.late ==> release != RNotYet && release != RLocked && !p.drainTook && p.submit != Created)
    && (p.late || p.submit == Created ==> !Holds(snapshot, p.addr, o))
    && (release != RNotYet && release != RLocked && p.submit != Created && !p.late ==>
          Holds(snapshot, p.addr, o) || p.drainTook || p.submit == Returned(true))
  }

  predicate OpInv(s: State, o: OpRef, p: Op) {
    && RouteInv(p)
    && FutureInv(p)
    && TakerInv(o, p, s.running, s.relRunning)
    && DrainSideInv(o, p, s.callbacks, s.running, s.snapshot)
    && ReleaseSideInv(o, p, s.snapshot, s.toCall, s.relRunning)
    && RegistrationInv(o, p, s.dict)
    && TransitInv(o, p, s.queue, s.ready, s.lost)
    && SnapshotInv(o, p, s.release, s.snapshot)
  }

  ghost predicate OpsInv(s: State) {
    forall o :: o in s.ops ==> OpInv(s, o, s.ops[o])
  }

  ghost predicate DictInv(ops: Ops, dict: Table) {
    forall a :: a in dict ==>
      var o := dict[a];
      o in ops && ops[o].addr == a && IsRegistered(ops[o]) && !ops[o].drainTook && !ops[o].freed
  }

  ghost predicate ToCallInv(ops: Ops, snapshot: Table, toCall: Table, relRunning: Option<OpRef>) {
    && (forall a :: a in snapshot ==> snapshot[a] in ops && ops[snapshot[a]].addr == a)
    && (forall a :: a in toCall ==>
          && Holds(snapshot, a, toCall[a])
          && ops[toCall[a]].attempts == 0 && !ops[toCall[a]].freed && relRunning != Some(toCall[a]))
    && (relRunning.Some? ==>
          var o := relRunning.value;
          o in ops && Holds(snapshot, ops[o].addr, o) && ops[o].attempts == 0 && !ops[o].freed)
  }

  ghost predicate AddressInv(ops: Ops) {
    forall o1, o2 :: o1 in ops && o2 in ops && o1 != o2 && !ops[o1].freed && !ops[o2].freed ==>
      ops[o1].addr != ops[o2].addr
  }

  predicate EntryOk(ops: Ops, e: Entry) {
    e.from in ops && ops[e.from].addr == e.id && ops[e.from].pushes == 1 && !ops[e.from].drainTook
  }

  ghost predicate QueueInv(ops: Ops, queue: seq<Entry>, ready: seq<Entry>) {
    && (forall e :: e in queue ==> EntryOk(ops, e))
    && (forall e :: e in ready ==> EntryOk(ops, e) && e !in queue)
    && NoDup(queue) && NoDup(ready)
  }

  ghost predicate CallbackInv(ops: Ops, callbacks: seq<OpRef>, running: Option<OpRef>) {
    && (forall o :: o in callbacks ==>
          o in ops && ops[o].drainTook && ops[o].attempts == 0 && !ops[o].freed && running != Some(o))
    && NoDup(callbacks)
    && (running.Some? ==>
          var o := running.value; o in ops && ops[o].drainTook && ops[o].attempts == 0 && !ops[o].freed)
  }

  predicate PhaseInv(s: State) {
    && s.capacity > 0
    && !(DrainLocked(s) && ReleaseLocked(s))
    && (s.ready != [] ==> s.drain == DPopping)
    && (s.callbacks != [] ==> (s.drain == DPopping || s.drain == DDispatching))
    && (s.running.Some? ==> s.drain == DDispatching)
    && (s.drain == DPopping ==> s.release == RNotYet)
    && (s.detached <==> (s.release == RCalling || s.release == RDone))
    && ((s.release == RNotYet || s.release == RLocked) ==> s.snapshot == map[] && s.toCall == map[])
    && (s.relRunning.Some? ==> s.release == RCalling)
    && (s.release == RDone ==> s.toCall == map[])
    && (s.lost != [] ==> s.detached)
    && (s.drain == DEnded ==> !s.poll && s.release != RNotYet)
  }

  ghost predicate SomeUnsent(ops: Ops) {
    exists o :: o in ops && ops[o].fire == Unsent
  }

  /** A queued id is announced by a byte, a producer about to send it, or a consumer about to look. */
  ghost predicate WakeupInv(ops: Ops, queue: seq<Entry>, bytes: nat, drain: DrainPc) {
    queue != [] ==>
      || bytes > 0 || SomeUnsent(ops)
      || drain == DWoken || drain == DReading || drain == DCollecting || drain == DEnded
  }

  ghost predicate TablesInv(s: State) {
    && DictInv(s.ops, s.dict)
    && ToCallInv(s.ops, s.snapshot, s.toCall, s.relRunning)
    && AddressInv(s.ops)
    && QueueInv(s.ops, s.queue, s.ready)
    && CallbackInv(s.ops, s.callbacks, s.running)
  }

  ghost predicate Inv(s: State) {
    && PhaseInv(s)
    && WakeupInv(s.ops, s.queue, s.bytes, s.drain)
    && TablesInv(s)
    && OpsInv(s)
  }

  lemma InitInv(poll: bool, capacity: nat)
    requires capacity > 0
    ensures Inv(Init(poll, capacity))
  {
  }

  /** The fields of an op that the tables look at. */
  predicate SameView(p: Op, q: Op) {
    && p.addr == q.addr && IsRegistered(p) == IsRegistered(q) && p.drainTook == q.drainTook
    && p.freed == q.freed && p.pushes == q.pushes && p.attempts == q.attempts
  }

  /** An update of one op that the tables cannot see. */
  lemma HiddenUpdate(s: State, o: OpRef, p: Op)
    requires TablesInv(s) && o in s.ops && SameView(s.ops[o], p)
    ensures TablesInv(s.(ops := s.ops[o := p]))
  {
  }

  /** The other ops of an update of one op keep their parts. */
  lemma OneOp(s: State, s': State, o: OpRef, p: Op)
    requires OpsInv(s) && s'.ops == s.ops[o := p]
    requires forall q: OpRef, x: Op :: q != o && OpInv(s, q, x) ==> OpInv(s', q, x)
    requires OpInv(s', o, p)
    ensures OpsInv(s')
  {
  }
}
