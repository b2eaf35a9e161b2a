/**
 PipeCollection and PipeHandle as objects.  Handles are shared: callers keep them after the
 collection has dropped them, so their status is followed beyond removal.
 */
module PipeCollections {
  import opened Options
  import opened PipeFilters
  import opened FilterTrees
  import opened PipeHistory

  class PipeHandle {
    const id: PipeId
    const info: Info          // cached while the pipe is alive
    var status: nat
    ghost const born: nat

    constructor (id: PipeId, info: Info, ghost born: nat)
      ensures this.id == id && this.info == info && this.born == born && status == 0
    {
      this.id, this.info, this.born, status := id, info, born, 0;
    }
  }

  ghost function RowsOf(handles: seq<PipeHandle>): (rows: seq<Row>)
    reads handles
    ensures |rows| == |handles|
    ensures forall i :: 0 <= i < |handles| ==> rows[i] == Row(handles[i].id, handles[i].status, handles[i].born)
  {
    seq(|handles|, i requires 0 <= i < |handles| reads handles =>
      Row(handles[i].id, handles[i].status, handles[i].born))
  }

  ghost predicate Distinct(handles: seq<PipeHandle>) {
    forall i, j :: 0 <= i < j < |handles| ==> handles[i] != handles[j]
  }

  lemma ErasedIsDistinct(s: seq<PipeHandle>, k: nat)
    requires k < |s| && Distinct(s)
    ensures Distinct(s[..k] + s[k + 1..])
  {
    var r := s[..k] + s[k + 1..];
    assert forall i :: 0 <= i < |r| ==> r[i] == s[if i < k then i else i + 1];
  }

  lemma ErasedContents(s: seq<PipeHandle>, k: nat)
    requires k < |s| && Distinct(s)
    ensures forall i :: 0 <= i < |s| && i != k ==> s[i] in s[..k] + s[k + 1..]
    ensures forall h :: h in s[..k] + s[k + 1..] ==> h in s && h != s[k]
  {
    var r := s[..k] + s[k + 1..];
    forall i | 0 <= i < |s| && i != k ensures s[i] in r {
      assert s[i] == r[if i < k then i else i - 1];
    }
  }

  lemma ErasedRows(s: seq<PipeHandle>, k: nat)
    requires k < |s|
    ensures RowsOf(s[..k] + s[k + 1..]) == RowsOf(s)[..k] + RowsOf(s)[k + 1..]
  {
    var r := s[..k] + s[k + 1..];
    var (before, after) := (RowsOf(s), RowsOf(r));
    forall i | 0 <= i < |r| ensures after[i] == (before[..k] + before[k + 1..])[i] {
      assert r[i] == s[if i < k then i else i + 1];
    }
  }

  datatype Kind = EvAddPre | EvAddPost | EvRemPost

  class PipeCollection {
    var pipes: seq<PipeHandle>
    var hadEvents: bool
    var filter: Option<Filter>
    var store: Store                 // anchors of the first-wins filters in use
    ghost var seen: nat              // how many events there have been
    ghost var calls: seq<Notice>     // on_added and on_removed calls
    ghost var history: seq<Event>
    ghost var asked: nat             // how much of it the last had_events() covered
    ghost var steady: bool           // the filter has been the same since the start

    ghost predicate Shape()
      reads this`pipes, pipes
    {
      && Distinct(pipes)
      && (forall i :: 0 <= i < |pipes| ==> pipes[i].status == ADD_PRE || pipes[i].status == ADD_POST)
    }

    ghost function View(): seq<Row>
      reads this`pipes, pipes
    {
      RowsOf(pipes)
    }

    constructor ()
      ensures Valid() && pipes == [] && history == [] && filter == None && store == map[] && steady && asked == 0
    {
      pipes, hadEvents, filter, store, seen, calls := [], false, None, map[], 0, [];
      history, asked, steady := [], 0, true;
    }

    /** Linear search by id. */
    method FindPipe(id: PipeId) returns (k: nat)
      requires Shape()
      ensures k == Find(View(), id)
    {
      k := 0;
      while k < |pipes| && pipes[k].id != id
        invariant k <= |pipes| && forall i :: 0 <= i < k ==> pipes[i].id != id
      {
        k := k + 1;
      }
      FindIs(View(), id, k);
    }

    /** No handle, in the collection or not, goes back in status; one that leaves is marked removed. */
    twostate predicate Forward(handles: seq<PipeHandle>)
      reads this`pipes, handles
    {
      forall i :: 0 <= i < |handles| ==>
        old(handles[i].status) <= handles[i].status && (handles[i] !in pipes ==> handles[i].status == REM_POST)
    }

    /** A new handle at the end. */
    method Add(id: PipeId, info: Info, status: nat)
      requires Shape() && (status == ADD_PRE || status == ADD_POST)
      modifies this`pipes, this`hadEvents, this`seen
      ensures Shape() && Forward(old(pipes)) && View() == old(View()) + [Row(id, status, old(seen))]
      ensures forall h :: h in pipes ==> h in old(pipes) || fresh(h)
      ensures hadEvents && seen == old(seen) + 1
    {
      var h := new PipeHandle(id, info, seen);
      h.status := status;
      pipes := pipes + [h];
      hadEvents, seen := true, seen + 1;
      assert pipes[..|pipes| - 1] == old(pipes);
    }

    /** set_status on one handle of the collection. */
    method SetStatus(k: nat, status: nat)
      requires k < |pipes| && Distinct(pipes)
      modifies pipes[k]
      ensures pipes[k].status == status && View() == old(View())[k := old(View())[k].(status := status)]
      ensures forall i :: 0 <= i < |pipes| && i != k ==> pipes[i].status == old(pipes[i].status)
    {
      pipes[k].status := status;
    }

    /** A known handle is activated and the filter hears of it. */
    method Activate(k: nat)
      requires Shape() && k < |pipes|
      modifies pipes[k], this`hadEvents, this`seen, this`calls
      ensures Shape() && Forward(pipes) && View() == old(View())[k := old(View())[k].(status := ADD_POST)]
      ensures hadEvents && seen == old(seen) + 1
      ensures calls == old(calls) + if filter.Some? then [OnAdded(old(View())[k].born)] else []
    {
      SetStatus(k, ADD_POST);
      hadEvents, seen := true, seen + 1;
      if filter.Some? {
        calls := calls + [OnAdded(pipes[k].born)];
      }
    }

    /** A known handle leaves, marked removed. */
    method RemoveAt(k: nat)
      requires Shape() && k < |pipes|
      modifies this`pipes, pipes[k]
      ensures Shape() && Forward(old(pipes)) && View() == old(View())[..k] + old(View())[k + 1..]
      ensures forall h :: h in pipes ==> h in old(pipes)
    {
      SetStatus(k, REM_POST);
      Erase(k);
    }

    /** `_pipes.erase(it)`: no handle changes. */
    method Erase(k: nat)
      requires k < |pipes| && Distinct(pipes)
      modifies this`pipes
      ensures Distinct(pipes) && View() == old(View())[..k] + old(View())[k + 1..]
      ensures forall i :: 0 <= i < |old(pipes)| && i != k ==> old(pipes)[i] in pipes
      ensures forall h :: h in pipes ==> h in old(pipes) && h != old(pipes)[k]
    {
      ErasedIsDistinct(pipes, k);
      ErasedContents(pipes, k);
      ErasedRows(pipes, k);
      pipes := pipes[..k] + pipes[k + 1..];
    }

    /** The filter hears of the removal of a known pipe. */
    method NoteRemoval(k: nat)
      modifies this`hadEvents, this`seen, this`calls
      ensures hadEvents && seen == old(seen) + 1
      ensures calls == old(calls) + if filter.Some? && k < |pipes| then [OnRemoved(pipes[k].born)] else []
    {
      if filter.Some? && k < |pipes| {
        calls := calls + [OnRemoved(pipes[k].born)];
      }
      hadEvents, seen := true, seen + 1;
    }

    method RemoveKnown(k: nat)
      requires Shape() && k < |pipes|
      modifies this`pipes, pipes[k], this`hadEvents, this`seen, this`calls
      ensures Shape() && Forward(old(pipes)) && View() == old(View())[..k] + old(View())[k + 1..]
      ensures forall h :: h in pipes ==> h in old(pipes)
      ensures hadEvents && seen == old(seen) + 1
      ensures calls == old(calls) + if filter.Some? then [OnRemoved(old(View())[k].born)] else []
    {
      ghost var rows := View();
      NoteRemoval(k);
      assert View() == rows;
      RemoveAt(k);
    }

    /** The verdict of the filter on this event (true where the filter is not asked). */
    ghost function Allowed(kind: Kind, info: Info): bool
      reads this
    {
      kind == EvAddPre && filter.Some? ==> Allow(filter.value, info, store).0
    }

    /** The anchors after the filter was asked, if it is. */
    ghost function StoreAfter(kind: Kind, info: Info): Store
      reads this
    {
      if kind == EvAddPre && filter.Some? then Allow(filter.value, info, store).1 else store
    }

    ghost function EventOf(kind: Kind, id: PipeId, info: Info): Event
      reads this
    {
      match kind
      case EvAddPre => AddPre(id, Allowed(kind, info))
      case EvAddPost => AddPost(id)
      case EvRemPost => RemPost(id)
    }

    /** ADD_PRE: the filter is asked; a rejected pipe leaves no trace but in the filter. */
    method OnAddPre(id: PipeId, info: Info) returns (closed: bool)
      requires Shape()
      modifies this`pipes, this`hadEvents, this`seen, this`store
      ensures Shape() && Forward(old(pipes))
      ensures closed == !old(Allowed(EvAddPre, info)) && hadEvents == (old(hadEvents) || !closed)
      ensures View() == Apply(old(View()), old(EventOf(EvAddPre, id, info)), old(seen))
      ensures store == if filter.Some? then old(Allow(filter.value, info, store).1) else old(store)
      ensures forall h :: h in pipes ==> h in old(pipes) || fresh(h)
      ensures seen == old(seen) + 1
    {
      var ok := true;
      if filter.Some? {
        var (allowed, st) := Allow(filter.value, info, store);
        ok, store := allowed, st;
      }
      closed := !ok;
      if closed {
        seen := seen + 1;
      } else {
        Add(id, info, ADD_PRE);
      }
    }

    /** ADD_POST: the known handle is activated, an unknown pipe is added after all. */
    method OnAddPost(id: PipeId, info: Info)
      requires Shape()
      modifies this`pipes, pipes, this`hadEvents, this`seen, this`calls
      ensures Shape() && Forward(old(pipes)) && hadEvents
      ensures View() == Apply(old(View()), AddPost(id), old(seen))
      ensures calls == old(calls) + if filter.Some? then Report(old(View()), AddPost(id)) else []
      ensures forall h :: h in pipes ==> h in old(pipes) || fresh(h)
      ensures seen == old(seen) + 1
    {
      var k := FindPipe(id);
      ActivateFound(id, info, k);
    }

    /** The handle at k is activated, or one is added when the search ended at the length. */
    method ActivateFound(id: PipeId, info: Info, k: nat)
      requires Shape() && k == Find(View(), id)
      modifies this`pipes, pipes, this`hadEvents, this`seen, this`calls
      ensures Shape() && Forward(old(pipes)) && hadEvents && seen == old(seen) + 1
      ensures View() == Apply(old(View()), AddPost(id), old(seen))
      ensures calls == old(calls) + if filter.Some? then Report(old(View()), AddPost(id)) else []
      ensures forall h :: h in pipes ==> h in old(pipes) || fresh(h)
    {
      if k < |pipes| {
        Activate(k);
      } else {
        Add(id, info, ADD_POST);
      }
    }

    /** Removal of the handle at k, or of nothing when the search ended at the length. */
    method RemoveFound(id: PipeId, k: nat)
      requires Shape() && k == Find(View(), id)
      modifies this`pipes, pipes, this`hadEvents, this`seen, this`calls
      ensures Shape() && Forward(old(pipes))
      ensures View() == Apply(old(View()), RemPost(id), old(seen))
      ensures forall h :: h in pipes ==> h in old(pipes)
      ensures hadEvents && seen == old(seen) + 1
      ensures calls == old(calls) + if filter.Some? then Report(old(View()), RemPost(id)) else []
    {
      if k < |pipes| {
        RemoveKnown(k);
      } else {
        NoteRemoval(k);
      }
    }

    /** REM_POST: the filter hears of a known pipe, and its handle leaves. */
    method OnRemPost(id: PipeId)
      requires Shape()
      modifies this`pipes, pipes, this`hadEvents, this`seen, this`calls
      ensures Shape() && Forward(old(pipes)) && hadEvents
      ensures View() == Apply(old(View()), RemPost(id), old(seen))
      ensures calls == old(calls) + if filter.Some? then Report(old(View()), RemPost(id)) else []
      ensures forall h :: h in pipes ==> h in old(pipes)
      ensures seen == old(seen) + 1
    {
      var k := FindPipe(id);
      RemoveFound(id, k);
    }

    /** handle_event: the rows change as Apply says, the filter hears what Report says. */
    method Process(kind: Kind, id: PipeId, info: Info) returns (closed: bool)
      requires Shape()
      modifies this`pipes, pipes, this`hadEvents, this`seen, this`calls, this`store
      ensures Shape() && Forward(old(pipes)) && seen == old(seen) + 1
      ensures View() == Apply(old(View()), old(EventOf(kind, id, info)), old(seen))
      ensures closed == !old(Allowed(kind, info)) && hadEvents == (old(hadEvents) || !closed)
      ensures calls == old(calls) + if filter.Some? then Report(old(View()), old(EventOf(kind, id, info))) else []
      ensures store == old(StoreAfter(kind, info))
      ensures forall h :: h in pipes ==> h in old(pipes) || fresh(h)
    {
      closed := false;
      match kind
      case EvAddPre => closed := OnAddPre(id, info);
      case EvAddPost => OnAddPost(id, info);
      case EvRemPost => OnRemPost(id);
    }

    /** clear() on the handles. */
    method MarkAll()
      requires Shape()
      modifies this`pipes, pipes, this`hadEvents, this`seen
      ensures Shape() && pipes == [] && View() == [] && hadEvents && seen == old(seen) + 1
      ensures forall i :: 0 <= i < |old(pipes)| ==> old(pipes)[i].status == REM_POST
    {
      for i := 0 to |pipes|
        invariant pipes == old(pipes) && seen == old(seen)
        invariant forall j :: 0 <= j < i ==> pipes[j].status == REM_POST
      {
        pipes[i].status := REM_POST;
      }
      pipes := [];
      hadEvents := true;
      seen := seen + 1;
    }

    // ── The object and its history ───────────────────────────────────────

    /**
     The handles are what the update rules make of the whole history, the flag tells whether
     anything visible happened since it was last asked for, and a filter that was there from the
     start has heard exactly what the history reports.
     */
    ghost predicate Valid()
      reads this, pipes
    {
      && Shape() && seen == |history| && Told(history, asked, View(), hadEvents)
      && (steady ==> Heard(history, filter.Some?, calls))
    }

    /** For a history nng may produce: the object holds exactly the living pipes, and reports each once. */
    lemma MeetsItsHistory()
      requires Valid() && WellFormed(history)
      ensures View() == Expected(history, |history|) && DistinctIds(View())
      ensures steady ==> NoDup(calls) && forall c :: c in calls ==> CallTells(history, c)
      ensures steady && filter.Some? ==> forall k: nat :: Accepted(history, k) ==>
        && (OnAdded(k) in calls <==> Came(history, k, AddPost(history[k].id)))
        && (OnRemoved(k) in calls <==> Came(history, k, RemPost(history[k].id)))
    {
      CollectionRefinesHistory(history);
      ReportsOnce(history);
      forall k: nat | Accepted(history, k) ensures ReportsOf(history, k) {
        ReportsExactly(history, k);
      }
    }

    /** set_filter; a change in the middle of a run makes no promise about the calls. */
    method SetFilter(f: Option<Filter>)
      requires Valid()
      modifies this`filter, this`steady
      ensures Valid() && filter == f && steady == (old(steady) && history == [])
    {
      steady := steady && history == [];
      filter := f;
    }

    /** One more event: the object still is what its history says, and no status goes back. */
    method HandleEvent(kind: Kind, id: PipeId, info: Info) returns (closed: bool)
      requires Valid()
      modifies this, pipes
      ensures Valid() && Forward(old(pipes)) && history == old(history) + [old(EventOf(kind, id, info))]
      ensures closed == !old(Allowed(kind, info)) && store == old(StoreAfter(kind, info))
      ensures filter == old(filter) && steady == old(steady) && asked == old(asked)
      ensures forall h :: h in pipes ==> h in old(pipes) || fresh(h)
    {
      ghost var (e, rows, flag, heard) := (EventOf(kind, id, info), View(), hadEvents, calls);
      closed := Process(kind, id, info);
      ToldMore(history, asked, rows, flag, e);
      assert Told(history + [e], asked, View(), hadEvents);
      if steady {
        HeardMore(history, filter.Some?, heard, e);
      }
      history := history + [e];
    }

    /** clear: every handle is marked removed. */
    method ClearAll()
      requires Valid()
      modifies this, pipes
      ensures Valid() && pipes == [] && history == old(history) + [Clear]
      ensures filter == old(filter) && store == old(store) && steady == old(steady) && asked == old(asked)
      ensures forall i :: 0 <= i < |old(pipes)| ==> old(pipes)[i].status == REM_POST
    {
      ghost var (rows, flag) := (View(), hadEvents);
      MarkAll();
      ToldMore(history, asked, rows, flag, Clear);
      if steady {
        HeardMore(history, filter.Some?, calls, Clear);
        assert calls + (if filter.Some? then Report(Rows(history), Clear) else []) == calls;
      }
      history := history + [Clear];
    }

    /** Whether anything visible happened since the last call: a rejected pipe is not visible. */
    method HadEvents() returns (r: bool)
      requires Valid()
      modifies this`hadEvents, this`asked
      ensures Valid() && asked == |history|
      ensures r <==> exists j :: old(asked) <= j < |history| && Visible(history[j])
    {
      r := hadEvents;
      hadEvents := false;
      asked := |history|;
    }
  }

  /** A pipe refused at ADD_PRE is invisible to the caller. */
  predicate Visible(e: Event) {
    !(e.AddPre? && !e.allowed)
  }

  ghost predicate SomeVisible(h: seq<Event>, from: nat) {
    exists j :: from <= j < |h| && Visible(h[j])
  }

  /** The rows and the flag are what the history says. */
  ghost predicate Told(h: seq<Event>, asked: nat, rows: seq<Row>, flag: bool) {
    rows == Rows(h) && asked <= |h| && (flag <==> SomeVisible(h, asked))
  }

  lemma ToldMore(h: seq<Event>, asked: nat, rows: seq<Row>, flag: bool, e: Event)
    requires Told(h, asked, rows, flag)
    ensures Told(h + [e], asked, Apply(rows, e, |h|), flag || Visible(e))
  {
    VisibleMore(h, asked, e);
    RowsSnoc(h, e);
  }

  /** The filter, if there is one, has heard what the history reports. */
  ghost predicate Heard(h: seq<Event>, filtered: bool, calls: seq<Notice>) {
    calls == if filtered then Reports(h) else []
  }

  lemma HeardMore(h: seq<Event>, filtered: bool, calls: seq<Notice>, e: Event)
    requires Heard(h, filtered, calls)
    ensures Heard(h + [e], filtered, calls + if filtered then Report(Rows(h), e) else [])
  {
    var g := h + [e];
    assert g[..|g| - 1] == h && g[|g| - 1] == e;
  }

  lemma VisibleMore(h: seq<Event>, from: nat, e: Event)
    requires from <= |h|
    ensures SomeVisible(h + [e], from) <==> SomeVisible(h, from) || Visible(e)
  {
    var g := h + [e];
    if j :| from <= j < |h| && Visible(h[j]) {
      assert Visible(g[j]);
    }
    if Visible(e) {
      assert Visible(g[|h|]);
    }
  }

  lemma {:induction false} FindIs(rows: seq<Row>, id: PipeId, k: nat)
    requires k <= |rows| && (k < |rows| ==> rows[k].id == id) && forall i :: 0 <= i < k ==> rows[i].id != id
    ensures Find(rows, id) == k
  {
    if k < |rows| {
      FindStops(rows, id, k);
    }
  }

  lemma FindStops(rows: seq<Row>, id: PipeId, k: nat)
    requires k < |rows| && rows[k].id == id
    ensures Find(rows, id) <= k
  {
  }
}
