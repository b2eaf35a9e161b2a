/**
 What a PipeCollection has to contain, told from the history of its events alone, and what
 its update rules compute.  `born` is the position in the history of the event that inserted
 a row; it tells apart two pipes that carry the same id one after the other.
 */
module PipeHistory {
  type PipeId = int

  const ADD_PRE := 1
  const ADD_POST := 2
  const REM_POST := 3

  datatype Row = Row(id: PipeId, status: nat, born: nat)

  /** AddPre carries the verdict of the filter. */
  datatype Event = AddPre(id: PipeId, allowed: bool) | AddPost(id: PipeId) | RemPost(id: PipeId) | Clear

  /** Calls made to the filter, by the birth of the pipe they are about. */
  datatype Notice = OnAdded(born: nat) | OnRemoved(born: nat)

  // ── The update rules ───────────────────────────────────────────────────

  /** Index of the first row with this id, or the length. */
  function Find(rows: seq<Row>, id: PipeId): (r: nat)
    ensures r <= |rows| && (r < |rows| ==> rows[r].id == id)
    ensures forall i :: 0 <= i < r ==> rows[i].id != id
  {
    if rows == [] then 0 else if rows[0].id == id then 0 else 1 + Find(rows[1..], id)
  }

  /** handle_event and clear, on the rows; `now` is the position of the event. */
  function Apply(rows: seq<Row>, e: Event, now: nat): seq<Row> {
    match e
    case AddPre(id, allowed) => if allowed then rows + [Row(id, ADD_PRE, now)] else rows
    case AddPost(id) =>
      var k := Find(rows, id);
      if k < |rows| then rows[k := rows[k].(status := ADD_POST)] else rows + [Row(id, ADD_POST, now)]
    case RemPost(id) =>
      var k := Find(rows, id);
      if k < |rows| then rows[..k] + rows[k + 1..] else rows
    case Clear => []
  }

  /** What is reported to the filter. */
  function Report(rows: seq<Row>, e: Event): seq<Notice> {
    match e
    case AddPost(id) =>
      var k := Find(rows, id);
      if k < |rows| then [OnAdded(rows[k].born)] else []
    case RemPost(id) =>
      var k := Find(rows, id);
      if k < |rows| then [OnRemoved(rows[k].born)] else []
    case _ => []
  }

  function Rows(h: seq<Event>): seq<Row> {
    if h == [] then [] else Apply(Rows(h[..|h| - 1]), h[|h| - 1], |h| - 1)
  }

  function Reports(h: seq<Event>): seq<Notice> {
    if h == [] then [] else Reports(h[..|h| - 1]) + Report(Rows(h[..|h| - 1]), h[|h| - 1])
  }

  // ── The history ────────────────────────────────────────────────────────

  predicate Ends(e: Event, id: PipeId) {
    e == RemPost(id) || e == Clear
  }

  predicate Accepted(h: seq<Event>, k: nat) {
    k < |h| && h[k].AddPre? && h[k].allowed
  }

  /** The pipe accepted by event k has not been removed since. */
  predicate Alive(h: seq<Event>, k: nat) {
    Accepted(h, k) && forall j :: k < j < |h| ==> !Ends(h[j], h[k].id)
  }

  predicate Activated(h: seq<Event>, k: nat)
    requires Accepted(h, k)
  {
    exists j :: k < j < |h| && h[j] == AddPost(h[k].id)
  }

  /** The accepted, not yet removed pipes among the first `n` events, in ADD_PRE order. */
  function Expected(h: seq<Event>, n: nat): seq<Row>
    requires n <= |h|
  {
    if n == 0 then []
    else if !Alive(h, n - 1) then Expected(h, n - 1)
    else Expected(h, n - 1) + [Row(h[n - 1].id, if Activated(h, n - 1) then ADD_POST else ADD_PRE, n - 1)]
  }

  /**
   What nng guarantees: the ids of live pipes differ, and ADD_POST comes once, for a pipe that
   was not closed at ADD_PRE and has not been removed (or cleared away) since.
   */
  ghost predicate WellFormed(h: seq<Event>) {
    forall n :: 0 <= n < |h| ==> Admissible(h[..n], h[n])
  }

  ghost predicate Admissible(h: seq<Event>, e: Event) {
    match e
    case AddPre(id, _) => forall k: nat :: Alive(h, k) ==> h[k].id != id
    case AddPost(id) => exists k: nat :: Alive(h, k) && h[k].id == id && !Activated(h, k)
    case _ => true
  }

  // ── Agreement ──────────────────────────────────────────────────────────

  ghost predicate DistinctIds(rows: seq<Row>) {
    forall i, j :: 0 <= i < j < |rows| ==> rows[i].id != rows[j].id
  }

  /** How one more event changes the expected rows of the earlier events. */
  function Survive(rows: seq<Row>, e: Event): seq<Row> {
    if rows == [] then []
    else
      var row := rows[|rows| - 1];
      var rest := Survive(rows[..|rows| - 1], e);
      if Ends(e, row.id) then rest
      else rest + [row.(status := if e == AddPost(row.id) then ADD_POST else row.status)]
  }

  lemma AliveSnoc(h: seq<Event>, e: Event, k: nat)
    requires k < |h|
    ensures Alive(h + [e], k) <==> Alive(h, k) && !Ends(e, h[k].id)
    ensures Accepted(h + [e], k) <==> Accepted(h, k)
    ensures Accepted(h, k) ==> (Activated(h + [e], k) <==> Activated(h, k) || e == AddPost(h[k].id))
  {
    var h' := h + [e];
    assert forall j :: 0 <= j < |h| ==> h'[j] == h[j];
    assert h'[|h|] == e;
    if Alive(h', k) {
      assert forall j :: k < j < |h| ==> !Ends(h'[j], h'[k].id);
    }
    if Accepted(h, k) && Activated(h, k) {
      var j :| k < j < |h| && h[j] == AddPost(h[k].id);
      assert h'[j] == AddPost(h'[k].id);
    }
  }

  lemma {:induction false} ExpectedSnoc(h: seq<Event>, e: Event, n: nat)
    requires n <= |h|
    ensures Expected(h + [e], n) == Survive(Expected(h, n), e)
  {
    if n > 0 {
      ExpectedSnoc(h, e, n - 1);
      AliveSnoc(h, e, n - 1);
      assert (h + [e])[n - 1] == h[n - 1];
      if Alive(h, n - 1) {
        var rows := Expected(h, n);
        assert rows[..|rows| - 1] == Expected(h, n - 1);
      }
    }
  }

  lemma {:induction false} SurviveAddPre(rows: seq<Row>, e: Event)
    requires e.AddPre?
    ensures Survive(rows, e) == rows
  {
    if rows != [] {
      SurviveAddPre(rows[..|rows| - 1], e);
    }
  }

  lemma {:induction false} SurviveClear(rows: seq<Row>)
    ensures Survive(rows, Clear) == []
  {
    if rows != [] {
      SurviveClear(rows[..|rows| - 1]);
    }
  }

  /** Dropping the last row. */
  lemma FindInit(rows: seq<Row>, id: PipeId)
    requires rows != []
    ensures var k := Find(rows[..|rows| - 1], id);
      Find(rows, id) == if k < |rows| - 1 then k else if rows[|rows| - 1].id == id then |rows| - 1 else |rows|
  {
    var n := |rows| - 1;
    var k := Find(rows[..n], id);
    var j := Find(rows, id);
    assert k < n ==> rows[k].id == id;
    assert j < n ==> rows[..n][j].id == id;
  }

  /** A removal leaves the rows of the other ids. */
  function Without(rows: seq<Row>, k: nat): seq<Row> {
    if k < |rows| then rows[..k] + rows[k + 1..] else rows
  }

  lemma {:induction false} SurviveRemoval(rows: seq<Row>, id: PipeId)
    requires DistinctIds(rows)
    ensures Survive(rows, RemPost(id)) == Without(rows, Find(rows, id))
  {
    if rows != [] {
      var n := |rows| - 1;
      SurviveRemoval(rows[..n], id);
      FindInit(rows, id);
      WithoutSnoc(rows[..n], rows[n], Find(rows[..n], id));
      assert rows == rows[..n] + [rows[n]];
    }
  }

  lemma WithoutSnoc(rows: seq<Row>, row: Row, k: nat)
    requires k <= |rows|
    ensures k < |rows| ==> Without(rows + [row], k) == Without(rows, k) + [row]
    ensures k == |rows| ==> Without(rows + [row], k) == rows && Without(rows, k) == rows
  {
  }

  /** Without a row of that id, activation changes nothing. */
  lemma {:induction false} SurviveUnaffected(rows: seq<Row>, id: PipeId)
    requires forall i :: 0 <= i < |rows| ==> rows[i].id != id
    ensures Survive(rows, AddPost(id)) == rows
  {
    if rows != [] {
      var n := |rows| - 1;
      SurviveUnaffected(rows[..n], id);
      assert rows == rows[..n] + [rows[n]];
    }
  }

  lemma {:induction false} SurviveActivation(rows: seq<Row>, id: PipeId, k: nat)
    requires DistinctIds(rows) && k < |rows| && rows[k].id == id
    ensures Survive(rows, AddPost(id)) == rows[k := rows[k].(status := ADD_POST)]
  {
    var n := |rows| - 1;
    var row := rows[k].(status := ADD_POST);
    if k == n {
      SurviveUnaffected(rows[..n], id);
      assert rows[k := row] == rows[..n] + [row];
    } else {
      SurviveActivation(rows[..n], id, k);
      assert rows[k := row] == rows[..n][k := row] + [rows[n]];
    }
  }

  // ── Rows and living pipes ──────────────────────────────────────────────

  ghost predicate RowTells(h: seq<Event>, row: Row) {
    && Alive(h, row.born) && h[row.born].id == row.id
    && row.status == (if Activated(h, row.born) then ADD_POST else ADD_PRE)
  }

  /** The expected rows are exactly the living pipes. */
  lemma {:induction false} ExpectedTells(h: seq<Event>, n: nat)
    requires n <= |h|
    ensures forall row :: row in Expected(h, n) ==> RowTells(h, row) && row.born < n
    ensures forall k :: 0 <= k < n && Alive(h, k) ==> exists row :: row in Expected(h, n) && row.born == k
  {
    if n > 0 {
      ExpectedTells(h, n - 1);
      if Alive(h, n - 1) {
        var row := Row(h[n - 1].id, if Activated(h, n - 1) then ADD_POST else ADD_PRE, n - 1);
        assert Expected(h, n) == Expected(h, n - 1) + [row];
        assert row in Expected(h, n);
        assert RowTells(h, row);
      } else {
        assert Expected(h, n) == Expected(h, n - 1);
      }
    }
  }

  /** For every well-formed history the collection is exactly the accepted, not yet removed pipes. */
  lemma {:induction false} CollectionRefinesHistory(h: seq<Event>)
    requires WellFormed(h)
    ensures Rows(h) == Expected(h, |h|) && DistinctIds(Rows(h))
    decreases |h|
  {
    if h != [] {
      var n := |h| - 1;
      var g, e := h[..n], h[n];
      assert h == g + [e];
      PrefixWellFormed(h);
      CollectionRefinesHistory(g);
      ExpectedTells(g, n);
      OneMoreEvent(g, e);
    }
  }

  lemma PrefixWellFormed(h: seq<Event>)
    requires WellFormed(h) && h != []
    ensures WellFormed(h[..|h| - 1]) && Admissible(h[..|h| - 1], h[|h| - 1])
  {
    var g := h[..|h| - 1];
    forall n | 0 <= n < |g| ensures Admissible(g[..n], g[n]) {
      assert g[..n] == h[..n] && g[n] == h[n];
    }
  }

  lemma RowsSnoc(g: seq<Event>, e: Event)
    ensures Rows(g + [e]) == Apply(Rows(g), e, |g|)
  {
    assert (g + [e])[..|g|] == g;
  }

  /** An event that announces no pipe adds no expected row. */
  lemma ExpectedSkips(g: seq<Event>, e: Event)
    requires !e.AddPre?
    ensures Expected(g + [e], |g| + 1) == Survive(Expected(g, |g|), e)
  {
    ExpectedSnoc(g, e, |g|);
    assert (g + [e])[|g|] == e;
  }

  lemma OneMoreEvent(g: seq<Event>, e: Event)
    requires Admissible(g, e)
    requires Rows(g) == Expected(g, |g|) && DistinctIds(Rows(g))
    requires forall row :: row in Rows(g) ==> RowTells(g, row)
    requires forall k :: 0 <= k < |g| && Alive(g, k) ==> exists row :: row in Rows(g) && row.born == k
    ensures Rows(g + [e]) == Expected(g + [e], |g| + 1) && DistinctIds(Rows(g + [e]))
  {
    RowsSnoc(g, e);
    if e.AddPre? {
      ExpectedSnoc(g, e, |g|);
      OneMorePipe(g, e);
    } else {
      ExpectedSkips(g, e);
      if e.AddPost? {
        LivingIsFound(g, Rows(g), e.id);
      }
      NoMorePipe(Rows(g), e, |g|);
    }
  }

  lemma NoMorePipe(rows: seq<Row>, e: Event, now: nat)
    requires DistinctIds(rows) && !e.AddPre? && (e.AddPost? ==> Find(rows, e.id) < |rows|)
    ensures Apply(rows, e, now) == Survive(rows, e) && DistinctIds(Apply(rows, e, now))
  {
    match e
    case AddPost(id) =>
      SurviveActivation(rows, id, Find(rows, id));
      ActivationKeepsIds(rows, Find(rows, id));
    case RemPost(id) =>
      SurviveRemoval(rows, id);
      RemovalKeepsIds(rows, Find(rows, id));
    case Clear => SurviveClear(rows);
  }

  lemma ActivationKeepsIds(rows: seq<Row>, k: nat)
    requires DistinctIds(rows) && k < |rows|
    ensures DistinctIds(rows[k := rows[k].(status := ADD_POST)])
  {
  }

  lemma RemovalKeepsIds(rows: seq<Row>, k: nat)
    requires DistinctIds(rows)
    ensures DistinctIds(Without(rows, k))
  {
    var r := Without(rows, k);
    assert forall i :: 0 <= i < |r| ==> r[i] == rows[if i < k then i else if k < |rows| then i + 1 else i];
  }

  /** The pipe of an admissible ADD_POST is in the collection. */
  lemma LivingIsFound(g: seq<Event>, rows: seq<Row>, id: PipeId)
    requires Admissible(g, AddPost(id))
    requires forall row :: row in rows ==> RowTells(g, row)
    requires forall k :: 0 <= k < |g| && Alive(g, k) ==> exists row :: row in rows && row.born == k
    ensures Find(rows, id) < |rows|
  {
    var k: nat :| Alive(g, k) && g[k].id == id && !Activated(g, k);
    var row :| row in rows && row.born == k;
    assert RowTells(g, row);
  }

  lemma OneMorePipe(g: seq<Event>, e: Event)
    requires Admissible(g, e) && e.AddPre? && DistinctIds(Rows(g))
    requires Expected(g + [e], |g|) == Survive(Rows(g), e)
    requires forall row :: row in Rows(g) ==> RowTells(g, row)
    ensures Apply(Rows(g), e, |g|) == Expected(g + [e], |g| + 1) && DistinctIds(Apply(Rows(g), e, |g|))
  {
    var h := g + [e];
    var rows := Rows(g);
    SurviveAddPre(rows, e);
    assert h[|g|] == e;
    assert Alive(h, |g|) <==> e.allowed;
    if e.allowed {
      assert !Activated(h, |g|);
      forall i | 0 <= i < |rows| ensures rows[i].id != e.id {
        assert rows[i] in rows;
        assert RowTells(g, rows[i]);
      }
    }
  }

  /** A rejected pipe, and only a rejected, unknown or removed one, is absent. */
  lemma InCollectionExactly(h: seq<Event>, id: PipeId)
    requires WellFormed(h)
    ensures (exists i :: 0 <= i < |Rows(h)| && Rows(h)[i].id == id) <==> (exists k: nat :: Alive(h, k) && h[k].id == id)
  {
    CollectionRefinesHistory(h);
    ExpectedTells(h, |h|);
    var rows := Rows(h);
    if i :| 0 <= i < |rows| && rows[i].id == id {
      assert rows[i] in rows;
      assert Alive(h, rows[i].born);
    }
    if k: nat :| Alive(h, k) && h[k].id == id {
      var row :| row in rows && row.born == k;
      assert RowTells(h, row);
    }
  }

  /**
   The promise about ADD_POST is needed, and no more than that: after a well-formed history
   (for instance one that ends in clear()) an ADD_POST keeps the agreement exactly if its pipe
   is alive; otherwise the recovery branch inserts a row for a pipe that is not.
   */
  lemma AddPostExact(h: seq<Event>, id: PipeId)
    requires WellFormed(h)
    ensures var e := AddPost(id);
      Rows(h + [e]) == Expected(h + [e], |h| + 1) <==> exists k: nat :: Alive(h, k) && h[k].id == id
  {
    var rows := Rows(h);
    CollectionRefinesHistory(h);
    InCollectionExactly(h, id);
    RowsSnoc(h, AddPost(id));
    ExpectedSkips(h, AddPost(id));
    ActivationExact(rows, id, |h|);
  }

  lemma ActivationExact(rows: seq<Row>, id: PipeId, now: nat)
    requires DistinctIds(rows)
    ensures Apply(rows, AddPost(id), now) == Survive(rows, AddPost(id)) <==>
      exists i :: 0 <= i < |rows| && rows[i].id == id
  {
    var k := Find(rows, id);
    if k < |rows| {
      SurviveActivation(rows, id, k);
      assert rows[k].id == id;
    } else {
      SurviveUnaffected(rows, id);
    }
  }

  // ── Calls to the filter ────────────────────────────────────────────────

  ghost predicate NoDup(calls: seq<Notice>) {
    forall i, j :: 0 <= i < j < |calls| ==> calls[i] != calls[j]
  }

  ghost predicate CallTells(h: seq<Event>, c: Notice) {
    && Accepted(h, c.born)
    && (c.OnAdded? ==> Activated(h, c.born))
    && (c.OnRemoved? ==> !Alive(h, c.born))
  }

  /** on_added and on_removed each run at most once per pipe, and only for pipes that were allowed. */
  lemma {:induction false} ReportsOnce(h: seq<Event>)
    requires WellFormed(h)
    ensures NoDup(Reports(h)) && forall c :: c in Reports(h) ==> CallTells(h, c)
    decreases |h|
  {
    if h != [] {
      var n := |h| - 1;
      var g, e := h[..n], h[n];
      assert h == g + [e];
      PrefixWellFormed(h);
      ReportsOnce(g);
      CollectionRefinesHistory(g);
      ExpectedTells(g, n);
      var news := Report(Rows(g), e);
      forall c | c in news ensures CallTells(h, c) && c !in Reports(g) {
        ReportIsNew(g, e, c);
      }
      forall c | c in Reports(g) ensures CallTells(h, c) {
        AliveSnoc(g, e, c.born);
      }
      NoDupAppend(Reports(g), news);
      assert Reports(h) == Reports(g) + news;
    }
  }

  lemma NoDupAppend(a: seq<Notice>, b: seq<Notice>)
    requires NoDup(a) && |b| <= 1 && forall c :: c in b ==> c !in a
    ensures NoDup(a + b)
  {
    assert |b| == 1 ==> b[0] in b;
  }

  lemma ReportIsNew(g: seq<Event>, e: Event, c: Notice)
    requires Admissible(g, e) && c in Report(Rows(g), e) && DistinctIds(Rows(g))
    requires forall row :: row in Rows(g) ==> RowTells(g, row)
    requires forall k :: 0 <= k < |g| && Alive(g, k) ==> exists row :: row in Rows(g) && row.born == k
    requires forall x :: x in Reports(g) ==> CallTells(g, x)
    ensures CallTells(g + [e], c) && c !in Reports(g)
  {
    var rows := Rows(g);
    var row := rows[Find(rows, e.id)];
    assert row in rows;
    assert RowTells(g, row);
    AliveSnoc(g, e, row.born);
    if e.AddPost? {
      var k: nat :| Alive(g, k) && g[k].id == e.id && !Activated(g, k);
      var row' :| row' in rows && row'.born == k;
      assert RowTells(g, row');
      assert row' == row;
    }
  }

  /** The pipe accepted by event k is still there just before event j. */
  predicate Until(h: seq<Event>, k: nat, j: nat)
    requires Accepted(h, k) && j <= |h|
  {
    forall i :: k < i < j ==> !Ends(h[i], h[k].id)
  }

  /** Its own ADD_POST came, or its own REM_POST: `e` is that event. */
  ghost predicate Came(h: seq<Event>, k: nat, e: Event)
    requires Accepted(h, k)
  {
    exists j :: k < j < |h| && h[j] == e && Until(h, k, j)
  }

  lemma CameSnoc(g: seq<Event>, e: Event, k: nat, x: Event)
    requires Accepted(g, k)
    ensures Accepted(g + [e], k) && (Came(g + [e], k, x) <==> Came(g, k, x) || (e == x && Alive(g, k)))
  {
    var h := g + [e];
    assert forall i :: 0 <= i < |g| ==> h[i] == g[i];
    if Came(g, k, x) {
      var j :| k < j < |g| && g[j] == x && Until(g, k, j);
      assert h[j] == x && Until(h, k, j);
    }
    if e == x && Alive(g, k) {
      assert h[|g|] == x && Until(h, k, |g|);
    }
    if Came(h, k, x) {
      var j :| k < j < |h| && h[j] == x && Until(h, k, j);
      if j < |g| {
        assert g[j] == x && Until(g, k, j);
      } else {
        assert forall i :: k < i < |g| ==> !Ends(h[i], h[k].id);
      }
    }
  }

  /** An event is reported for the living pipe with its id, and for no other. */
  lemma ReportedFor(g: seq<Event>, e: Event, k: nat)
    requires Accepted(g, k) && DistinctIds(Rows(g))
    requires forall row :: row in Rows(g) ==> RowTells(g, row)
    requires forall i :: 0 <= i < |g| && Alive(g, i) ==> exists row :: row in Rows(g) && row.born == i
    ensures OnAdded(k) in Report(Rows(g), e) <==> e == AddPost(g[k].id) && Alive(g, k)
    ensures OnRemoved(k) in Report(Rows(g), e) <==> e == RemPost(g[k].id) && Alive(g, k)
  {
    var rows := Rows(g);
    if e.AddPost? || e.RemPost? {
      var f := Find(rows, e.id);
      if f < |rows| {
        assert rows[f] in rows;
        assert RowTells(g, rows[f]);
      }
      if Alive(g, k) && g[k].id == e.id {
        var row :| row in rows && row.born == k;
        assert RowTells(g, row);
        assert row == rows[f];
      }
    }
  }

  ghost predicate ReportsOf(h: seq<Event>, k: nat)
    requires Accepted(h, k)
  {
    && (OnAdded(k) in Reports(h) <==> Came(h, k, AddPost(h[k].id)))
    && (OnRemoved(k) in Reports(h) <==> Came(h, k, RemPost(h[k].id)))
  }

  /**
   on_added has been called for a pipe if and only if its ADD_POST came while it was there, and
   on_removed if and only if its REM_POST did; with ReportsOnce, exactly once each.
   */
  lemma {:induction false} ReportsExactly(h: seq<Event>, k: nat)
    requires WellFormed(h) && Accepted(h, k)
    ensures ReportsOf(h, k)
    decreases |h|
  {
    var n := |h| - 1;
    var (g, e) := (h[..n], h[n]);
    assert h == g + [e];
    PrefixWellFormed(h);
    assert Reports(h) == Reports(g) + Report(Rows(g), e);
    if k < n {
      ReportsExactly(g, k);
      ReportsGrow(g, e, k);
    } else {
      ReportsOnce(g);
      NotYetReported(g, k);
    }
  }

  /** One more event. */
  lemma ReportsGrow(g: seq<Event>, e: Event, k: nat)
    requires WellFormed(g) && Accepted(g, k) && ReportsOf(g, k) && Reports(g + [e]) == Reports(g) + Report(Rows(g), e)
    ensures Accepted(g + [e], k) && ReportsOf(g + [e], k)
  {
    CollectionRefinesHistory(g);
    ExpectedTells(g, |g|);
    ReportedFor(g, e, k);
    CameSnoc(g, e, k, AddPost(g[k].id));
    CameSnoc(g, e, k, RemPost(g[k].id));
  }

  /** The event that announces a pipe reports nothing, and nothing was reported before. */
  lemma NotYetReported(g: seq<Event>, k: nat)
    requires k == |g| && forall c :: c in Reports(g) ==> CallTells(g, c)
    ensures OnAdded(k) !in Reports(g) && OnRemoved(k) !in Reports(g)
  {
  }
}
