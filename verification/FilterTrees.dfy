/**
 AllFilter and AnyFilter over arbitrary children, with their short-circuit evaluation and its
 side effects on first-wins children.
 */
module FilterTrees {
  import opened PipeFilters

  type FilterId = nat

  datatype Filter =
    | Ip(mode: Mode, v4: seq<Entry4>, v6: seq<Entry6>)
    | Port(mode: Mode, ranges: seq<PortRange>)
    | Pid(mode: Mode, pids: seq<int>)
    | FirstWins(id: FilterId, keys: Keys)
    | All(children: seq<Filter>)
    | Any(children: seq<Filter>)

  /** The mutable part of all first-wins filters. */
  type Store = map<FilterId, Anchor>

  function Get(st: Store, id: FilterId): Anchor {
    if id in st then st[id] else NO_ANCHOR
  }

  // ── Evaluation ─────────────────────────────────────────────────────────

  function Allow(f: Filter, info: Info, st: Store): (bool, Store)
    decreases f, 1
  {
    match f
    case Ip(mode, v4, v6) => (info.peer.NonIp? || Verdict(mode, Listed(v4, v6, info.peer)), st)
    case Port(mode, ranges) =>
      var port := SockaddrPort(info.peer);
      (port == 0 || Verdict(mode, InRanges(ranges, port)), st)
    case Pid(mode, pids) => (info.pid == -1 || Verdict(mode, info.pid in pids), st)
    case FirstWins(id, keys) =>
      var (ok, a) := FirstWinsAllow(keys, Get(st, id), info);
      (ok, st[id := a])
    case All(children) => Scan(children, true, 0, info, st)
    case Any(children) => Scan(children, false, 0, info, st)
  }

  /** The loop of AllFilter (goOn = true) or AnyFilter (goOn = false) from child i on. */
  function Scan(children: seq<Filter>, goOn: bool, i: nat, info: Info, st: Store): (bool, Store)
    requires i <= |children|
    decreases children, 0, |children| - i
  {
    if i == |children| then (goOn, st)
    else
      var (ok, st') := Allow(children[i], info, st);
      if ok != goOn then (ok, st') else Scan(children, goOn, i + 1, info, st')
  }

  // ── Stateless filters are conjunctions and disjunctions ────────────────

  predicate Stateless(f: Filter) {
    match f
    case FirstWins(_, _) => false
    case All(children) => forall i :: 0 <= i < |children| ==> Stateless(children[i])
    case Any(children) => forall i :: 0 <= i < |children| ==> Stateless(children[i])
    case _ => true
  }

  /** The meaning of a filter without state. */
  ghost predicate Decides(f: Filter, info: Info) {
    match f
    case Ip(Allowing, v4, v6) => info.peer.NonIp? || Listed(v4, v6, info.peer)
    case Ip(Denying, v4, v6) => info.peer.NonIp? || !Listed(v4, v6, info.peer)
    case Port(Allowing, ranges) => forall n :: PortIs(info.peer, n) && n != 0 ==> InRanges(ranges, n)
    case Port(Denying, ranges) => forall n :: PortIs(info.peer, n) && n != 0 ==> !InRanges(ranges, n)
    case Pid(Allowing, pids) => info.pid == -1 || info.pid in pids
    case Pid(Denying, pids) => info.pid == -1 || info.pid !in pids
    case FirstWins(_, _) => true
    case All(children) => forall i :: 0 <= i < |children| ==> Decides(children[i], info)
    case Any(children) => exists i :: 0 <= i < |children| && Decides(children[i], info)
  }

  lemma {:induction false} StatelessAllow(f: Filter, info: Info, st: Store)
    requires Stateless(f)
    ensures Allow(f, info, st) == (Decides(f, info), st)
    decreases f, 1
  {
    match f
    case All(children) => StatelessScan(children, true, 0, info, st);
    case Any(children) => StatelessScan(children, false, 0, info, st);
    case Port(mode, ranges) =>
      SockaddrPortExactly(info.peer, info.peer, SockaddrPort(info.peer));
      assert forall n :: PortIs(info.peer, n) ==> n == SockaddrPort(info.peer);
    case _ =>
  }

  lemma {:induction false} StatelessScan(children: seq<Filter>, goOn: bool, i: nat, info: Info, st: Store)
    requires i <= |children| && forall j :: 0 <= j < |children| ==> Stateless(children[j])
    ensures Scan(children, goOn, i, info, st) ==
      (if exists j :: i <= j < |children| && Decides(children[j], info) != goOn then !goOn else goOn, st)
    decreases children, 0, |children| - i
  {
    if i < |children| {
      StatelessAllow(children[i], info, st);
      if Decides(children[i], info) == goOn {
        StatelessScan(children, goOn, i + 1, info, st);
      }
    }
  }

  /** The order of the children of a composite over stateless children does not matter. */
  lemma OrderDoesNotMatter(cs: seq<Filter>, ds: seq<Filter>, info: Info, st: Store)
    requires multiset(cs) == multiset(ds) && forall i :: 0 <= i < |cs| ==> Stateless(cs[i])
    ensures Allow(All(cs), info, st) == Allow(All(ds), info, st)
    ensures Allow(Any(cs), info, st) == Allow(Any(ds), info, st)
  {
    assert forall f :: f in ds ==> f in cs by {
      forall f | f in ds ensures f in cs {
        assert f in multiset(ds);
      }
    }
    assert forall f :: f in cs ==> f in ds by {
      forall f | f in cs ensures f in ds {
        assert f in multiset(cs);
      }
    }
    forall i | 0 <= i < |ds| ensures Stateless(ds[i]) {
      assert ds[i] in cs;
    }
    StatelessAllow(All(cs), info, st);
    StatelessAllow(All(ds), info, st);
    StatelessAllow(Any(cs), info, st);
    StatelessAllow(Any(ds), info, st);
    SameDecision(cs, ds, info);
    SameDecision(ds, cs, info);
  }

  lemma SameDecision(cs: seq<Filter>, ds: seq<Filter>, info: Info)
    requires forall f :: f in ds ==> f in cs
    ensures Decides(All(cs), info) ==> Decides(All(ds), info)
    ensures Decides(Any(ds), info) ==> Decides(Any(cs), info)
  {
    forall i | 0 <= i < |ds| ensures exists j :: 0 <= j < |cs| && cs[j] == ds[i] {
      assert ds[i] in cs;
    }
  }

  // ── Which pipe anchors a first-wins child ──────────────────────────────

  /** The store in which child i is evaluated, if the loop gets that far. */
  function Before(children: seq<Filter>, i: nat, info: Info, st: Store): Store
    requires i <= |children|
  {
    if i == 0 then st else Allow(children[i - 1], info, Before(children, i - 1, info, st)).1
  }

  /** Every child before the i-th lets the loop go on. */
  predicate Passed(children: seq<Filter>, goOn: bool, i: nat, info: Info, st: Store)
    requires i <= |children|
  {
    forall j :: 0 <= j < i ==> Allow(children[j], info, Before(children, j, info, st)).0 == goOn
  }

  /**
   The evaluation gets to the first-wins leaf `id` at the end of `path`: at every composite on
   the way, all children before the one on the path let the loop go on.
   */
  predicate ReachedAt(f: Filter, path: seq<nat>, id: FilterId, info: Info, st: Store)
    decreases f
  {
    match f
    case FirstWins(i, _) => path == [] && i == id
    case All(cs) =>
      && path != [] && path[0] < |cs| && Passed(cs, true, path[0], info, st)
      && ReachedAt(cs[path[0]], path[1..], id, info, Before(cs, path[0], info, st))
    case Any(cs) =>
      && path != [] && path[0] < |cs| && Passed(cs, false, path[0], info, st)
      && ReachedAt(cs[path[0]], path[1..], id, info, Before(cs, path[0], info, st))
    case _ => false
  }

  /** All admits exactly if every child, asked in order, admits; Any exactly if not every one refuses. */
  lemma {:induction false} ScanVerdict(cs: seq<Filter>, goOn: bool, i: nat, info: Info, st: Store)
    requires i <= |cs| && Passed(cs, goOn, i, info, st)
    ensures Scan(cs, goOn, i, info, Before(cs, i, info, st)).0 == goOn <==> Passed(cs, goOn, |cs|, info, st)
    decreases |cs| - i
  {
    if i < |cs| && Allow(cs[i], info, Before(cs, i, info, st)).0 == goOn {
      ScanVerdict(cs, goOn, i + 1, info, st);
    }
  }

  ghost predicate Reached(f: Filter, id: FilterId, info: Info, st: Store) {
    exists path :: ReachedAt(f, path, id, info, st)
  }

  /** All leaves with this id are the same filter object, so they have its key mask. */
  predicate KeysOf(f: Filter, id: FilterId, keys: Keys) {
    match f
    case FirstWins(i, k) => i == id ==> k == keys
    case All(cs) => forall i :: 0 <= i < |cs| ==> KeysOf(cs[i], id, keys)
    case Any(cs) => forall i :: 0 <= i < |cs| ==> KeysOf(cs[i], id, keys)
    case _ => true
  }

  /** What one evaluation may do to the anchor of a first-wins filter. */
  function AnchorAfter(reached: bool, keys: Keys, a: Anchor, info: Info): Anchor {
    if reached && !a.initialized then Anchored(keys, a, info) else a
  }

  ghost predicate Effect(f: Filter, id: FilterId, keys: Keys, info: Info, st: Store) {
    Get(Allow(f, info, st).1, id) == AnchorAfter(Reached(f, id, info, st), keys, Get(st, id), info)
  }

  lemma {:induction false} AllowEffect(f: Filter, id: FilterId, keys: Keys, info: Info, st: Store)
    requires KeysOf(f, id, keys)
    ensures Effect(f, id, keys, info, st)
    decreases f, 1
  {
    match f
    case FirstWins(i, k) =>
      if i == id {
        assert ReachedAt(f, [], id, info, st);
      }
    case All(cs) =>
      ScanEffect(cs, true, 0, id, keys, info, st);
      ReachedInScan(f, cs, true, id, info, st);
    case Any(cs) =>
      ScanEffect(cs, false, 0, id, keys, info, st);
      ReachedInScan(f, cs, false, id, info, st);
    case _ =>
  }

  /** Some child from the i-th on is passed to and reaches the leaf. */
  ghost predicate ReachedFrom(cs: seq<Filter>, goOn: bool, i: nat, id: FilterId, info: Info, st: Store) {
    exists j :: i <= j < |cs| && Passed(cs, goOn, j, info, st) && Reached(cs[j], id, info, Before(cs, j, info, st))
  }

  lemma ReachedInScan(f: Filter, cs: seq<Filter>, goOn: bool, id: FilterId, info: Info, st: Store)
    requires (f == All(cs) && goOn) || (f == Any(cs) && !goOn)
    ensures Reached(f, id, info, st) <==> ReachedFrom(cs, goOn, 0, id, info, st)
  {
    if ReachedFrom(cs, goOn, 0, id, info, st) {
      var j :| 0 <= j < |cs| && Passed(cs, goOn, j, info, st) && Reached(cs[j], id, info, Before(cs, j, info, st));
      var path :| ReachedAt(cs[j], path, id, info, Before(cs, j, info, st));
      assert ([j] + path)[1..] == path;
      assert ReachedAt(f, [j] + path, id, info, st);
    }
    if Reached(f, id, info, st) {
      var path :| ReachedAt(f, path, id, info, st);
      var j := path[0];
      assert ReachedAt(cs[j], path[1..], id, info, Before(cs, j, info, st));
      assert Reached(cs[j], id, info, Before(cs, j, info, st));
    }
  }

  /** The children after one that ends the loop do not count. */
  lemma ReachedStop(cs: seq<Filter>, goOn: bool, i: nat, id: FilterId, info: Info, st: Store)
    requires i < |cs| && Passed(cs, goOn, i, info, st)
    requires Allow(cs[i], info, Before(cs, i, info, st)).0 != goOn
    ensures ReachedFrom(cs, goOn, i, id, info, st) <==> Reached(cs[i], id, info, Before(cs, i, info, st))
  {
    assert forall j :: i < j <= |cs| ==> !Passed(cs, goOn, j, info, st);
  }

  lemma ReachedStep(cs: seq<Filter>, goOn: bool, i: nat, id: FilterId, info: Info, st: Store)
    requires i < |cs| && Passed(cs, goOn, i, info, st)
    ensures ReachedFrom(cs, goOn, i, id, info, st) <==>
      Reached(cs[i], id, info, Before(cs, i, info, st)) || ReachedFrom(cs, goOn, i + 1, id, info, st)
  {
  }

  lemma {:induction false} ScanEffect(cs: seq<Filter>, goOn: bool, i: nat, id: FilterId, keys: Keys, info: Info,
                                      st: Store)
    requires i <= |cs| && forall k :: 0 <= k < |cs| ==> KeysOf(cs[k], id, keys)
    requires Passed(cs, goOn, i, info, st)
    ensures ScanAnchors(cs, goOn, i, id, keys, info, st)
    decreases cs, 0, |cs| - i
  {
    if i < |cs| {
      var at := Before(cs, i, info, st);
      AllowEffect(cs[i], id, keys, info, at);
      if Allow(cs[i], info, at).0 != goOn {
        ScanStops(cs, goOn, i, id, keys, info, st);
      } else {
        ScanEffect(cs, goOn, i + 1, id, keys, info, st);
        ScanGoesOn(cs, goOn, i, id, keys, info, st);
      }
    }
  }

  ghost predicate ScanAnchors(cs: seq<Filter>, goOn: bool, i: nat, id: FilterId, keys: Keys, info: Info, st: Store)
    requires i <= |cs|
  {
    var at := Before(cs, i, info, st);
    Get(Scan(cs, goOn, i, info, at).1, id) ==
      AnchorAfter(ReachedFrom(cs, goOn, i, id, info, st), keys, Get(at, id), info)
  }

  /** The i-th child ends the loop. */
  lemma ScanStops(cs: seq<Filter>, goOn: bool, i: nat, id: FilterId, keys: Keys, info: Info, st: Store)
    requires i < |cs| && Passed(cs, goOn, i, info, st) && Effect(cs[i], id, keys, info, Before(cs, i, info, st))
    requires Allow(cs[i], info, Before(cs, i, info, st)).0 != goOn
    ensures ScanAnchors(cs, goOn, i, id, keys, info, st)
  {
    ReachedStop(cs, goOn, i, id, info, st);
  }

  /** The i-th child lets it go on. */
  lemma ScanGoesOn(cs: seq<Filter>, goOn: bool, i: nat, id: FilterId, keys: Keys, info: Info, st: Store)
    requires i < |cs| && Passed(cs, goOn, i, info, st) && Effect(cs[i], id, keys, info, Before(cs, i, info, st))
    requires Allow(cs[i], info, Before(cs, i, info, st)).0 == goOn
    requires ScanAnchors(cs, goOn, i + 1, id, keys, info, st)
    ensures ScanAnchors(cs, goOn, i, id, keys, info, st)
  {
    ReachedStep(cs, goOn, i, id, info, st);
    assert Before(cs, i + 1, info, st) == Allow(cs[i], info, Before(cs, i, info, st)).1;
  }

  // ── Runs ───────────────────────────────────────────────────────────────

  /** The store after `k` pipes of a run have been judged. */
  function StoreAt(f: Filter, infos: seq<Info>, k: nat, st: Store): Store
    requires k <= |infos|
  {
    if k == 0 then st else Allow(f, infos[k - 1], StoreAt(f, infos, k - 1, st)).1
  }

  /** The evaluation of the k-th pipe of the run reaches the leaf. */
  ghost predicate Reaches(f: Filter, id: FilterId, infos: seq<Info>, st: Store, k: nat)
    requires k < |infos|
  {
    Reached(f, id, infos[k], StoreAt(f, infos, k, st))
  }

  ghost predicate FirstToReach(f: Filter, id: FilterId, infos: seq<Info>, st: Store, k: nat)
    requires k < |infos|
  {
    Reaches(f, id, infos, st, k) && forall j :: 0 <= j < k ==> !Reaches(f, id, infos, st, j)
  }

  lemma JudgeOne(f: Filter, id: FilterId, keys: Keys, infos: seq<Info>, st: Store, k: nat)
    requires KeysOf(f, id, keys) && k < |infos|
    ensures Get(StoreAt(f, infos, k + 1, st), id) ==
      AnchorAfter(Reaches(f, id, infos, st, k), keys, Get(StoreAt(f, infos, k, st), id), infos[k])
  {
    AllowEffect(f, id, keys, infos[k], StoreAt(f, infos, k, st));
  }

  lemma {:induction false} UnreachedKeeps(f: Filter, id: FilterId, keys: Keys, infos: seq<Info>, st: Store, n: nat)
    requires KeysOf(f, id, keys) && n <= |infos|
    requires forall k :: 0 <= k < n ==> !Reaches(f, id, infos, st, k)
    ensures Get(StoreAt(f, infos, n, st), id) == Get(st, id)
  {
    if n > 0 {
      UnreachedKeeps(f, id, keys, infos, st, n - 1);
      JudgeOne(f, id, keys, infos, st, n - 1);
    }
  }

  /**
   Over any run without reset, a first-wins child is anchored by exactly the first pipe whose
   short-circuit evaluation reaches it: not at all before, by that pipe's values ever after.
   */
  lemma {:induction false} AnchoredByFirstReached(f: Filter, id: FilterId, keys: Keys, infos: seq<Info>, st: Store,
                                                  k: nat, n: nat)
    requires KeysOf(f, id, keys) && k < |infos| && n <= |infos| && !Get(st, id).initialized
    requires FirstToReach(f, id, infos, st, k)
    ensures Get(StoreAt(f, infos, n, st), id) == if n <= k then Get(st, id) else Anchored(keys, Get(st, id), infos[k])
    decreases n
  {
    if n <= k {
      UnreachedKeeps(f, id, keys, infos, st, n);
    } else {
      AnchoredByFirstReached(f, id, keys, infos, st, k, n - 1);
      JudgeOne(f, id, keys, infos, st, n - 1);
    }
  }
}
