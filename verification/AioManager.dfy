/**
 _AioAsyncManager as an object: the part of the drain that holds the manager's lock, and
 release().  Both are one pass over a dictionary that the methods update in place; the
 interleaved form of the same operations is the step relation of CompletionPipeline.
 */
module AioManager {
  import opened Options
  import opened DispatchQueues
  import P = CompletionPipeline

  type Callback = P.OpRef

  /** The callbacks found by popping `ids` one after the other, and the dictionary left over. */
  function Collect(ids: seq<OpId>, dict: map<OpId, Callback>): (seq<Callback>, map<OpId, Callback>) {
    if ids == [] then ([], dict)
    else if ids[0] in dict then
      var (rest, left) := Collect(ids[1..], dict - {ids[0]});
      ([dict[ids[0]]] + rest, left)
    else Collect(ids[1..], dict)
  }

  /** One more id at the end. */
  lemma {:induction false} CollectSnoc(ids: seq<OpId>, id: OpId, dict: map<OpId, Callback>)
    ensures var (found, left) := Collect(ids, dict);
      Collect(ids + [id], dict) == if id in left then (found + [left[id]], left - {id}) else (found, left)
  {
    if ids == [] {
      assert ids + [id] == [id] && [id][1..] == [];
      if id in dict {
        var none: seq<Callback> := [];
        assert [dict[id]] + none == none + [dict[id]];
      }
    } else {
      var rest := if ids[0] in dict then dict - {ids[0]} else dict;
      CollectSnoc(ids[1..], id, rest);
      assert (ids + [id])[1..] == ids[1..] + [id];
      var (found, left) := Collect(ids[1..], rest);
      if ids[0] in dict && id in left {
        assert [dict[ids[0]]] + (found + [left[id]]) == ([dict[ids[0]]] + found) + [left[id]];
      }
    }
  }

  /** What is left is what was not popped; distinct registered ids give their callbacks in order. */
  lemma {:induction false} CollectTakesExactly(ids: seq<OpId>, dict: map<OpId, Callback>)
    ensures Collect(ids, dict).1 == map k | k in dict && k !in ids :: dict[k]
    ensures Registered(ids, dict) ==> Collect(ids, dict).0 == seq(|ids|, i requires 0 <= i < |ids| => dict[ids[i]])
  {
    if ids != [] {
      var rest := if ids[0] in dict then dict - {ids[0]} else dict;
      CollectTakesExactly(ids[1..], rest);
      assert forall k :: k in ids <==> k == ids[0] || k in ids[1..];
      if Registered(ids, dict) {
        assert Registered(ids[1..], rest);
      }
    }
  }

  /** Pairwise distinct keys of the dictionary, as the ids in transit are until release. */
  ghost predicate Registered(ids: seq<OpId>, dict: map<OpId, Callback>) {
    && (forall i :: 0 <= i < |ids| ==> ids[i] in dict)
    && (forall i, j :: 0 <= i < j < |ids| ==> ids[i] != ids[j])
  }

  class Manager {
    const queue: SockDispatchQueue
    var callables: Option<map<OpId, Callback>>   // None once released

    constructor (queue: SockDispatchQueue)
      ensures this.queue == queue && callables == Some(map[])
    {
      this.queue, callables := queue, Some(map[]);
    }

    /** The locked part of the drain: bytes, then ids, then one dictionary pop per id. */
    method CollectCallbacks() returns (callbacks: seq<Callback>)
      requires queue.Valid()
      modifies this, queue
      ensures queue.Valid() && queue.bytes == 0 && queue.queue == [] && queue.pushed == old(queue.pushed)
      ensures old(callables).None? ==> callables.None? && callbacks == []
      ensures old(callables).Some? ==>
        && callables.Some?
        && (callbacks, callables.value) == Collect(old(queue.queue), old(callables).value)
        && callables.value == map k | k in old(callables).value && k !in old(queue.queue) :: old(callables).value[k]
      ensures old(callables).Some? && Registered(old(queue.queue), old(callables).value) ==>
        && |callbacks| == |old(queue.queue)|
        && forall i :: 0 <= i < |callbacks| ==> callbacks[i] == old(callables).value[old(queue.queue)[i]]
    {
      callbacks := [];
      queue.DrainWakeup();
      var ready := queue.DrainReady([]);
      if callables.None? {
        return;
      }
      var dict := callables.value;
      ghost var registered := dict;
      for i := 0 to |ready|
        modifies {}
        invariant (callbacks, dict) == Collect(ready[..i], registered)
      {
        CollectSnoc(ready[..i], ready[i], registered);
        assert ready[..i + 1] == ready[..i] + [ready[i]];
        if ready[i] in dict {
          callbacks := callbacks + [dict[ready[i]]];
          dict := dict - {ready[i]};
        }
      }
      assert ready[..|ready|] == ready;
      CollectTakesExactly(ready, registered);
      callables := Some(dict);
    }

    /** The locked part of release(): everything registered is handed over, once. */
    method Detach() returns (snapshot: map<OpId, Callback>)
      modifies this
      ensures callables.None?
      ensures snapshot == if old(callables).Some? then old(callables).value else map[]
    {
      snapshot := if callables.Some? then callables.value else map[];
      callables := None;
    }
  }

  // ── Agreement with the step relation ───────────────────────────────────

  function Ids(ready: seq<P.Entry>): (r: seq<OpId>)
    ensures |r| == |ready|
  {
    seq(|ready|, i requires 0 <= i < |ready| => ready[i].id)
  }

  /** All pops of one drain, uninterrupted. */
  function PopAll(s: P.State): P.State
    decreases |s.ready|
  {
    if s.ready == [] then s else PopAll(P.DoPop(s))
  }

  /** Uninterrupted, the single pops of the step relation collect what CollectCallbacks collects. */
  lemma {:induction false} PopAllCollects(s: P.State)
    requires forall a :: a in s.dict ==> s.dict[a] in s.ops
    ensures PopAll(s).callbacks == s.callbacks + Collect(Ids(s.ready), s.dict).0
    ensures PopAll(s).dict == Collect(Ids(s.ready), s.dict).1
    decreases |s.ready|
  {
    if s.ready != [] {
      PopAllCollects(P.DoPop(s));
      assert Ids(s.ready)[1..] == Ids(s.ready[1..]);
    }
  }
}
