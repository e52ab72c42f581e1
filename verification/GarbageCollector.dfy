/** Removing the checkpoints of operations that started before a cutoff. */
module GarbageCollector {
  import opened ByteOrder
  import opened Bucket
  import opened CheckpointStore
  import opened NestedStore

  /** The ids of the stale entries, in key order. */
  function StaleIds(meta: seq<Entry<OperationMeta>>, cutoff: int): seq<string>
    decreases |meta|
  {
    if meta == [] then []
    else
      var last := meta[|meta| - 1];
      StaleIds(meta[..|meta| - 1], cutoff) + (if last.value.startTime < cutoff then [last.key] else [])
  }

  /** Removing operations one after another. */
  function RemoveEach(f: Flat, ids: seq<string>): Flat
    decreases |ids|
  {
    if ids == [] then f else Remove(RemoveEach(f, ids[..|ids| - 1]), ids[|ids| - 1])
  }

  function Collected(f: Flat, cutoff: int): Flat {
    RemoveEach(f, StaleIds(f.meta, cutoff))
  }

  lemma {:induction false} StaleMember(meta: seq<Entry<OperationMeta>>, cutoff: int, id: string)
    ensures id in StaleIds(meta, cutoff) <==>
        exists i :: 0 <= i < |meta| && meta[i].key == id && meta[i].value.startTime < cutoff
    decreases |meta|
  {
    if meta != [] {
      var front := meta[..|meta| - 1];
      StaleMember(front, cutoff, id);
      if id in StaleIds(front, cutoff) {
        var i :| 0 <= i < |front| && front[i].key == id && front[i].value.startTime < cutoff;
        assert meta[i] == front[i];
      }
      forall i | 0 <= i < |front| && meta[i].key == id && meta[i].value.startTime < cutoff
        ensures id in StaleIds(front, cutoff)
      {
        assert front[i] == meta[i];
      }
    }
  }

  /** What removing a list of operations does to the two maps. */
  lemma {:induction false} RemoveEachMeta(f: Flat, ids: seq<string>)
    requires Keyed(f)
    ensures Keyed(RemoveEach(f, ids))
    ensures View(RemoveEach(f, ids).meta) == map id | id in View(f.meta) && id !in ids :: View(f.meta)[id]
    decreases |ids|
  {
    if ids != [] {
      var front, last := ids[..|ids| - 1], ids[|ids| - 1];
      assert ids == front + [last];
      RemoveEachMeta(f, front);
      RemoveKeyed(RemoveEach(f, front), last);
    }
  }

  predicate InNone(key: string, ids: seq<string>) {
    forall id :: id in ids ==> !HasPrefix(key, PartitionKeyPrefix(id))
  }

  lemma {:induction false} RemoveEachPartitions(f: Flat, ids: seq<string>)
    requires Keyed(f)
    ensures View(RemoveEach(f, ids).partitions)
         == map k | k in View(f.partitions) && InNone(k, ids) :: View(f.partitions)[k]
    decreases |ids|
  {
    if ids != [] {
      var front, last := ids[..|ids| - 1], ids[|ids| - 1];
      assert ids == front + [last];
      RemoveEachPartitions(f, front);
      RemoveEachMeta(f, front);
      RemoveKeyed(RemoveEach(f, front), last);
      forall k ensures InNone(k, ids) <==> InNone(k, front) && !HasPrefix(k, PartitionKeyPrefix(last)) {
      }
    }
  }

  method GC(store: Store, cutoff: int)
    requires store.Valid()
    modifies store
    ensures store.Valid() && store.Contents() == Collected(old(store.Contents()), cutoff)
  {
    ghost var before := store.Contents();
    var ids := store.ListAllMetaIDs();
    assert before.meta[..0] == [];
    for i := 0 to |ids|
      invariant store.Valid()
      invariant store.Contents() == RemoveEach(before, StaleIds(before.meta[..i], cutoff))
    {
      GcRound(before, cutoff, i);
      var meta := store.GetMeta(ids[i]);
      if meta.Some? && meta.value.startTime < cutoff {
        store.DeleteOperation(meta.value.operationID);
      }
    }
    assert before.meta[..|ids|] == before.meta;
  }

  /** One round of the loop, on the contents. */
  lemma {:induction false} GcRound(f: Flat, cutoff: int, i: nat)
    requires Keyed(f) && i < |f.meta|
    ensures var g, e := RemoveEach(f, StaleIds(f.meta[..i], cutoff)), f.meta[i];
      && e.key in View(g.meta) && View(g.meta)[e.key] == e.value && e.value.operationID == e.key
      && RemoveEach(f, StaleIds(f.meta[..i + 1], cutoff)) == if e.value.startTime < cutoff then Remove(g, e.key) else g
  {
    StillThere(f, cutoff, i);
    var ids, e := StaleIds(f.meta[..i], cutoff), f.meta[i];
    StaleNext(f.meta, cutoff, i);
    assert (ids + [e.key])[..|ids|] == ids;
  }

  lemma {:induction false} StaleNext(meta: seq<Entry<OperationMeta>>, cutoff: int, i: nat)
    requires i < |meta|
    ensures var ids := StaleIds(meta[..i], cutoff);
      StaleIds(meta[..i + 1], cutoff) == if meta[i].value.startTime < cutoff then ids + [meta[i].key] else ids
  {
    assert meta[..i + 1][..i] == meta[..i];
  }

  /** The entry the loop is about to look at has not been removed by an earlier round. */
  lemma {:induction false} StillThere(f: Flat, cutoff: int, i: nat)
    requires Keyed(f) && i < |f.meta|
    ensures var g, e := RemoveEach(f, StaleIds(f.meta[..i], cutoff)), f.meta[i];
      e.key in View(g.meta) && View(g.meta)[e.key] == e.value
  {
    var ids, key := StaleIds(f.meta[..i], cutoff), f.meta[i].key;
    RemoveEachMeta(f, ids);
    ViewAt(f.meta, i);
    StaleMember(f.meta[..i], cutoff, key);
    Irreflexive(key);
    forall j | 0 <= j < i ensures f.meta[..i][j].key != key {
      assert Below(f.meta[j].key, key);
    }
  }

  /** GC leaves exactly the metas that did not start before the cutoff. */
  lemma GcKeepsFreshMetas(f: Flat, cutoff: int)
    requires Keyed(f)
    ensures View(Collected(f, cutoff).meta)
         == map id | id in View(f.meta) && View(f.meta)[id].startTime >= cutoff :: View(f.meta)[id]
  {
    RemoveEachMeta(f, StaleIds(f.meta, cutoff));
    forall id | id in View(f.meta) ensures id in StaleIds(f.meta, cutoff) <==> View(f.meta)[id].startTime < cutoff {
      StaleMember(f.meta, cutoff, id);
      ViewHas(f.meta, id);
      forall i | 0 <= i < |f.meta| && f.meta[i].key == id ensures f.meta[i].value == View(f.meta)[id] {
        ViewAt(f.meta, i);
      }
    }
  }

  /** With ids that are apart it removes the partitions of collected operations and no others. */
  lemma GcRemovesOnlyCollected(ids: iset<string>, f: Flat, n: Nested, cutoff: int, op: string, pid: string)
    requires Apart(ids) && Related(ids, f, n) && op in ids && forall id :: id in n.meta ==> id in ids
    ensures PartitionKey(op, pid) in View(Collected(f, cutoff).partitions)
      <==> (op, pid) in n.parts && !(op in n.meta && n.meta[op].startTime < cutoff)
  {
    var stale, k := StaleIds(f.meta, cutoff), PartitionKey(op, pid);
    RemoveEachPartitions(f, stale);
    OwnerIs(ids, f, n, op, pid);
    forall id | id in stale ensures id in n.meta && (HasPrefix(k, PartitionKeyPrefix(id)) <==> id == op) {
      StaleMember(f.meta, cutoff, id);
      ViewHas(f.meta, id);
      ScanMeetsOnlyItself(ids, id, op, pid);
    }
    StaleMember(f.meta, cutoff, op);
    ViewHas(f.meta, op);
    forall i | 0 <= i < |f.meta| && f.meta[i].key == op ensures f.meta[i].value == View(f.meta)[op] {
      ViewAt(f.meta, i);
    }
  }

  /** Collecting twice with the same cutoff is collecting once. */
  lemma GcIdempotent(f: Flat, cutoff: int)
    requires Keyed(f)
    ensures Collected(Collected(f, cutoff), cutoff) == Collected(f, cutoff)
  {
    var g := Collected(f, cutoff);
    RemoveEachMeta(f, StaleIds(f.meta, cutoff));
    GcKeepsFreshMetas(f, cutoff);
    forall i | 0 <= i < |g.meta| ensures g.meta[i].value.startTime >= cutoff {
      ViewAt(g.meta, i);
    }
    NoneStale(g.meta, cutoff);
  }

  lemma {:induction false} NoneStale(meta: seq<Entry<OperationMeta>>, cutoff: int)
    requires forall i :: 0 <= i < |meta| ==> meta[i].value.startTime >= cutoff
    ensures StaleIds(meta, cutoff) == []
    decreases |meta|
  {
    if meta != [] {
      NoneStale(meta[..|meta| - 1], cutoff);
    }
  }
}
