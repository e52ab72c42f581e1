/** The checkpoint store: two buckets, one of them a two-level map in flat keys. */
module CheckpointStore {
  import opened Common
  import opened ByteOrder
  import opened Bucket
  import opened Pipeline

  datatype OperationMeta = OperationMeta(operationID: string, startTime: int, configHash: string)

  datatype PartitionCheckpoint = PartitionCheckpoint(partitionID: string, checkpoint: Checkpoint)

  function PartitionKeyPrefix(op: string): string { op + ":" }

  function PartitionKey(op: string, pid: string): string { PartitionKeyPrefix(op) + pid }

  predicate ColonFree(op: string) { ':' !in op }

  /** The contents of the two buckets. */
  datatype Flat = Flat(meta: seq<Entry<OperationMeta>>, partitions: seq<Entry<PartitionCheckpoint>>)

  /** Keys agree with the values stored under them. */
  predicate Keyed(f: Flat) {
    && Ordered(f.meta) && Ordered(f.partitions)
    && (forall i :: 0 <= i < |f.meta| ==> f.meta[i].value.operationID == f.meta[i].key)
  }

  function InOperation(op: string): string -> bool {
    key => HasPrefix(key, PartitionKeyPrefix(op))
  }

  function OutsideOperation(op: string): string -> bool {
    key => !HasPrefix(key, PartitionKeyPrefix(op))
  }

  function Values<V>(es: seq<Entry<V>>): (vs: seq<V>)
    ensures |vs| == |es| && forall i :: 0 <= i < |vs| ==> vs[i] == es[i].value
  {
    seq(|es|, i requires 0 <= i < |es| => es[i].value)
  }

  function Remove(f: Flat, op: string): Flat {
    Flat(Delete(f.meta, op), Select(f.partitions, OutsideOperation(op)))
  }

  /** Everything from Seek to the first key without the prefix is everything with the prefix:
      the keys of one operation are contiguous. */
  lemma {:induction false} ScanIsInterval<V>(es: seq<Entry<V>>, prefix: string, i: nat)
    requires Ordered(es) && Seek(es, prefix) <= i <= |es|
    requires forall j :: Seek(es, prefix) <= j < i ==> HasPrefix(es[j].key, prefix)
    requires i < |es| ==> !HasPrefix(es[i].key, prefix)
    ensures forall j :: 0 <= j < |es| ==> (HasPrefix(es[j].key, prefix) <==> Seek(es, prefix) <= j < i)
  {
    SeekSplits(es, prefix);
    forall j | 0 <= j < |es| ensures HasPrefix(es[j].key, prefix) ==> Seek(es, prefix) <= j < i {
      if HasPrefix(es[j].key, prefix) {
        PrefixNotAbove(es[j].key, prefix);
        if i < j {
          PrefixInterval(prefix, es[i].key, es[j].key);
        }
      }
    }
  }

  class Store {
    var meta: seq<Entry<OperationMeta>>
    var partitions: seq<Entry<PartitionCheckpoint>>

    ghost predicate Valid()
      reads this
    {
      Keyed(Contents())
    }

    ghost function Contents(): Flat
      reads this
    {
      Flat(meta, partitions)
    }

    constructor ()
      ensures Valid() && Contents() == Flat([], [])
    {
      meta, partitions := [], [];
    }

    method SaveMeta(m: OperationMeta)
      requires Valid()
      modifies this
      ensures Valid()
      ensures View(meta) == old(View(meta))[m.operationID := m] && partitions == old(partitions)
      ensures Contents() == old(Contents()).(meta := Put(old(meta), m.operationID, m))
    {
      PutIsUpdate(meta, m.operationID, m);
      meta := Put(meta, m.operationID, m);
    }

    method GetMeta(op: string) returns (r: Option<OperationMeta>)
      requires Valid()
      ensures r == Lookup(View(meta), op)
    {
      GetIsLookup(meta, op);
      r := Get(meta, op);
    }

    method SavePartition(op: string, cp: PartitionCheckpoint)
      requires Valid()
      modifies this
      ensures Valid()
      ensures View(partitions) == old(View(partitions))[PartitionKey(op, cp.partitionID) := cp] && meta == old(meta)
      ensures Contents() == old(Contents()).(partitions := Put(old(partitions), PartitionKey(op, cp.partitionID), cp))
    {
      PutIsUpdate(partitions, PartitionKey(op, cp.partitionID), cp);
      partitions := Put(partitions, PartitionKey(op, cp.partitionID), cp);
    }

    method GetPartition(op: string, pid: string) returns (r: Option<PartitionCheckpoint>)
      requires Valid()
      ensures r == Lookup(View(partitions), PartitionKey(op, pid))
    {
      GetIsLookup(partitions, PartitionKey(op, pid));
      r := Get(partitions, PartitionKey(op, pid));
    }

    /** Seek to the prefix and walk the cursor while the prefix lasts: that visits exactly
        the keys of the bucket that have the prefix, in key order. */
    method ListPartitions(op: string) returns (checkpoints: seq<PartitionCheckpoint>)
      requires Valid()
      ensures checkpoints == Values(Select(partitions, InOperation(op)))
    {
      var prefix := PartitionKeyPrefix(op);
      var start := Seek(partitions, prefix);
      var i := start;
      checkpoints := [];
      while i < |partitions| && HasPrefix(partitions[i].key, prefix)
        invariant start <= i <= |partitions|
        invariant forall j :: start <= j < i ==> HasPrefix(partitions[j].key, prefix)
        invariant checkpoints == Values(partitions[start..i])
      {
        checkpoints := checkpoints + [partitions[i].value];
        i := i + 1;
      }
      ScanIsInterval(partitions, prefix, i);
      SelectSlice(partitions, InOperation(op), start, i);
    }

    /** The cursor half of DeleteOperation. */
    method CollectKeys(prefix: string) returns (keys: seq<string>)
      requires Ordered(partitions)
      ensures var start := Seek(partitions, prefix);
        && start + |keys| <= |partitions|
        && (forall j :: 0 <= j < |keys| ==> keys[j] == partitions[start + j].key)
        && (forall j :: 0 <= j < |partitions| ==>
              (HasPrefix(partitions[j].key, prefix) <==> start <= j < start + |keys|))
    {
      var start := Seek(partitions, prefix);
      var i := start;
      keys := [];
      while i < |partitions| && HasPrefix(partitions[i].key, prefix)
        invariant start <= i <= |partitions| && |keys| == i - start
        invariant forall j :: start <= j < i ==> HasPrefix(partitions[j].key, prefix)
        invariant forall j :: 0 <= j < |keys| ==> keys[j] == partitions[start + j].key
      {
        keys := keys + [partitions[i].key];
        i := i + 1;
      }
      ScanIsInterval(partitions, prefix, i);
    }

    /** The delete half: the keys of one interval of the bucket, one at a time. */
    method DeleteKeys(keys: seq<string>, ghost start: nat)
      requires Ordered(partitions) && start + |keys| <= |partitions|
      requires forall j :: 0 <= j < |keys| ==> keys[j] == partitions[start + j].key
      modifies this`partitions
      ensures partitions == old(partitions)[..start] + old(partitions)[start + |keys|..]
    {
      var n := 0;
      while n < |keys|
        invariant n <= |keys|
        invariant partitions == old(partitions)[..start] + old(partitions)[start + n..]
      {
        DeleteNext(old(partitions), start, n);
        partitions := Delete(partitions, keys[n]);
        n := n + 1;
      }
    }

    /** One transaction: the meta entry goes, a scan collects keys, and each is deleted. */
    method DeleteOperation(op: string)
      requires Valid()
      modifies this
      ensures Valid() && Contents() == Remove(old(Contents()), op)
    {
      RemoveKeyed(Contents(), op);
      meta := Delete(meta, op);
      var keysToDelete := CollectKeys(PartitionKeyPrefix(op));
      ghost var start := Seek(partitions, PartitionKeyPrefix(op));
      SelectOutside(partitions, OutsideOperation(op), start, start + |keysToDelete|);
      DeleteKeys(keysToDelete, start);
    }

    method ListAllMetaIDs() returns (ids: seq<string>)
      requires Valid()
      ensures |ids| == |meta| && forall i :: 0 <= i < |ids| ==> ids[i] == meta[i].key
    {
      ids := [];
      for i := 0 to |meta|
        invariant |ids| == i && forall j :: 0 <= j < i ==> ids[j] == meta[j].key
      {
        ids := ids + [meta[i].key];
      }
    }
  }

  /** DeleteOperation on the two maps. */
  lemma RemoveKeyed(f: Flat, op: string)
    requires Keyed(f)
    ensures Keyed(Remove(f, op))
    ensures View(Remove(f, op).meta) == View(f.meta) - {op}
    ensures View(Remove(f, op).partitions)
         == map k | k in View(f.partitions) && !HasPrefix(k, PartitionKeyPrefix(op)) :: View(f.partitions)[k]
  {
    DeleteIsRemove(f.meta, op);
    DeleteKeyed(f.meta, op);
    SelectView(f.partitions, OutsideOperation(op));
  }

  lemma DeleteKeyed(meta: seq<Entry<OperationMeta>>, op: string)
    requires forall i :: 0 <= i < |meta| ==> meta[i].value.operationID == meta[i].key
    ensures forall i :: 0 <= i < |Delete(meta, op)| ==> Delete(meta, op)[i].value.operationID == Delete(meta, op)[i].key
  {
    var r := Delete(meta, op);
    forall i | 0 <= i < |r| ensures r[i].value.operationID == r[i].key {
      assert r[i] in meta;
    }
  }

  /** Deleting the next collected key takes the entry at the cursor's old start. */
  lemma DeleteNext<V>(es: seq<Entry<V>>, start: nat, n: nat)
    requires Ordered(es) && start + n < |es|
    ensures Delete(es[..start] + es[start + n..], es[start + n].key) == es[..start] + es[start + n + 1..]
  {
    var left := es[..start] + es[start + n..];
    assert left[start] == es[start + n];
    FoundAt(left, es[start + n].key, start);
  }
}
