/** Exactly when the flat store behaves as a map keyed by (operation, partition): when no
    operation id followed by a colon begins another. */
module NestedStore {
  import opened Common
  import opened ByteOrder
  import opened Bucket
  import opened CheckpointStore
  import opened Pipeline

  // ---------------------------------------------------------------- keys

  /** No id followed by a colon begins another id. */
  ghost predicate Apart(ids: iset<string>) {
    forall a, b :: a in ids && b in ids ==> !(a + ":" <= b)
  }

  lemma ColonFreeIdsAreApart()
    ensures Apart(iset id | ColonFree(id))
  {
    forall a, b: string | ColonFree(b) ensures !(a + ":" <= b) {
      PrefixHasColon(a, b);
    }
  }

  lemma PrefixHasColon(op: string, other: string)
    ensures op + ":" <= other ==> ':' in other
  {
    if op + ":" <= other {
      assert other[|op|] == ':';
    }
  }

  lemma KeyInjective(ids: iset<string>, op1: string, pid1: string, op2: string, pid2: string)
    requires Apart(ids) && op1 in ids && op2 in ids && PartitionKey(op1, pid1) == PartitionKey(op2, pid2)
    ensures op1 == op2 && pid1 == pid2
  {
    SameKey(op1, pid1, op2, pid2);
    SameKey(op2, pid2, op1, pid1);
    assert |op1| == |op2|;
    var key := PartitionKey(op1, pid1);
    assert op1 == key[..|op1|] == op2;
    assert pid1 == key[|op1| + 1..] == pid2;
  }

  lemma SameKey(op1: string, pid1: string, op2: string, pid2: string)
    requires PartitionKey(op1, pid1) == PartitionKey(op2, pid2)
    ensures |op1| < |op2| ==> PartitionKeyPrefix(op1) <= op2
  {
    if |op1| < |op2| {
      var n := |op1| + 1;
      assert PartitionKeyPrefix(op1) == PartitionKey(op1, pid1)[..n] == PartitionKey(op2, pid2)[..n] == op2[..n];
    }
  }

  /** When a scan for one operation meets a key of another: exactly when it is the same
      operation, or one id continues the other after a colon in the way the keys do. */
  lemma ScanMeets(op: string, other: string, pid: string)
    ensures HasPrefix(PartitionKey(other, pid), PartitionKeyPrefix(op)) <==>
      || other == op
      || PartitionKeyPrefix(op) <= other
      || (|other| < |op| && PartitionKeyPrefix(other) <= op && op[|other| + 1..] + ":" <= pid)
  {
    var key, prefix := PartitionKey(other, pid), PartitionKeyPrefix(op);
    if |op| < |other| {
      assert prefix <= key ==> prefix == key[..|prefix|] == other[..|prefix|];
      assert prefix <= other ==> prefix == other[..|prefix|] == key[..|prefix|];
    } else if |op| == |other| {
      assert key[..|op|] == other && prefix[..|op|] == op;
      assert other == op ==> key[..|prefix|] == prefix;
    } else {
      var tail := op[|other| + 1..] + ":";
      assert key[|other| + 1..] == pid && prefix[|other| + 1..] == tail;
      if prefix <= key {
        assert key[..|prefix|] == prefix;
        assert PartitionKeyPrefix(other) == key[..|other| + 1] == prefix[..|other| + 1] == op[..|other| + 1];
        assert tail == key[..|prefix|][|other| + 1..] == pid[..|tail|];
      }
      if PartitionKeyPrefix(other) <= op && tail <= pid {
        assert prefix == PartitionKeyPrefix(other) + tail;
        assert key == PartitionKeyPrefix(other) + pid;
      }
    }
  }

  lemma ScanMeetsOnlyItself(ids: iset<string>, op: string, other: string, pid: string)
    requires Apart(ids) && op in ids && other in ids
    ensures HasPrefix(PartitionKey(other, pid), PartitionKeyPrefix(op)) <==> other == op
  {
    ScanMeets(op, other, pid);
  }

  // ---------------------------------------------------------------- the two stores

  /** The store the orchestrator relies on. */
  datatype Nested = Nested(meta: map<string, OperationMeta>, parts: map<(string, string), PartitionCheckpoint>)

  ghost predicate Related(ids: iset<string>, f: Flat, n: Nested) {
    && Keyed(f) && View(f.meta) == n.meta
    && (forall key :: key in n.parts ==>
          key.0 in ids && n.parts[key].partitionID == key.1
          && PartitionKey(key.0, key.1) in View(f.partitions)
          && View(f.partitions)[PartitionKey(key.0, key.1)] == n.parts[key])
    && (forall k :: k in View(f.partitions) ==> Owned(k, n))
  }

  ghost predicate Owned(k: string, n: Nested) {
    exists key :: key in n.parts && k == PartitionKey(key.0, key.1)
  }

  datatype Op =
    | SaveMetaOp(meta: OperationMeta)
    | GetMetaOp(op: string)
    | SavePartitionOp(op: string, cp: PartitionCheckpoint)
    | GetPartitionOp(op: string, pid: string)
    | ListPartitionsOp(op: string)
    | DeleteOperationOp(op: string)

  function OpId(o: Op): string {
    match o
    case SaveMetaOp(m) => m.operationID
    case GetMetaOp(op) => op
    case SavePartitionOp(op, _) => op
    case GetPartitionOp(op, _) => op
    case ListPartitionsOp(op) => op
    case DeleteOperationOp(op) => op
  }

  /** Calls about operations of a set. */
  ghost predicate About(ids: iset<string>, ops: seq<Op>) {
    forall i :: 0 <= i < |ops| ==> OpId(ops[i]) in ids
  }

  datatype Reply =
    | Stored
    | MetaReply(found: Option<OperationMeta>)
    | PartitionReply(partition: Option<PartitionCheckpoint>)
    | Listing(checkpoints: seq<PartitionCheckpoint>)

  /** What the methods of Store do to its contents, by their contracts. */
  function FlatStep(f: Flat, o: Op): (Flat, Reply) {
    match o
    case SaveMetaOp(m) => (f.(meta := Put(f.meta, m.operationID, m)), Stored)
    case GetMetaOp(op) => (f, MetaReply(Get(f.meta, op)))
    case SavePartitionOp(op, cp) => (f.(partitions := Put(f.partitions, PartitionKey(op, cp.partitionID), cp)), Stored)
    case GetPartitionOp(op, pid) => (f, PartitionReply(Get(f.partitions, PartitionKey(op, pid))))
    case ListPartitionsOp(op) => (f, Listing(Values(Select(f.partitions, InOperation(op)))))
    case DeleteOperationOp(op) => (Remove(f, op), Stored)
  }

  function NestedAfter(n: Nested, o: Op): Nested {
    match o
    case SaveMetaOp(m) => n.(meta := n.meta[m.operationID := m])
    case SavePartitionOp(op, cp) => n.(parts := n.parts[(op, cp.partitionID) := cp])
    case DeleteOperationOp(op) => Nested(n.meta - {op}, map key | key in n.parts && key.0 != op :: n.parts[key])
    case _ => n
  }

  /** The answers the nested map gives. A listing is the entries of one operation, each once,
      in ascending order of partition id. */
  ghost predicate Answers(n: Nested, o: Op, r: Reply) {
    match o
    case GetMetaOp(op) => r == MetaReply(Lookup(n.meta, op))
    case GetPartitionOp(op, pid) => r == PartitionReply(Lookup(n.parts, (op, pid)))
    case ListPartitionsOp(op) =>
      && r.Listing?
      && (forall i, j :: 0 <= i < j < |r.checkpoints| ==>
            Below(r.checkpoints[i].partitionID, r.checkpoints[j].partitionID))
      && (forall cp :: cp in r.checkpoints <==> (op, cp.partitionID) in n.parts && n.parts[(op, cp.partitionID)] == cp)
    case _ => r == Stored
  }

  lemma OwnerIs(ids: iset<string>, f: Flat, n: Nested, op: string, pid: string)
    requires Apart(ids) && Related(ids, f, n) && op in ids
    ensures PartitionKey(op, pid) in View(f.partitions) <==> (op, pid) in n.parts
  {
    if PartitionKey(op, pid) in View(f.partitions) {
      assert Owned(PartitionKey(op, pid), n);
      var key :| key in n.parts && PartitionKey(op, pid) == PartitionKey(key.0, key.1);
      KeyInjective(ids, op, pid, key.0, key.1);
      assert key == (op, pid);
    }
  }

  lemma SaveRelates(ids: iset<string>, f: Flat, n: Nested, op: string, cp: PartitionCheckpoint)
    requires Apart(ids) && Related(ids, f, n) && op in ids
    ensures Related(ids, FlatStep(f, SavePartitionOp(op, cp)).0, NestedAfter(n, SavePartitionOp(op, cp)))
  {
    var k, n' := PartitionKey(op, cp.partitionID), NestedAfter(n, SavePartitionOp(op, cp));
    PutIsUpdate(f.partitions, k, cp);
    forall key | key in n'.parts && key != (op, cp.partitionID) ensures PartitionKey(key.0, key.1) != k {
      if PartitionKey(key.0, key.1) == k {
        KeyInjective(ids, key.0, key.1, op, cp.partitionID);
      }
    }
    forall k' | k' in View(f.partitions)[k := cp] ensures Owned(k', n') {
      if k' == k {
        assert (op, cp.partitionID) in n'.parts;
      } else {
        assert Owned(k', n);
        var key :| key in n.parts && k' == PartitionKey(key.0, key.1);
        assert key in n'.parts;
      }
    }
  }

  lemma DeleteRelates(ids: iset<string>, f: Flat, n: Nested, op: string)
    requires Apart(ids) && Related(ids, f, n) && op in ids
    ensures Related(ids, Remove(f, op), NestedAfter(n, DeleteOperationOp(op)))
  {
    var n' := NestedAfter(n, DeleteOperationOp(op));
    RemoveKeyed(f, op);
    forall key | key in n'.parts ensures !HasPrefix(PartitionKey(key.0, key.1), PartitionKeyPrefix(op)) {
      ScanMeetsOnlyItself(ids, op, key.0, key.1);
    }
    forall k | k in View(Remove(f, op).partitions) ensures Owned(k, n') {
      assert Owned(k, n);
      var key :| key in n.parts && k == PartitionKey(key.0, key.1);
      ScanMeetsOnlyItself(ids, op, key.0, key.1);
      assert key in n'.parts;
    }
  }

  lemma ListAnswers(ids: iset<string>, f: Flat, n: Nested, op: string)
    requires Apart(ids) && Related(ids, f, n) && op in ids
    ensures Answers(n, ListPartitionsOp(op), Listing(Values(Select(f.partitions, InOperation(op)))))
  {
    var es := Select(f.partitions, InOperation(op));
    var r := Values(es);
    SelectOrdered(f.partitions, InOperation(op));
    forall i | 0 <= i < |es|
      ensures es[i].key == PartitionKey(op, r[i].partitionID) && (op, r[i].partitionID) in n.parts
      ensures n.parts[(op, r[i].partitionID)] == r[i]
    {
      SelectMember(f.partitions, InOperation(op), es[i]);
      var j :| 0 <= j < |f.partitions| && f.partitions[j] == es[i];
      ViewAt(f.partitions, j);
      assert Owned(es[i].key, n);
      var key :| key in n.parts && es[i].key == PartitionKey(key.0, key.1);
      ScanMeetsOnlyItself(ids, op, key.0, key.1);
      assert key == (op, r[i].partitionID);
    }
    forall i, j | 0 <= i < j < |r| ensures Below(r[i].partitionID, r[j].partitionID) {
      SamePrefixOrder(PartitionKeyPrefix(op), r[i].partitionID, r[j].partitionID);
    }
    forall cp: PartitionCheckpoint | (op, cp.partitionID) in n.parts && n.parts[(op, cp.partitionID)] == cp
      ensures cp in r
    {
      var k := PartitionKey(op, cp.partitionID);
      ViewHas(f.partitions, k);
      var j :| 0 <= j < |f.partitions| && f.partitions[j].key == k;
      ViewAt(f.partitions, j);
      SelectMember(f.partitions, InOperation(op), f.partitions[j]);
      var i :| 0 <= i < |es| && es[i] == f.partitions[j];
      assert r[i] == cp;
    }
  }

  lemma PutKeyed(meta: seq<Entry<OperationMeta>>, m: OperationMeta)
    requires forall i :: 0 <= i < |meta| ==> meta[i].value.operationID == meta[i].key
    ensures var r := Put(meta, m.operationID, m); forall i :: 0 <= i < |r| ==> r[i].value.operationID == r[i].key
  {
  }

  lemma MetaRelates(ids: iset<string>, f: Flat, n: Nested, m: OperationMeta)
    requires Related(ids, f, n)
    ensures Related(ids, FlatStep(f, SaveMetaOp(m)).0, NestedAfter(n, SaveMetaOp(m)))
  {
    PutIsUpdate(f.meta, m.operationID, m);
    PutKeyed(f.meta, m);
    forall k | k in View(f.partitions) ensures Owned(k, NestedAfter(n, SaveMetaOp(m))) {
      assert Owned(k, n);
    }
  }

  lemma StepRefines(ids: iset<string>, f: Flat, n: Nested, o: Op)
    requires Apart(ids) && Related(ids, f, n) && OpId(o) in ids
    ensures Answers(n, o, FlatStep(f, o).1) && Related(ids, FlatStep(f, o).0, NestedAfter(n, o))
  {
    match o
    case SaveMetaOp(m) => MetaRelates(ids, f, n, m);
    case GetMetaOp(op) => GetIsLookup(f.meta, op);
    case SavePartitionOp(op, cp) => SaveRelates(ids, f, n, op, cp);
    case GetPartitionOp(op, pid) =>
      GetIsLookup(f.partitions, PartitionKey(op, pid));
      OwnerIs(ids, f, n, op, pid);
    case ListPartitionsOp(op) => ListAnswers(ids, f, n, op);
    case DeleteOperationOp(op) => DeleteRelates(ids, f, n, op);
  }

  function FlatRun(f: Flat, ops: seq<Op>): (Flat, seq<Reply>)
    decreases |ops|
  {
    if ops == [] then (f, [])
    else
      var (g, r) := FlatStep(f, ops[0]);
      var (h, rs) := FlatRun(g, ops[1..]);
      (h, [r] + rs)
  }

  function NestedRun(n: Nested, ops: seq<Op>): seq<Nested>
    decreases |ops|
  {
    if ops == [] then [n] else [n] + NestedRun(NestedAfter(n, ops[0]), ops[1..])
  }

  const NO_FLAT := Flat([], [])
  const NO_NESTED := Nested(map[], map[])

  ghost predicate AnswersAll(n: Nested, ops: seq<Op>, rs: seq<Reply>)
    requires |rs| == |ops|
  {
    |NestedRun(n, ops)| == |ops| + 1 && forall i :: 0 <= i < |ops| ==> Answers(NestedRun(n, ops)[i], ops[i], rs[i])
  }

  /** Over any sequence of calls about ids that are apart, every reply of the flat store is the
      nested map's, and the stores stay related. */
  lemma {:induction false} StoreRefinesNestedMap(ids: iset<string>, f: Flat, n: Nested, ops: seq<Op>)
    requires Apart(ids) && Related(ids, f, n) && About(ids, ops)
    ensures |FlatRun(f, ops).1| == |ops| && AnswersAll(n, ops, FlatRun(f, ops).1)
    ensures Related(ids, FlatRun(f, ops).0, NestedRun(n, ops)[|ops|])
    decreases |ops|
  {
    if ops != [] {
      StepRefines(ids, f, n, ops[0]);
      StoreRefinesNestedMap(ids, FlatStep(f, ops[0]).0, NestedAfter(n, ops[0]), ops[1..]);
    }
  }

  /** From empty stores, calls about these operations cannot tell the two apart. */
  ghost predicate Refines(ids: iset<string>) {
    forall ops :: About(ids, ops) ==>
      |FlatRun(NO_FLAT, ops).1| == |ops| && AnswersAll(NO_NESTED, ops, FlatRun(NO_FLAT, ops).1)
  }

  const CP := PartitionCheckpoint("p", Checkpoint(InProgress, None, 0))

  /** Saving a partition of b and listing a, when a and a colon begin b. */
  function Confusing(a: string, b: string): seq<Op> { [SavePartitionOp(b, CP), ListPartitionsOp(a)] }

  lemma ListsForeign(a: string, b: string)
    requires a + ":" <= b
    ensures var f := FlatStep(NO_FLAT, SavePartitionOp(b, CP)).0; FlatStep(f, ListPartitionsOp(a)).1 == Listing([CP])
  {
    var f := FlatStep(NO_FLAT, SavePartitionOp(b, CP)).0;
    var e := Entry(PartitionKey(b, "p"), CP);
    assert f.partitions == [e];
    assert [e][1..] == [];
    ScanMeets(a, b, "p");
    assert Select([e], InOperation(a)) == [e];
  }

  lemma ConfusingAnswers(a: string, b: string)
    requires PartitionKeyPrefix(a) <= b
    ensures |FlatRun(NO_FLAT, Confusing(a, b)).1| == 2
    ensures !AnswersAll(NO_NESTED, Confusing(a, b), FlatRun(NO_FLAT, Confusing(a, b)).1)
  {
    var ops := Confusing(a, b);
    assert ops[1..] == [ListPartitionsOp(a)] && ops[1..][1..] == [];
    ListsForeign(a, b);
    var f := FlatStep(NO_FLAT, SavePartitionOp(b, CP)).0;
    assert FlatRun(f, ops[1..]).1 == [Listing([CP])];
    assert FlatRun(NO_FLAT, ops).1 == [Stored, Listing([CP])];
    var n := NestedAfter(NO_NESTED, ops[0]);
    assert NestedRun(NO_NESTED, ops) == [NO_NESTED] + NestedRun(n, ops[1..]);
    assert NestedRun(n, ops[1..]) == [n, n];
    assert NestedRun(NO_NESTED, ops)[1] == n;
    assert a != b && (a, "p") !in n.parts;
    assert CP in [CP];
    assert !Answers(n, ops[1], Listing([CP]));
  }

  /** The flat store refines the nested map, over all sequences of calls about the operations
      of a set, if and only if no id of the set followed by a colon begins another. */
  lemma RefinesIff(ids: iset<string>)
    ensures Refines(ids) <==> Apart(ids)
  {
    if Apart(ids) {
      forall ops | About(ids, ops)
        ensures |FlatRun(NO_FLAT, ops).1| == |ops| && AnswersAll(NO_NESTED, ops, FlatRun(NO_FLAT, ops).1)
      {
        StoreRefinesNestedMap(ids, NO_FLAT, NO_NESTED, ops);
      }
    } else {
      var a, b :| a in ids && b in ids && PartitionKeyPrefix(a) <= b;
      ConfusingAnswers(a, b);
      assert About(ids, Confusing(a, b));
    }
  }
}
