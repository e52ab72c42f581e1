/** The sequential parts of the orchestrator, over the checkpoint store: the resume filter
    of Migrate and the read-modify-write of saveCheckpoints. Both are proved against what
    the state machine of module Pipeline assumes of them. */
module Orchestrator {
  import opened Common
  import opened SchemaMapper
  import opened Pipeline
  import opened Bucket
  import opened CheckpointStore
  import opened NestedStore
  import opened PipelineOrder
  import opened PipelineResume

  /** The checkpoints of one operation: the store of Pipeline.Disk. */
  function OperationView(n: Nested, op: string): map<string, Checkpoint> {
    map key | key in n.parts && key.0 == op :: key.1 := n.parts[key].checkpoint
  }

  lemma OperationViewAt(n: Nested, op: string, pid: string)
    ensures pid in OperationView(n, op) <==> (op, pid) in n.parts
    ensures pid in OperationView(n, op) ==> OperationView(n, op)[pid] == n.parts[(op, pid)].checkpoint
  {
    if (op, pid) in n.parts {
      assert (op, pid).1 in OperationView(n, op);
    }
  }

  // ---------------------------------------------------------------- resuming

  /** The ids whose checkpoint is done. */
  method DonePartitions(checkpoints: seq<PartitionCheckpoint>) returns (done: set<string>)
    ensures forall id :: id in done <==>
        exists i :: 0 <= i < |checkpoints| && checkpoints[i].partitionID == id && checkpoints[i].checkpoint.status.Done?
  {
    done := {};
    for i := 0 to |checkpoints|
      invariant forall id :: id in done <==>
          exists j :: 0 <= j < i && checkpoints[j].partitionID == id && checkpoints[j].checkpoint.status.Done?
    {
      if checkpoints[i].checkpoint.status.Done? {
        done := done + {checkpoints[i].partitionID};
      }
    }
  }

  /** The first checkpoint of the partition that has an offset moves its start. */
  method AdjustStart(checkpoints: seq<PartitionCheckpoint>, p: Partition) returns (q: Partition)
    requires forall i, j :: 0 <= i < j < |checkpoints| ==> checkpoints[i].partitionID != checkpoints[j].partitionID
    ensures q == p || (exists i ::
        0 <= i < |checkpoints| && checkpoints[i].partitionID == p.id
        && q == p.(start := checkpoints[i].checkpoint.lastCommitted))
    ensures forall i :: 0 <= i < |checkpoints| && checkpoints[i].partitionID == p.id ==>
      q == if checkpoints[i].checkpoint.lastCommitted.Some?
           then p.(start := checkpoints[i].checkpoint.lastCommitted) else p
    ensures (forall i :: 0 <= i < |checkpoints| ==> checkpoints[i].partitionID != p.id) ==> q == p
  {
    q := p;
    for i := 0 to |checkpoints|
      invariant q == p
      invariant forall j :: 0 <= j < i && checkpoints[j].partitionID == p.id ==>
          checkpoints[j].checkpoint.lastCommitted.None?
    {
      var cp := checkpoints[i];
      if cp.partitionID == p.id && cp.checkpoint.lastCommitted.Some? {
        q := p.(start := cp.checkpoint.lastCommitted);
        break;
      }
    }
  }

  /** The filter of Migrate. An error of ListPartitions is ignored and leaves no checkpoints. */
  method SelectPartitions(store: Store, op: string, all: seq<Partition>, listed: bool, ghost ids: iset<string>,
                          ghost n: Nested)
    returns (partitions: seq<Partition>)
    requires store.Valid() && Apart(ids) && Related(ids, store.Contents(), n) && op in ids
    ensures partitions == Resume(all, if listed then OperationView(n, op) else map[])
  {
    ghost var view := if listed then OperationView(n, op) else map[];
    var checkpoints: seq<PartitionCheckpoint> := [];
    if listed {
      checkpoints := store.ListPartitions(op);
      ListAnswers(ids, store.Contents(), n, op);
      ListingIsView(n, op, checkpoints);
    }
    partitions := FilterPartitions(checkpoints, all, view);
  }

  ghost predicate Lists(checkpoints: seq<PartitionCheckpoint>, view: map<string, Checkpoint>) {
    && (forall i, j :: 0 <= i < j < |checkpoints| ==> checkpoints[i].partitionID != checkpoints[j].partitionID)
    && (forall i :: 0 <= i < |checkpoints| ==>
          checkpoints[i].partitionID in view && view[checkpoints[i].partitionID] == checkpoints[i].checkpoint)
    && (forall pid :: pid in view ==> exists i :: 0 <= i < |checkpoints| && checkpoints[i].partitionID == pid)
  }

  lemma ListingIsView(n: Nested, op: string, checkpoints: seq<PartitionCheckpoint>)
    requires Answers(n, ListPartitionsOp(op), Listing(checkpoints))
    requires forall key :: key in n.parts ==> n.parts[key].partitionID == key.1
    ensures Lists(checkpoints, OperationView(n, op))
  {
    forall i, j | 0 <= i < j < |checkpoints| ensures checkpoints[i].partitionID != checkpoints[j].partitionID {
      ByteOrder.Irreflexive(checkpoints[i].partitionID);
    }
    forall i | 0 <= i < |checkpoints|
      ensures checkpoints[i].partitionID in OperationView(n, op)
      ensures OperationView(n, op)[checkpoints[i].partitionID] == checkpoints[i].checkpoint
    {
      assert checkpoints[i] in checkpoints;
      OperationViewAt(n, op, checkpoints[i].partitionID);
    }
    forall pid | pid in OperationView(n, op)
      ensures exists i :: 0 <= i < |checkpoints| && checkpoints[i].partitionID == pid
    {
      OperationViewAt(n, op, pid);
      assert n.parts[(op, pid)] in checkpoints;
    }
  }

  /** What the filter makes of one partition. */
  function Resumed(p: Partition, view: map<string, Checkpoint>): seq<Partition> {
    if p.id !in view then [p]
    else if view[p.id].status.Done? then []
    else if view[p.id].lastCommitted.Some? then [p.(start := view[p.id].lastCommitted)]
    else [p]
  }

  lemma {:induction false} ResumeFrom(chosen: seq<Partition>, all: seq<Partition>, view: map<string, Checkpoint>,
                                      i: nat)
    requires i < |all|
    ensures chosen + Resume(all[i..], view) == chosen + Resumed(all[i], view) + Resume(all[i + 1..], view)
  {
    assert all[i..][1..] == all[i + 1..];
    assert Resume(all[i..], view) == Resumed(all[i], view) + Resume(all[i + 1..], view);
  }

  lemma DoneInView(checkpoints: seq<PartitionCheckpoint>, view: map<string, Checkpoint>, id: string)
    requires Lists(checkpoints, view)
    ensures id in view && view[id].status.Done? <==> exists i ::
        0 <= i < |checkpoints| && checkpoints[i].partitionID == id && checkpoints[i].checkpoint.status.Done?
  {
    if id in view {
      var i :| 0 <= i < |checkpoints| && checkpoints[i].partitionID == id;
    }
  }

  method FilterPartitions(checkpoints: seq<PartitionCheckpoint>, all: seq<Partition>,
                          ghost view: map<string, Checkpoint>)
    returns (partitions: seq<Partition>)
    requires Lists(checkpoints, view)
    ensures partitions == Resume(all, view)
  {
    var done := DonePartitions(checkpoints);
    partitions := [];
    for i := 0 to |all|
      invariant partitions + Resume(all[i..], view) == Resume(all, view)
    {
      ResumeFrom(partitions, all, view, i);
      var kept := FilterOne(checkpoints, done, all[i], view);
      partitions := partitions + kept;
    }
  }

  /** One round of the filter. */
  method FilterOne(checkpoints: seq<PartitionCheckpoint>, done: set<string>, p: Partition,
                   ghost view: map<string, Checkpoint>)
    returns (kept: seq<Partition>)
    requires Lists(checkpoints, view)
    requires p.id in done <==> exists i ::
        0 <= i < |checkpoints| && checkpoints[i].partitionID == p.id && checkpoints[i].checkpoint.status.Done?
    ensures kept == Resumed(p, view)
  {
    DoneInView(checkpoints, view, p.id);
    if p.id in done {
      return [];
    }
    var q := AdjustStart(checkpoints, p);
    kept := [q];
  }

  // ---------------------------------------------------------------- checkpointing

  /** One loop fills both maps. */
  method CollectMarks(batch: seq<Record>) returns (lastCommitted: map<string, int>, counts: map<string, int>)
    ensures lastCommitted.Keys == counts.Keys == Marks(batch).Keys
    ensures forall pid :: pid in lastCommitted ==> Marks(batch)[pid] == Mark(lastCommitted[pid], counts[pid])
  {
    lastCommitted, counts := map[], map[];
    for i := 0 to |batch|
      invariant lastCommitted.Keys == counts.Keys == Marks(batch[..i]).Keys
      invariant forall pid :: pid in lastCommitted ==> Marks(batch[..i])[pid] == Mark(lastCommitted[pid], counts[pid])
    {
      var rec := batch[i];
      assert batch[..i + 1][..i] == batch[..i];
      lastCommitted := lastCommitted[rec.pid := rec.offset];
      counts := counts[rec.pid := (if rec.pid in counts then counts[rec.pid] else 0) + 1];
    }
    assert batch[..|batch|] == batch;
  }

  /** The checkpoint written for a mark; an unreadable or absent one starts afresh. */
  function Advanced(store: map<string, Checkpoint>, pid: string, mark: Mark, readable: set<string>): Checkpoint {
    Merge(Loaded(pid, mark, if pid in readable && pid in store then store[pid] else Checkpoint(InProgress, None, 0)))
  }

  /** The checkpoints after a batch: marked partitions whose save succeeds move, others stay. */
  function Checkpointed(store: map<string, Checkpoint>, marks: map<string, Mark>, readable: set<string>,
                        saved: set<string>): map<string, Checkpoint> {
    store + map pid | pid in marks && pid in saved :: Advanced(store, pid, marks[pid], readable)
  }

  /** What saveCheckpoints does to one partition, by the batch's records of it: the offset of the
      last of them and their number, on top of what was read. */
  lemma {:induction false} SavedCheckpoint(store: map<string, Checkpoint>, batch: seq<Record>, readable: set<string>,
                                           saved: set<string>,
                        pid: string)
    ensures var own, after := Only(pid, batch), Checkpointed(store, Marks(batch), readable, saved);
      if own == [] || pid !in saved then Lookup(after, pid) == Lookup(store, pid)
      else
        var read := if pid in readable && pid in store then store[pid] else Checkpoint(InProgress, None, 0);
        && pid in after
        && after[pid] == Checkpoint(read.status, Some(own[|own| - 1].offset), read.rowsWritten + |own|)
  {
    if pid in Marks(batch) {
      MarkIsLast(batch, pid);
    } else {
      NoMark(batch, pid);
    }
  }

  /** The checkpoints after one of the marks. */
  function MarkedOne(store: map<string, Checkpoint>, pid: string, mark: Mark, readable: set<string>,
                     saved: set<string>): map<string, Checkpoint> {
    if pid in saved then store[pid := Advanced(store, pid, mark, readable)] else store
  }

  lemma OneMark(store: map<string, Checkpoint>, marks: map<string, Mark>, readable: set<string>, saved: set<string>,
                pid: string)
    requires pid in marks
    ensures Checkpointed(MarkedOne(store, pid, marks[pid], readable, saved), marks - {pid}, readable, saved)
         == Checkpointed(store, marks, readable, saved)
  {
    var a := Checkpointed(MarkedOne(store, pid, marks[pid], readable, saved), marks - {pid}, readable, saved);
    var b := Checkpointed(store, marks, readable, saved);
    forall q ensures Lookup(a, q) == Lookup(b, q) {
      OneMarkAt(store, marks, readable, saved, pid, q);
    }
    SameLookups(a, b);
  }

  lemma OneMarkAt(store: map<string, Checkpoint>, marks: map<string, Mark>, readable: set<string>,
                  saved: set<string>, pid: string, q: string)
    requires pid in marks
    ensures Lookup(Checkpointed(MarkedOne(store, pid, marks[pid], readable, saved), marks - {pid}, readable, saved), q)
         == Lookup(Checkpointed(store, marks, readable, saved), q)
  {
  }

  lemma NoMarks(store: map<string, Checkpoint>, readable: set<string>, saved: set<string>)
    ensures Checkpointed(store, map[], readable, saved) == store
  {
  }

  /** The two steps a writer of the state machine takes for one of its marks. */
  function MarkRound(cfg: Config, w: Writer, disk: Disk, ledger: Ledger, pid: string, readable: set<string>,
                     saved: set<string>): (Writer, Disk, Ledger)
    requires w.phase.Marking? && w.phase.loaded.None? && pid in w.phase.pending
  {
    var (w1, d1, l1) := WriterApply(cfg, w, disk, ledger, LoadCheckpoint(pid, pid in readable));
    WriterApply(cfg, w1, d1, l1, SaveCheckpoint(pid in saved))
  }

  lemma MarkRoundIs(cfg: Config, w: Writer, disk: Disk, ledger: Ledger, pid: string, readable: set<string>,
                    saved: set<string>)
    requires w.phase.Marking? && w.phase.loaded.None? && pid in w.phase.pending
    ensures MarkRound(cfg, w, disk, ledger, pid, readable, saved)
         == (w.(phase := StartMarking(w.phase.pending - {pid})),
             disk.(store := MarkedOne(disk.store, pid, w.phase.pending[pid], readable, saved)), ledger)
  {
  }

  /** Marking the partitions in a given order. */
  function MarkRounds(cfg: Config, w: Writer, disk: Disk, ledger: Ledger, order: seq<string>, readable: set<string>,
                      saved: set<string>): (Writer, Disk, Ledger)
    decreases |order|
  {
    if order == [] || !(w.phase.Marking? && w.phase.loaded.None? && order[0] in w.phase.pending) then (w, disk, ledger)
    else
      var (w1, d1, l1) := MarkRound(cfg, w, disk, ledger, order[0], readable, saved);
      MarkRounds(cfg, w1, d1, l1, order[1..], readable, saved)
  }

  lemma VisitsRest(order: seq<string>, keys: set<string>)
    requires Visits(order, keys) && order != []
    ensures order[0] in keys && Visits(order[1..], keys - {order[0]})
  {
    assert order[0] in order;
    forall pid ensures pid in order <==> pid == order[0] || pid in order[1..] {
    }
  }

  /** In whatever order a writer visits the partitions of its batch, its checkpoints end up
      as Checkpointed says, and it changes nothing else on the disk. */
  lemma {:induction false} MarkingIsOrderIndependent(cfg: Config, w: Writer, disk: Disk, ledger: Ledger,
                                                     pending: map<string, Mark>,
                                                     order: seq<string>, readable: set<string>, saved: set<string>)
    requires w.phase == StartMarking(pending) && Visits(order, pending.Keys)
    ensures MarkRounds(cfg, w, disk, ledger, order, readable, saved)
      == (w.(phase := Waiting), disk.(store := Checkpointed(disk.store, pending, readable, saved)), ledger)
    decreases |order|
  {
    if order == [] {
      assert pending == map[];
      NoMarks(disk.store, readable, saved);
    } else {
      var pid := order[0];
      VisitsRest(order, pending.Keys);
      assert (pending - {pid}).Keys == pending.Keys - {pid};
      MarkRoundIs(cfg, w, disk, ledger, pid, readable, saved);
      OneMark(disk.store, pending, readable, saved, pid);
      MarkingIsOrderIndependent(cfg, w.(phase := StartMarking(pending - {pid})),
                                disk.(store := MarkedOne(disk.store, pid, pending[pid], readable, saved)),
                                ledger, pending - {pid}, order[1..], readable, saved);
    }
  }

  /** Saving one partition on the nested store. */
  lemma SaveView(n: Nested, op: string, cp: PartitionCheckpoint)
    ensures var n' := NestedAfter(n, SavePartitionOp(op, cp));
      && OperationView(n', op) == OperationView(n, op)[cp.partitionID := cp.checkpoint]
      && OthersKept(op, n, n')
  {
    var n' := NestedAfter(n, SavePartitionOp(op, cp));
    forall pid
      ensures Lookup(OperationView(n', op), pid) == Lookup(OperationView(n, op)[cp.partitionID := cp.checkpoint], pid)
    {
      OperationViewAt(n, op, pid);
      OperationViewAt(n', op, pid);
    }
    SameLookups(OperationView(n', op), OperationView(n, op)[cp.partitionID := cp.checkpoint]);
  }

  /** The metas, and the checkpoints of every other operation, are the same. */
  ghost predicate OthersKept(op: string, a: Nested, b: Nested) {
    && a.meta == b.meta
    && (forall key: (string, string) :: key.0 != op ==> Lookup(a.parts, key) == Lookup(b.parts, key))
  }

  lemma SaveIsMark(n: Nested, op: string, pid: string, mark: Mark, readable: set<string>, saved: set<string>,
                   cp: Checkpoint)
    requires cp == Advanced(OperationView(n, op), pid, mark, readable)
    ensures var n' := if pid in saved then NestedAfter(n, SavePartitionOp(op, PartitionCheckpoint(pid, cp))) else n;
      OthersKept(op, n, n') && OperationView(n', op) == MarkedOne(OperationView(n, op), pid, mark, readable, saved)
  {
    SaveView(n, op, PartitionCheckpoint(pid, cp));
  }

  /** Go ranges over a map in any order, and so does the loop. A partition outside `readable`
      is one whose GetPartition fails, one outside `saved` one whose SavePartition fails. */
  method SaveCheckpoints(store: Store, op: string, batch: seq<Record>, readable: set<string>, saved: set<string>,
                         ghost ids: iset<string>, ghost n: Nested)
    returns (ghost after: Nested)
    requires store.Valid() && Apart(ids) && Related(ids, store.Contents(), n) && op in ids
    modifies store
    ensures store.Valid() && Related(ids, store.Contents(), after) && OthersKept(op, n, after)
    ensures OperationView(after, op) == Checkpointed(OperationView(n, op), Marks(batch), readable, saved)
  {
    var lastCommitted, counts := CollectMarks(batch);
    ghost var marks := Marks(batch);
    var pending := lastCommitted.Keys;
    after := n;
    while pending != {}
      invariant pending <= lastCommitted.Keys && marks.Keys == pending
      invariant forall pid :: pid in pending ==> marks[pid] == Mark(lastCommitted[pid], counts[pid])
      invariant store.Valid() && Related(ids, store.Contents(), after) && OthersKept(op, n, after)
      invariant Checkpointed(OperationView(after, op), marks, readable, saved)
             == Checkpointed(OperationView(n, op), Marks(batch), readable, saved)
      decreases |pending|
    {
      var pid :| pid in pending;
      OneMark(OperationView(after, op), marks, readable, saved, pid);
      after := SaveMark(store, op, pid, lastCommitted[pid], counts[pid], readable, saved, ids, after);
      pending, marks := pending - {pid}, marks - {pid};
    }
    assert marks == map[];
    NoMarks(OperationView(after, op), readable, saved);
  }

  /** What the save of one mark does to the two stores. */
  lemma SaveMarkRelates(ids: iset<string>, f: Flat, n: Nested, op: string, pid: string, mark: Mark,
                        readable: set<string>, saved: set<string>, cp: Checkpoint)
    requires Apart(ids) && Related(ids, f, n) && op in ids
    requires cp == Advanced(OperationView(n, op), pid, mark, readable)
    ensures var save := SavePartitionOp(op, PartitionCheckpoint(pid, cp));
      var n' := if pid in saved then NestedAfter(n, save) else n;
      && Related(ids, if pid in saved then FlatStep(f, save).0 else f, n') && OthersKept(op, n, n')
      && OperationView(n', op) == MarkedOne(OperationView(n, op), pid, mark, readable, saved)
  {
    SaveIsMark(n, op, pid, mark, readable, saved, cp);
    SaveRelates(ids, f, n, op, PartitionCheckpoint(pid, cp));
  }

  /** The checkpoint the read-modify-write of a mark computes. */
  lemma AdvancedIs(ids: iset<string>, f: Flat, n: Nested, op: string, pid: string, mark: Mark, readable: set<string>)
    requires Apart(ids) && Related(ids, f, n) && op in ids
    ensures var found := Lookup(View(f.partitions), PartitionKey(op, pid));
      var cp := if pid in readable && found.Some? then found.value.checkpoint else Checkpoint(InProgress, None, 0);
      Advanced(OperationView(n, op), pid, mark, readable)
        == cp.(lastCommitted := Some(mark.offset), rowsWritten := cp.rowsWritten + mark.count)
  {
    OperationViewAt(n, op, pid);
    OwnerIs(ids, f, n, op, pid);
  }

  /** The read and the modification. */
  method LoadMark(store: Store, op: string, pid: string, offset: int, count: int, readable: set<string>,
                  ghost ids: iset<string>, ghost n: Nested) returns (cp: Checkpoint)
    requires store.Valid() && Apart(ids) && Related(ids, store.Contents(), n) && op in ids
    ensures cp == Advanced(OperationView(n, op), pid, Mark(offset, count), readable)
  {
    AdvancedIs(ids, store.Contents(), n, op, pid, Mark(offset, count), readable);
    var found := store.GetPartition(op, pid);
    cp := Checkpoint(InProgress, None, 0);
    if pid in readable && found.Some? {
      cp := found.value.checkpoint;
    }
    cp := cp.(lastCommitted := Some(offset), rowsWritten := cp.rowsWritten + count);
  }

  /** The body of the loop: read, modify, write. */
  method SaveMark(store: Store, op: string, pid: string, offset: int, count: int,
                  readable: set<string>, saved: set<string>, ghost ids: iset<string>, ghost n: Nested)
    returns (ghost after: Nested)
    requires store.Valid() && Apart(ids) && Related(ids, store.Contents(), n) && op in ids
    modifies store
    ensures store.Valid() && Related(ids, store.Contents(), after) && OthersKept(op, n, after)
    ensures OperationView(after, op) == MarkedOne(OperationView(n, op), pid, Mark(offset, count), readable, saved)
  {
    var cp := LoadMark(store, op, pid, offset, count, readable, ids, n);
    SaveMarkRelates(ids, store.Contents(), n, op, pid, Mark(offset, count), readable, saved, cp);
    after := n;
    if pid in saved {
      after := NestedAfter(n, SavePartitionOp(op, PartitionCheckpoint(pid, cp)));
      store.SavePartition(op, PartitionCheckpoint(pid, cp));
    }
  }
}
