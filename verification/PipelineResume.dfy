/** Checkpoints are low-water marks: crash, restart and finish, and nothing is missing. */
module PipelineResume {
  import opened Common
  import opened SchemaMapper
  import opened Pipeline
  import opened PipelineSafety
  import opened PipelineConservation
  import opened PipelineOutcome
  import opened PipelineOrder

  // ---------------------------------------------------------------- what a checkpoint means

  /** Every record of the partition is in the target or the dead-letter queue. */
  ghost predicate AllSettled(m: Option<Mapper>, table: seq<Row>, all: seq<Partition>, disk: Disk, pid: string) {
    forall p, r :: p in all && p.id == pid && r in Read(p, table) ==> Settled(disk, Mapped(m, r))
  }

  /** Every record of the partition below the offset is. */
  ghost predicate SettledBelow(m: Option<Mapper>, table: seq<Row>, all: seq<Partition>, disk: Disk, pid: string,
                               o: int) {
    forall p, r :: p in all && p.id == pid && r in Read(p, table) && r.offset < o ==> Settled(disk, Mapped(m, r))
  }

  ghost predicate CheckpointOk(m: Option<Mapper>, table: seq<Row>, all: seq<Partition>, disk: Disk, pid: string,
                               c: Checkpoint) {
    && (c.status.Done? ==> AllSettled(m, table, all, disk, pid))
    && (c.lastCommitted.Some? ==> SettledBelow(m, table, all, disk, pid, c.lastCommitted.value))
  }

  /** The low-water-mark property of everything that survives a crash. */
  ghost predicate DiskOk(m: Option<Mapper>, table: seq<Row>, all: seq<Partition>, disk: Disk) {
    forall pid :: pid in disk.store ==> CheckpointOk(m, table, all, disk, pid, disk.store[pid])
  }

  // ---------------------------------------------------------------- the invariant of a 1 x 1 run

  /** A mapped record is settled or still in its partition's queue. */
  ghost predicate Accounted(m: Option<Mapper>, s: State, r: Record)
    requires OneEach(s)
  {
    Settled(s.disk, r) || exists i :: 0 <= i < |s.lanes| && InQueue(m, s, i, r)
  }

  predicate InQueue(m: Option<Mapper>, s: State, i: nat, r: Record)
    requires OneEach(s) && i < |s.lanes|
  {
    s.lanes[i].pid == r.pid && r in Remaining(m, s, i)
  }

  /** Nothing left of the partition lies below the offset. */
  ghost predicate MarkOk(m: Option<Mapper>, s: State, pid: string, o: int)
    requires OneEach(s)
  {
    forall i :: 0 <= i < |s.lanes| && s.lanes[i].pid == pid ==> AtLeast(Remaining(m, s, i), o)
  }

  /** What the marks a writer holds license. */
  ghost predicate PhaseOk(m: Option<Mapper>, table: seq<Row>, all: seq<Partition>, s: State, p: WriterPhase)
    requires OneEach(s)
  {
    p.Marking? ==>
      && (forall pid :: pid in p.pending ==> MarkOk(m, s, pid, p.pending[pid].offset))
      && (p.loaded.Some? ==> LoadedOk(m, table, all, s, p.loaded.value))
  }

  ghost predicate LoadedOk(m: Option<Mapper>, table: seq<Row>, all: seq<Partition>, s: State, l: Loaded)
    requires OneEach(s)
  {
    && MarkOk(m, s, l.pid, l.mark.offset)
    && (l.checkpoint.status.Done? ==> AllSettled(m, table, all, s.disk, l.pid))
  }

  ghost predicate MarksOk(m: Option<Mapper>, table: seq<Row>, all: seq<Partition>, s: State)
    requires OneEach(s)
  {
    PhaseOk(m, table, all, s, s.writers[0].phase)
  }

  ghost predicate Queued(cfg: Config, table: seq<Row>, all: seq<Partition>, s: State) {
    && OneEach(s) && LanesOk(s) && cfg.dlq.Reliable?
    && (forall i :: 0 <= i < |s.lanes| ==> Ascending(Remaining(cfg.mapper, s, i)))
    && (forall p, r :: p in all && r in Read(p, table) ==> Accounted(cfg.mapper, s, Mapped(cfg.mapper, r)))
    && MarksOk(cfg.mapper, table, all, s)
    && DiskOk(cfg.mapper, table, all, s.disk)
  }

  // ---------------------------------------------------------------- one step

  ghost predicate Grows(d: Disk, e: Disk) {
    d.target.Keys <= e.target.Keys && d.dlq <= e.dlq
  }

  /** The disk only gains rows and dead letters, and what a step takes out of the queue is
      settled by that same step. */
  lemma WriterSettles(cfg: Config, w: Writer, disk: Disk, ledger: Ledger, act: WriterAction)
    requires WriterEnabled(cfg, w.phase, act) && cfg.dlq.Reliable?
    ensures var next := WriterApply(cfg, w, disk, ledger, act);
      && Grows(disk, next.1)
      && Taken(w.phase, act) <= |InHand(w.phase)|
      && forall r :: r in InHand(w.phase)[..Taken(w.phase, act)] ==> Settled(next.1, r)
  {
    match act
    case WriteOk => UpsertEntries(disk.target, w.phase.batch);
    case WriteFail(applied) => UpsertEntries(disk.target, applied);
    case RetryOk => UpsertEntries(disk.target, [w.phase.rest[0]]);
    case RetryFail(_) => UpsertEntries(disk.target, [w.phase.rest[0]]);
    case DeadLetter(_) =>
    case LoadCheckpoint(_, _) =>
    case SaveCheckpoint(_) =>
  }

  lemma StepSettles(cfg: Config, s: State, a: Action, t: State)
    requires OneEach(s) && Enabled(cfg, s, a) && t == Apply(cfg, s, a) && cfg.dlq.Reliable?
    ensures Grows(s.disk, t.disk)
    ensures Consumed(s, a) <= |Stream(cfg.mapper, s)|
    ensures forall r :: r in Stream(cfg.mapper, s)[..Consumed(s, a)] ==> Settled(t.disk, r)
  {
    if a.WriterStep? {
      WriterSettles(cfg, s.writers[0], s.disk, s.ledger, a.wact);
      assert Stream(cfg.mapper, s)[..Consumed(s, a)] == InHand(s.writers[0].phase)[..Consumed(s, a)];
    } else {
      StepKeepsDisk(cfg, s, a);
    }
  }

  lemma SuffixOrder(o: seq<Record>, rest: seq<Record>)
    ensures Ascending(o + rest) ==> Ascending(rest)
    ensures forall n :: AtLeast(o + rest, n) ==> AtLeast(rest, n)
  {
    assert (o + rest)[|o|..] == rest;
  }

  /** The queue facts that follow from "each partition keeps a suffix". */
  lemma {:induction false} SuffixFacts(m: Option<Mapper>, s: State, t: State, taken: seq<Record>, i: nat)
    requires OneEach(s) && OneEach(t) && |t.lanes| == |s.lanes| && i < |s.lanes| && t.lanes[i].pid == s.lanes[i].pid
    requires Remaining(m, s, i) == Only(s.lanes[i].pid, taken) + Remaining(m, t, i)
    requires forall r :: r in taken ==> Settled(t.disk, r)
    ensures Ascending(Remaining(m, s, i)) ==> Ascending(Remaining(m, t, i))
    ensures forall o :: AtLeast(Remaining(m, s, i), o) ==> AtLeast(Remaining(m, t, i), o)
    ensures forall r :: InQueue(m, s, i, r) ==> Settled(t.disk, r) || InQueue(m, t, i, r)
  {
    SuffixOrder(Only(s.lanes[i].pid, taken), Remaining(m, t, i));
    forall r | InQueue(m, s, i, r) ensures Settled(t.disk, r) || InQueue(m, t, i, r) {
      OnlyMember(s.lanes[i].pid, taken, r);
    }
  }

  /** Facts about the old state that carry over to the new one. */
  ghost predicate Carries(m: Option<Mapper>, table: seq<Row>, all: seq<Partition>, s: State, t: State)
    requires OneEach(s) && OneEach(t)
  {
    && Grows(s.disk, t.disk)
    && (forall pid, o :: MarkOk(m, s, pid, o) ==> MarkOk(m, t, pid, o))
  }

  lemma {:induction false} StepCarries(cfg: Config, table: seq<Row>, all: seq<Partition>, s: State, a: Action, t: State)
    requires Queued(cfg, table, all, s) && Enabled(cfg, s, a) && t == Apply(cfg, s, a)
    ensures OneEach(t) && LanesOk(t) && Carries(cfg.mapper, table, all, s, t)
    ensures forall i :: 0 <= i < |t.lanes| ==> Ascending(Remaining(cfg.mapper, t, i))
    ensures forall p, r :: p in all && r in Read(p, table) ==> Accounted(cfg.mapper, t, Mapped(cfg.mapper, r))
  {
    var m := cfg.mapper;
    StepSettles(cfg, s, a, t);
    StepKeepsLanes(cfg, s, a);
    StepKeepsShape(cfg, s, a, t);
    var taken := Stream(m, s)[..Consumed(s, a)];
    forall i | 0 <= i < |s.lanes|
      ensures t.lanes[i].pid == s.lanes[i].pid && Ascending(Remaining(m, t, i))
      ensures forall o :: AtLeast(Remaining(m, s, i), o) ==> AtLeast(Remaining(m, t, i), o)
      ensures forall r :: InQueue(m, s, i, r) ==> Settled(t.disk, r) || InQueue(m, t, i, r)
    {
      StepKeepsOrder(cfg, s, a, t, i);
      SuffixFacts(m, s, t, taken, i);
    }
    forall p, r | p in all && r in Read(p, table) ensures Accounted(m, t, Mapped(m, r)) {
      assert Accounted(m, s, Mapped(m, r));
    }
  }

  lemma StepKeepsShape(cfg: Config, s: State, a: Action, t: State)
    requires OneEach(s) && LanesOk(s) && Enabled(cfg, s, a) && t == Apply(cfg, s, a)
    ensures OneEach(t) && |t.lanes| == |s.lanes|
  {
    if a.ReaderSend? || a.ReaderHandOver? {
      SendFrame(cfg, s, a);
    } else {
      StreamAfter(cfg, s, a);
    }
  }

  lemma CheckpointCarries(m: Option<Mapper>, table: seq<Row>, all: seq<Partition>, d: Disk, e: Disk, pid: string)
    requires Grows(d, e)
    ensures AllSettled(m, table, all, d, pid) ==> AllSettled(m, table, all, e, pid)
    ensures forall o :: SettledBelow(m, table, all, d, pid, o) ==> SettledBelow(m, table, all, e, pid, o)
  {
  }

  // ---------------------------------------------------------------- marks

  /** A batch's mark for a partition is the offset of its last record of that partition. */
  lemma {:induction false} MarkIsLast(batch: seq<Record>, pid: string)
    requires pid in Marks(batch)
    ensures Only(pid, batch) != []
    ensures Marks(batch)[pid] == Mark(Only(pid, batch)[|Only(pid, batch)| - 1].offset, |Only(pid, batch)|)
    decreases |batch|
  {
    var front, last := batch[..|batch| - 1], batch[|batch| - 1];
    assert batch == front + [last];
    OnlySnoc(pid, front, last);
    if pid in Marks(front) {
      MarkIsLast(front, pid);
    } else {
      NoMark(front, pid);
    }
  }

  lemma {:induction false} NoMark(batch: seq<Record>, pid: string)
    requires pid !in Marks(batch)
    ensures Only(pid, batch) == []
  {
    forall r | r in Only(pid, batch) ensures false {
      OnlyMember(pid, batch, r);
    }
    if Only(pid, batch) != [] {
      assert Only(pid, batch)[0] in Only(pid, batch);
    }
  }

  /** After a whole batch has left an ascending queue, nothing left lies below its mark. */
  lemma {:induction false} MarksHold(m: Option<Mapper>, s: State, t: State, batch: seq<Record>, pid: string)
    requires OneEach(s) && OneEach(t) && |t.lanes| == |s.lanes| && pid in Marks(batch)
    requires forall i :: 0 <= i < |s.lanes| ==> t.lanes[i].pid == s.lanes[i].pid
    requires forall i :: 0 <= i < |s.lanes| ==> Ascending(Remaining(m, s, i))
    requires forall i :: 0 <= i < |s.lanes| ==> Remaining(m, s, i) == Only(s.lanes[i].pid, batch) + Remaining(m, t, i)
    ensures MarkOk(m, t, pid, Marks(batch)[pid].offset)
  {
    MarkIsLast(batch, pid);
    forall i | 0 <= i < |t.lanes| && t.lanes[i].pid == pid
      ensures AtLeast(Remaining(m, t, i), Marks(batch)[pid].offset)
    {
      assert s.lanes[i].pid == pid && Ascending(Remaining(m, s, i));
      RestAtLeast(Only(pid, batch), Remaining(m, t, i));
    }
  }

  lemma RestAtLeast(o: seq<Record>, rest: seq<Record>)
    requires o != [] && Ascending(o + rest)
    ensures AtLeast(rest, o[|o| - 1].offset)
  {
    forall r | r in rest ensures r.offset >= o[|o| - 1].offset {
      var k :| 0 <= k < |rest| && rest[k] == r;
      assert (o + rest)[|o| - 1] == o[|o| - 1] && (o + rest)[|o| + k] == r;
    }
  }

  lemma WriteMarks(cfg: Config, table: seq<Row>, all: seq<Partition>, s: State, a: Action, t: State)
    requires Queued(cfg, table, all, s) && Enabled(cfg, s, a) && t == Apply(cfg, s, a)
    requires a.WriterStep? && a.wact.WriteOk?
    ensures OneEach(t) && MarksOk(cfg.mapper, table, all, t)
  {
    var m, batch := cfg.mapper, s.writers[0].phase.batch;
    StepKeepsShape(cfg, s, a, t);
    forall i | 0 <= i < |s.lanes|
      ensures t.lanes[i].pid == s.lanes[i].pid
      ensures Remaining(m, s, i) == Only(s.lanes[i].pid, batch) + Remaining(m, t, i)
    {
      StepKeepsOrder(cfg, s, a, t, i);
      assert Stream(m, s)[..Consumed(s, a)] == batch;
    }
    if t.writers[0].phase.Marking? {
      forall pid | pid in Marks(batch) ensures MarkOk(m, t, pid, Marks(batch)[pid].offset) {
        MarksHold(m, s, t, batch, pid);
      }
    }
  }

  /** A phase that was in order stays in order when the state moves on. */
  lemma PhaseCarries(m: Option<Mapper>, table: seq<Row>, all: seq<Partition>, s: State, t: State, p: WriterPhase)
    requires OneEach(s) && OneEach(t) && Carries(m, table, all, s, t) && PhaseOk(m, table, all, s, p)
    ensures PhaseOk(m, table, all, t, p)
  {
    if p.Marking? && p.loaded.Some? {
      CheckpointCarries(m, table, all, s.disk, t.disk, p.loaded.value.pid);
    }
  }

  /** The next phase of a busy writer is in order where its last one was. */
  lemma NextPhaseOk(cfg: Config, table: seq<Row>, all: seq<Partition>, s: State, act: WriterAction)
    requires Queued(cfg, table, all, s) && WriterEnabled(cfg, s.writers[0].phase, act) && !act.WriteOk?
    ensures PhaseOk(cfg.mapper, table, all, s, WriterApply(cfg, s.writers[0], s.disk, s.ledger, act).0.phase)
  {
    var p := s.writers[0].phase;
    match act
    case LoadCheckpoint(pid, _) => assert MarkOk(cfg.mapper, s, pid, p.pending[pid].offset);
    case SaveCheckpoint(_) =>
    case WriteFail(_) =>
    case RetryOk =>
    case RetryFail(_) =>
    case DeadLetter(_) =>
  }

  lemma StoreMarks(cfg: Config, table: seq<Row>, all: seq<Partition>, s: State, act: WriterAction, t: State)
    requires Queued(cfg, table, all, s) && Enabled(cfg, s, WriterStep(0, act)) && t == Apply(cfg, s, WriterStep(0, act))
    requires OneEach(t) && Carries(cfg.mapper, table, all, s, t) && !act.WriteOk?
    ensures MarksOk(cfg.mapper, table, all, t)
  {
    NextPhaseOk(cfg, table, all, s, act);
    PhaseCarries(cfg.mapper, table, all, s, t, t.writers[0].phase);
  }

  lemma OtherMarks(cfg: Config, table: seq<Row>, all: seq<Partition>, s: State, a: Action, t: State)
    requires Queued(cfg, table, all, s) && Enabled(cfg, s, a) && t == Apply(cfg, s, a)
    requires OneEach(t) && Carries(cfg.mapper, table, all, s, t) && !a.WriterStep?
    ensures MarksOk(cfg.mapper, table, all, t)
  {
    StepKeepsPhase(cfg, s, a);
    PhaseCarries(cfg.mapper, table, all, s, t, s.writers[0].phase);
  }

  /** The writer keeps its marks, or has none. */
  predicate PhaseKept(s: State, t: State)
    requires OneEach(s)
  {
    OneEach(t) && (t.writers[0].phase.Marking? ==> t.writers[0].phase == s.writers[0].phase)
  }

  lemma ReaderKeepsPhase(cfg: Config, s: State, a: Action)
    requires OneEach(s) && Enabled(cfg, s, a) && OfReader(a)
    ensures PhaseKept(s, Apply(cfg, s, a))
  {
    match a
    case LaneStep(_, _) =>
    case ReaderSend(_) =>
    case ReaderHandOver(_, _) =>
    case ReaderReturn(_) =>
    case CloseRecordCh =>
  }

  lemma TransformerKeepsPhase(cfg: Config, s: State, a: Action)
    requires OneEach(s) && Enabled(cfg, s, a) && OfTransformer(a)
    ensures PhaseKept(s, Apply(cfg, s, a))
  {
    match a
    case TransformerReceive(_) =>
    case TransformerTick(_) =>
    case TransformerSend(_) =>
    case TransformerEnd(_) =>
    case TransformerCancel(_) =>
  }

  lemma WriterKeepsPhase(cfg: Config, s: State, a: Action)
    requires OneEach(s) && Enabled(cfg, s, a) && OfWriter(a) && !a.WriterStep?
    ensures PhaseKept(s, Apply(cfg, s, a))
  {
    match a
    case CloseBatchCh =>
    case WriterReceive(_) =>
    case WriterEnd(_) =>
    case WriterCancel(_) =>
    case CancelContext =>
  }

  lemma StepKeepsPhase(cfg: Config, s: State, a: Action)
    requires OneEach(s) && Enabled(cfg, s, a) && !a.WriterStep?
    ensures PhaseKept(s, Apply(cfg, s, a))
  {
    if OfReader(a) {
      ReaderKeepsPhase(cfg, s, a);
    } else if OfTransformer(a) {
      TransformerKeepsPhase(cfg, s, a);
    } else {
      WriterKeepsPhase(cfg, s, a);
    }
  }

  // ---------------------------------------------------------------- the checkpoint store

  /** What a mark licenses: everything below it has left the queue, hence is settled. */
  lemma MarkSettles(cfg: Config, table: seq<Row>, all: seq<Partition>, s: State, pid: string, o: int)
    requires Queued(cfg, table, all, s) && MarkOk(cfg.mapper, s, pid, o)
    ensures SettledBelow(cfg.mapper, table, all, s.disk, pid, o)
  {
    var m := cfg.mapper;
    forall p, r | p in all && p.id == pid && r in Read(p, table)
      ensures r.offset < o ==> Settled(s.disk, Mapped(m, r))
    {
      assert Accounted(m, s, Mapped(m, r));
      if i :| 0 <= i < |s.lanes| && InQueue(m, s, i, Mapped(m, r)) {
        assert AtLeast(Remaining(m, s, i), o);
      }
    }
  }

  /** What the checkpoint a save puts in place says is true. */
  lemma SavedOk(cfg: Config, table: seq<Row>, all: seq<Partition>, s: State, l: Loaded)
    requires Queued(cfg, table, all, s) && LoadedOk(cfg.mapper, table, all, s, l)
    ensures CheckpointOk(cfg.mapper, table, all, s.disk, l.pid, Merge(l))
  {
    MarkSettles(cfg, table, all, s, l.pid, l.mark.offset);
  }

  predicate Saves(s: State, a: Action, pid: string)
    requires OneEach(s) && (a.WriterStep? && a.wact.SaveCheckpoint? ==>
        s.writers[0].phase.Marking? && s.writers[0].phase.loaded.Some?)
  {
    a.WriterStep? && a.wact.SaveCheckpoint? && a.wact.saved && pid == s.writers[0].phase.loaded.value.pid
  }

  lemma StoredOk(cfg: Config, table: seq<Row>, all: seq<Partition>, s: State, a: Action, t: State, pid: string)
    requires Queued(cfg, table, all, s) && Enabled(cfg, s, a) && t == Apply(cfg, s, a) && pid in t.disk.store
    ensures CheckpointOk(cfg.mapper, table, all, s.disk, pid, t.disk.store[pid])
  {
    if Saves(s, a, pid) {
      SavedOk(cfg, table, all, s, s.writers[0].phase.loaded.value);
    } else {
      StoreKept(cfg, s, a, t, pid);
    }
  }

  lemma StepDiskOk(cfg: Config, table: seq<Row>, all: seq<Partition>, s: State, a: Action, t: State)
    requires Queued(cfg, table, all, s) && Enabled(cfg, s, a) && t == Apply(cfg, s, a) && Grows(s.disk, t.disk)
    ensures DiskOk(cfg.mapper, table, all, t.disk)
  {
    forall pid | pid in t.disk.store
      ensures CheckpointOk(cfg.mapper, table, all, t.disk, pid, t.disk.store[pid])
    {
      StoredOk(cfg, table, all, s, a, t, pid);
      CheckpointCarries(cfg.mapper, table, all, s.disk, t.disk, pid);
    }
  }

  lemma StoreKept(cfg: Config, s: State, a: Action, t: State, pid: string)
    requires OneEach(s) && Enabled(cfg, s, a) && t == Apply(cfg, s, a) && pid in t.disk.store
    requires !Saves(s, a, pid)
    ensures pid in s.disk.store && t.disk.store[pid] == s.disk.store[pid]
  {
    if !a.WriterStep? {
      StepKeepsDisk(cfg, s, a);
    }
  }

  lemma StepQueued(cfg: Config, table: seq<Row>, all: seq<Partition>, s: State, a: Action, t: State)
    requires Queued(cfg, table, all, s) && Enabled(cfg, s, a) && t == Apply(cfg, s, a)
    ensures Queued(cfg, table, all, t)
  {
    StepCarries(cfg, table, all, s, a, t);
    if a.WriterStep? && a.wact.WriteOk? {
      WriteMarks(cfg, table, all, s, a, t);
    } else if a.WriterStep? {
      StoreMarks(cfg, table, all, s, a.wact, t);
    } else {
      OtherMarks(cfg, table, all, s, a, t);
    }
    StepDiskOk(cfg, table, all, s, a, t);
  }

  // ---------------------------------------------------------------- the start of a run

  predicate DistinctIds(all: seq<Partition>) {
    forall i, j :: 0 <= i < j < |all| ==> all[i].id != all[j].id
  }

  /** How the resume filter treats one partition. */
  predicate ResumedAs(store: map<string, Checkpoint>, p: Partition, q: Partition) {
    if p.id !in store || store[p.id].lastCommitted.None? then q == p
    else q == p.(start := store[p.id].lastCommitted)
  }

  lemma {:induction false} ResumeDistinct(all: seq<Partition>, store: map<string, Checkpoint>)
    requires DistinctIds(all)
    ensures DistinctIds(Resume(all, store))
  {
    if all != [] {
      ResumeDistinct(all[1..], store);
      ResumeIds(all[1..], store);
    }
  }

  lemma {:induction false} ResumeIds(all: seq<Partition>, store: map<string, Checkpoint>)
    ensures forall q :: q in Resume(all, store) ==> HasId(all, q.id)
  {
    if all != [] {
      ResumeIds(all[1..], store);
      assert all[0] in all;
      forall q | q in Resume(all[1..], store) ensures HasId(all, q.id) {
        assert HasId(all[1..], q.id);
      }
    }
  }

  predicate HasId(all: seq<Partition>, id: string) { exists p :: p in all && p.id == id }

  /** The filter drops a partition only when it is done. */
  lemma {:induction false} ResumeComplete(all: seq<Partition>, store: map<string, Checkpoint>, p: Partition)
    requires p in all
    ensures (p.id in store && store[p.id].status.Done?) || exists q :: q in Resume(all, store) && ResumedAs(store, p, q)
  {
    var rest := Resume(all[1..], store);
    if p == all[0] {
      if !(p.id in store && store[p.id].status.Done?) {
        assert ResumedAs(store, p, Resume(all, store)[0]);
      }
    } else {
      ResumeComplete(all[1..], store, p);
      if q :| q in rest && ResumedAs(store, p, q) {
        assert q in Resume(all, store);
      }
    }
  }

  /** A record an earlier attempt did not settle belongs to what the next one reads. */
  lemma {:induction false} SettledOrReread(m: Option<Mapper>, table: seq<Row>, all: seq<Partition>,
                                           store: map<string, Checkpoint>,
                        disk: Disk, p: Partition, r: Record)
    requires DiskOk(m, table, all, disk) && p in all && r in Read(p, table)
    requires store == disk.store || store == map[]
    ensures Settled(disk, Mapped(m, r)) || exists q :: q in Resume(all, store) && r in Read(q, table)
  {
    ResumeComplete(all, store, p);
    if p.id in store {
      assert CheckpointOk(m, table, all, disk, p.id, store[p.id]);
    }
    if q :| q in Resume(all, store) && ResumedAs(store, p, q) && q.Holds(r.offset) {
      assert r in Read(q, table);
    }
  }

  /** Because the restart is inclusive, a record is either below the restart offset, hence
      settled, or read again, records that share the offset included. */
  lemma {:induction false} StartAccounted(cfg: Config, table: seq<Row>, all: seq<Partition>, listed: bool,
                                          disk: Disk, s: State, p: Partition, r: Record)
    requires Init(cfg, table, all, listed, disk, s) && OneEach(s) && DiskOk(cfg.mapper, table, all, disk)
    requires p in all && r in Read(p, table)
    ensures Accounted(cfg.mapper, s, Mapped(cfg.mapper, r))
  {
    var m := cfg.mapper;
    var store := if listed then disk.store else map[];
    SettledOrReread(m, table, all, store, disk, p, r);
    if !Settled(disk, Mapped(m, r)) {
      var q :| q in Resume(all, store) && r in Read(q, table);
      var i :| 0 <= i < |s.lanes| && Resume(all, store)[i] == q;
      assert r in multiset(s.lanes[i].unread) && LaneFlow(s.lanes[i]) == s.lanes[i].unread;
      var k :| 0 <= k < |LaneFlow(s.lanes[i])| && LaneFlow(s.lanes[i])[k] == r;
      assert Images(m, LaneFlow(s.lanes[i]))[k] == Mapped(m, r);
      assert InQueue(m, s, i, Mapped(m, r));
    }
  }

  /** The source delivers each partition in weakly ascending offset order. */
  predicate Sorted(s: State) {
    forall i :: 0 <= i < |s.lanes| ==> Ascending(s.lanes[i].unread)
  }

  lemma StartQueued(cfg: Config, table: seq<Row>, all: seq<Partition>, listed: bool, disk: Disk, s: State)
    requires Init(cfg, table, all, listed, disk, s) && Sorted(s)
    requires cfg.numTransformers == 1 && cfg.numWriters == 1 && cfg.dlq.Reliable?
    requires DistinctIds(all) && DiskOk(cfg.mapper, table, all, disk)
    ensures Queued(cfg, table, all, s)
  {
    var m := cfg.mapper;
    assert Stream(m, s) == [];
    StartLanes(cfg, table, all, listed, disk, s);
    forall i | 0 <= i < |s.lanes| ensures Ascending(Remaining(m, s, i)) {
      assert LaneFlow(s.lanes[i]) == s.lanes[i].unread;
      assert Remaining(m, s, i) == Images(m, s.lanes[i].unread);
    }
    forall p, r | p in all && r in Read(p, table) ensures Accounted(m, s, Mapped(m, r)) {
      StartAccounted(cfg, table, all, listed, disk, s, p, r);
    }
  }

  lemma StartLanes(cfg: Config, table: seq<Row>, all: seq<Partition>, listed: bool, disk: Disk, s: State)
    requires Init(cfg, table, all, listed, disk, s) && DistinctIds(all)
    ensures LanesOk(s)
  {
    var ps := Selected(all, listed, disk);
    ResumeDistinct(all, if listed then disk.store else map[]);
    forall i, r | 0 <= i < |s.lanes| && r in LaneFlow(s.lanes[i]) ensures r.pid == s.lanes[i].pid {
      assert r in multiset(s.lanes[i].unread);
      assert r in Read(ps[i], table);
    }
  }

  // ---------------------------------------------------------------- runs and crashes

  lemma NextQueued(cfg: Config, table: seq<Row>, all: seq<Partition>, s: State, t: State)
    requires Queued(cfg, table, all, s) && Next(cfg, s, t)
    ensures Queued(cfg, table, all, t)
  {
    var a :| Enabled(cfg, s, a) && t == Apply(cfg, s, a);
    StepQueued(cfg, table, all, s, a, t);
  }

  /** The invariant holds at every point of a run with one transformer and one writer. */
  lemma RunQueued(cfg: Config, table: seq<Row>, all: seq<Partition>, listed: bool, disk: Disk, run: seq<State>, n: nat)
    requires n < |run| && Runs(cfg, table, all, listed, disk, run) && Sorted(run[0])
    requires cfg.numTransformers == 1 && cfg.numWriters == 1 && cfg.dlq.Reliable?
    requires DistinctIds(all) && DiskOk(cfg.mapper, table, all, disk)
    ensures Queued(cfg, table, all, run[n])
  {
    StartQueued(cfg, table, all, listed, disk, run[0]);
    var good := s => Queued(cfg, table, all, s);
    forall i | 0 < i <= n && good(run[i - 1]) ensures good(run[i]) {
      assert StepAt(cfg, run, i);
      NextQueued(cfg, table, all, run[i - 1], run[i]);
    }
    Always(run, n, good);
  }

  /** One attempt: a run that may stop anywhere. Each attempt may have its own batch size,
      channel capacities and checkpoint frequency. */
  datatype Attempt = Attempt(cfg: Config, listed: bool, run: seq<State>)

  ghost predicate Crashes(m: Option<Mapper>, table: seq<Row>, all: seq<Partition>, disk: Disk, a: Attempt) {
    && a.cfg.numTransformers == 1 && a.cfg.numWriters == 1 && a.cfg.dlq.Reliable? && a.cfg.mapper == m
    && Runs(a.cfg, table, all, a.listed, disk, a.run) && Sorted(a.run[0])
  }

  /** A history of crashed attempts, each starting from the disk the last one left. */
  ghost predicate History(m: Option<Mapper>, table: seq<Row>, all: seq<Partition>, disk: Disk, attempts: seq<Attempt>)
    decreases |attempts|
  {
    attempts == [] ||
    (Crashes(m, table, all, disk, attempts[0]) && History(m, table, all, End(attempts[0].run).disk, attempts[1..]))
  }

  function DiskAfter(disk: Disk, attempts: seq<Attempt>): Disk
    decreases |attempts|
  {
    if attempts == [] then disk
    else DiskAfter(if attempts[0].run == [] then disk else End(attempts[0].run).disk, attempts[1..])
  }

  lemma AttemptSafe(m: Option<Mapper>, table: seq<Row>, all: seq<Partition>, disk: Disk, a: Attempt)
    requires DistinctIds(all) && DiskOk(m, table, all, disk) && Faithful(m, table, disk.target)
    requires Crashes(m, table, all, disk, a)
    ensures DiskOk(m, table, all, End(a.run).disk) && Faithful(m, table, End(a.run).disk.target)
  {
    RunQueued(a.cfg, table, all, a.listed, disk, a.run, |a.run| - 1);
    RunGood(a.cfg, table, all, a.listed, disk, a.run, |a.run| - 1);
  }

  /** Crash safety: after any sequence of crashed attempts the checkpoints are low-water
      marks, and the target holds only mapped source rows. */
  lemma {:induction false} CrashSafe(m: Option<Mapper>, table: seq<Row>, all: seq<Partition>, disk: Disk,
                                     attempts: seq<Attempt>)
    requires DistinctIds(all) && DiskOk(m, table, all, disk) && Faithful(m, table, disk.target)
    requires History(m, table, all, disk, attempts)
    ensures DiskOk(m, table, all, DiskAfter(disk, attempts))
    ensures Faithful(m, table, DiskAfter(disk, attempts).target)
    decreases |attempts|
  {
    if attempts != [] {
      AttemptSafe(m, table, all, disk, attempts[0]);
      CrashSafe(m, table, all, End(attempts[0].run).disk, attempts[1..]);
    }
  }

  /** Crash, resume, finish: after any sequence of crashed attempts, one run that returns nil
      leaves every record of every partition in the target or the dead-letter queue. The last
      run may have any positive number of transformers and any number of writers. */
  lemma {:induction false} CrashResumeLosesNothing(m: Option<Mapper>, table: seq<Row>, all: seq<Partition>,
                                                   attempts: seq<Attempt>,
                                cfg: Config, listed: bool, run: seq<State>)
    requires DistinctIds(all) && History(m, table, all, EMPTY, attempts)
    requires Completes(cfg, table, all, listed, DiskAfter(EMPTY, attempts), run)
    requires cfg.mapper == m && cfg.numTransformers > 0 && cfg.dlq.Reliable?
    ensures forall p, r :: p in all && r in Read(p, table) ==> Settled(End(run).disk, Mapped(m, r))
  {
    var disk := DiskAfter(EMPTY, attempts);
    CrashSafe(m, table, all, EMPTY, attempts);
    CompleteRunSettles(cfg, table, all, listed, disk, run);
    RunGood(cfg, table, all, listed, disk, run, |run| - 1);
    AllSettledAtLast(m, table, all, listed, disk, End(run).disk);
  }

  lemma {:induction false} AllSettledAtLast(m: Option<Mapper>, table: seq<Row>, all: seq<Partition>, listed: bool,
                                            disk: Disk, last: Disk)
    requires DiskOk(m, table, all, disk) && Grows(disk, last)
    requires forall q, x :: q in Selected(all, listed, disk) && x in Read(q, table) ==> Settled(last, Mapped(m, x))
    ensures forall p, r :: p in all && r in Read(p, table) ==> Settled(last, Mapped(m, r))
  {
    forall p, r | p in all && r in Read(p, table) ensures Settled(last, Mapped(m, r)) {
      SettledAtLast(m, table, all, listed, disk, last, p, r);
    }
  }

  lemma {:induction false} SettledAtLast(m: Option<Mapper>, table: seq<Row>, all: seq<Partition>, listed: bool,
                                         disk: Disk, last: Disk, p: Partition, r: Record)
    requires DiskOk(m, table, all, disk) && p in all && r in Read(p, table)
    requires Grows(disk, last)
    requires forall q, x :: q in Selected(all, listed, disk) && x in Read(q, table) ==> Settled(last, Mapped(m, x))
    ensures Settled(last, Mapped(m, r))
  {
    SettledOrReread(m, table, all, if listed then disk.store else map[], disk, p, r);
  }
}
