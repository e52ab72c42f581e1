/** When LastCommitted never moves backwards, with one transformer and one writer: whenever the
    attempt could list the checkpoints, and otherwise exactly when no record lies below one. */
module PipelineMonotone {
  import opened Common
  import opened SchemaMapper
  import opened Pipeline
  import opened PipelineSafety
  import opened PipelineOutcome
  import opened PipelineOrder
  import opened PipelineResume
  import opened PipelineBuild

  /** Every offset stored in d is stored in e, or a later one is. */
  predicate NotBehind(d: Disk, e: Disk) {
    forall pid :: pid in d.store && d.store[pid].lastCommitted.Some? ==>
      pid in e.store && e.store[pid].lastCommitted.Some?
      && d.store[pid].lastCommitted.value <= e.store[pid].lastCommitted.value
  }

  predicate HasLane(s: State, pid: string) {
    exists i :: 0 <= i < |s.lanes| && s.lanes[i].pid == pid
  }

  /** The marks still to be stored for a partition are at or above an offset. */
  predicate MarksFrom(p: WriterPhase, pid: string, o: int) {
    p.Marking? ==>
      && (pid in p.pending ==> o <= p.pending[pid].offset)
      && (p.loaded.Some? && p.loaded.value.pid == pid ==> o <= p.loaded.value.mark.offset)
  }

  /** What is stored bounds what is left and what is about to be stored. */
  ghost predicate Floored(m: Option<Mapper>, s: State)
    requires OneEach(s)
  {
    && (forall r :: r in Stream(m, s) ==> HasLane(s, r.pid))
    && (var p := s.writers[0].phase; p.Marking? && p.loaded.Some? ==> p.loaded.value.pid !in p.pending)
    && (forall pid :: pid in s.disk.store && s.disk.store[pid].lastCommitted.Some? ==>
          var o := s.disk.store[pid].lastCommitted.value;
          MarkOk(m, s, pid, o) && MarksFrom(s.writers[0].phase, pid, o))
  }

  lemma StepHomes(cfg: Config, table: seq<Row>, all: seq<Partition>, s: State, a: Action, t: State)
    requires Queued(cfg, table, all, s) && Floored(cfg.mapper, s) && Enabled(cfg, s, a) && t == Apply(cfg, s, a)
    ensures OneEach(t)
    ensures forall r :: r in Stream(cfg.mapper, t) ==> HasLane(t, r.pid)
  {
    var m := cfg.mapper;
    StepKeepsShape(cfg, s, a, t);
    if a.ReaderSend? || a.ReaderHandOver? {
      SendFrame(cfg, s, a);
      SendStream(cfg, s, a);
      var x := s.lanes[a.i].held[0];
      assert x in LaneFlow(s.lanes[a.i]);
      assert t.lanes[a.i].pid == x.pid;
      HomesKept(s, t, Stream(m, s));
    } else {
      StreamAfter(cfg, s, a);
      HomesKept(s, t, Stream(m, s));
    }
  }

  lemma HomesKept(s: State, t: State, rs: seq<Record>)
    requires |t.lanes| == |s.lanes| && forall i :: 0 <= i < |s.lanes| ==> t.lanes[i].pid == s.lanes[i].pid
    requires forall r :: r in rs ==> HasLane(s, r.pid)
    ensures forall r :: r in rs ==> HasLane(t, r.pid)
  {
    forall r | r in rs ensures HasLane(t, r.pid) {
      var i :| 0 <= i < |s.lanes| && s.lanes[i].pid == r.pid;
      assert t.lanes[i].pid == r.pid;
    }
  }

  /** A mark taken from a batch is not below a bound on what was left before it. */
  lemma {:induction false} FreshMark(m: Option<Mapper>, s: State, batch: seq<Record>, pid: string, o: int)
    requires OneEach(s) && s.writers[0].phase == Writing(batch) && pid in Marks(batch)
    requires forall r :: r in Stream(m, s) ==> HasLane(s, r.pid)
    requires MarkOk(m, s, pid, o)
    ensures o <= Marks(batch)[pid].offset
  {
    MarkIsLast(batch, pid);
    var last := Only(pid, batch)[|Only(pid, batch)| - 1];
    OnlyMember(pid, batch, last);
    assert last in Stream(m, s);
    var i :| 0 <= i < |s.lanes| && s.lanes[i].pid == pid;
    OnlyMember(pid, Stream(m, s), last);
    assert last in Remaining(m, s, i);
  }

  lemma WriterFloors(cfg: Config, table: seq<Row>, all: seq<Partition>, s: State, act: WriterAction, t: State,
                     pid: string)
    requires Queued(cfg, table, all, s) && Floored(cfg.mapper, s)
    requires Enabled(cfg, s, WriterStep(0, act)) && t == Apply(cfg, s, WriterStep(0, act))
    requires OneEach(t) && Carries(cfg.mapper, table, all, s, t)
    requires pid in t.disk.store && t.disk.store[pid].lastCommitted.Some?
    ensures var o := t.disk.store[pid].lastCommitted.value;
      MarkOk(cfg.mapper, t, pid, o) && MarksFrom(t.writers[0].phase, pid, o)
  {
    if act.WriteOk? {
      WriteFloors(cfg, table, all, s, t, pid);
    } else {
      MarkingFloors(cfg, table, all, s, act, t, pid);
    }
  }

  lemma WriteFloors(cfg: Config, table: seq<Row>, all: seq<Partition>, s: State, t: State, pid: string)
    requires Queued(cfg, table, all, s) && Floored(cfg.mapper, s)
    requires Enabled(cfg, s, WriterStep(0, WriteOk)) && t == Apply(cfg, s, WriterStep(0, WriteOk))
    requires OneEach(t) && Carries(cfg.mapper, table, all, s, t)
    requires pid in t.disk.store && t.disk.store[pid].lastCommitted.Some?
    ensures var o := t.disk.store[pid].lastCommitted.value;
      MarkOk(cfg.mapper, t, pid, o) && MarksFrom(t.writers[0].phase, pid, o)
  {
    var batch := s.writers[0].phase.batch;
    if pid in Marks(batch) {
      FreshMark(cfg.mapper, s, batch, pid, s.disk.store[pid].lastCommitted.value);
    }
  }

  lemma MarkingFloors(cfg: Config, table: seq<Row>, all: seq<Partition>, s: State, act: WriterAction, t: State,
                      pid: string)
    requires Queued(cfg, table, all, s) && Floored(cfg.mapper, s) && !act.WriteOk?
    requires Enabled(cfg, s, WriterStep(0, act)) && t == Apply(cfg, s, WriterStep(0, act))
    requires OneEach(t) && Carries(cfg.mapper, table, all, s, t)
    requires pid in t.disk.store && t.disk.store[pid].lastCommitted.Some?
    ensures var o := t.disk.store[pid].lastCommitted.value;
      MarkOk(cfg.mapper, t, pid, o) && MarksFrom(t.writers[0].phase, pid, o)
  {
    if act.SaveCheckpoint? {
      SaveFloors(cfg, s.writers[0], s.disk, s.ledger, act.saved, pid);
      var p := s.writers[0].phase;
      if act.saved && p.loaded.value.pid == pid {
        assert MarkOk(cfg.mapper, s, pid, p.loaded.value.mark.offset);
      }
    } else {
      HoldingFloors(cfg, s.writers[0], s.disk, s.ledger, act, pid);
    }
  }

  /** A save keeps the pending marks and stores the loaded one. */
  lemma SaveFloors(cfg: Config, w: Writer, disk: Disk, ledger: Ledger, saved: bool, pid: string)
    requires WriterEnabled(cfg, w.phase, SaveCheckpoint(saved))
    ensures var l, (w', d, _) := w.phase.loaded.value, WriterApply(cfg, w, disk, ledger, SaveCheckpoint(saved));
      && d.store == (if saved then disk.store[l.pid := Merge(l)] else disk.store)
      && (forall o :: MarksFrom(w.phase, pid, o) ==> MarksFrom(w'.phase, pid, o))
      && (l.pid == pid && pid !in w.phase.pending ==> MarksFrom(w'.phase, pid, l.mark.offset))
  {
  }

  lemma HoldingFloors(cfg: Config, w: Writer, disk: Disk, ledger: Ledger, act: WriterAction, pid: string)
    requires WriterEnabled(cfg, w.phase, act) && !act.WriteOk? && !act.SaveCheckpoint?
    ensures var (w', d, _) := WriterApply(cfg, w, disk, ledger, act);
      d.store == disk.store && forall o :: MarksFrom(w.phase, pid, o) ==> MarksFrom(w'.phase, pid, o)
  {
    match act
    case LoadCheckpoint(_, _) =>
    case WriteFail(_) =>
    case RetryOk =>
    case RetryFail(_) =>
    case DeadLetter(_) =>
  }

  lemma StepFloors(cfg: Config, table: seq<Row>, all: seq<Partition>, s: State, a: Action, t: State)
    requires Queued(cfg, table, all, s) && Floored(cfg.mapper, s) && Enabled(cfg, s, a) && t == Apply(cfg, s, a)
    ensures OneEach(t) && Floored(cfg.mapper, t) && NotBehind(s.disk, t.disk)
  {
    StepHomes(cfg, table, all, s, a, t);
    StepCarries(cfg, table, all, s, a, t);
    if a.WriterStep? {
      forall pid | pid in t.disk.store && t.disk.store[pid].lastCommitted.Some?
        ensures var o := t.disk.store[pid].lastCommitted.value;
          MarkOk(cfg.mapper, t, pid, o) && MarksFrom(t.writers[0].phase, pid, o)
      {
        WriterFloors(cfg, table, all, s, a.wact, t, pid);
      }
      LoadedOnce(cfg, s, a.wact, t);
    } else {
      StepKeepsDisk(cfg, s, a);
      StepKeepsPhase(cfg, s, a);
    }
  }

  lemma LoadedOnce(cfg: Config, s: State, act: WriterAction, t: State)
    requires OneEach(s) && Enabled(cfg, s, WriterStep(0, act)) && t == Apply(cfg, s, WriterStep(0, act))
    requires Floored(cfg.mapper, s)
    ensures OneEach(t) && var p := t.writers[0].phase; p.Marking? && p.loaded.Some? ==> p.loaded.value.pid !in p.pending
    ensures NotBehind(s.disk, t.disk)
  {
  }

  lemma {:induction false} ResumeStarts(all: seq<Partition>, store: map<string, Checkpoint>, q: Partition)
    requires q in Resume(all, store) && q.id in store && store[q.id].lastCommitted.Some?
    ensures q.start == store[q.id].lastCommitted
  {
    if q in Resume(all[1..], store) {
      ResumeStarts(all[1..], store, q);
    }
  }

  /** No record of a partition lies below the offset stored for it. */
  ghost predicate NoneBelow(table: seq<Row>, all: seq<Partition>, disk: Disk) {
    forall p, r :: p in all && r in Read(p, table) && p.id in disk.store && disk.store[p.id].lastCommitted.Some? ==>
      r.offset >= disk.store[p.id].lastCommitted.value
  }

  /** Nothing an attempt selects lies below a stored offset. */
  lemma {:induction false} SelectsFrom(table: seq<Row>, all: seq<Partition>, listed: bool, disk: Disk, q: Partition,
                                       r: Record)
    requires listed || NoneBelow(table, all, disk)
    requires q in Selected(all, listed, disk) && r in Read(q, table)
    requires q.id in disk.store && disk.store[q.id].lastCommitted.Some?
    ensures r.offset >= disk.store[q.id].lastCommitted.value
  {
    if listed {
      ResumeStarts(all, disk.store, q);
    } else {
      FreshSelectsAll(all);
    }
  }

  lemma StartFloored(cfg: Config, table: seq<Row>, all: seq<Partition>, listed: bool, disk: Disk, s: State)
    requires Init(cfg, table, all, listed, disk, s) && cfg.numTransformers == 1 && cfg.numWriters == 1
    requires listed || NoneBelow(table, all, disk)
    ensures OneEach(s) && Floored(cfg.mapper, s)
  {
    var m, ps := cfg.mapper, Selected(all, listed, disk);
    assert Stream(m, s) == [];
    forall pid, i
      | pid in disk.store && disk.store[pid].lastCommitted.Some? && 0 <= i < |s.lanes| && s.lanes[i].pid == pid
      ensures AtLeast(Remaining(m, s, i), disk.store[pid].lastCommitted.value)
    {
      assert LaneFlow(s.lanes[i]) == s.lanes[i].unread;
      forall r | r in s.lanes[i].unread ensures r.offset >= disk.store[pid].lastCommitted.value {
        assert r in multiset(s.lanes[i].unread);
        SelectsFrom(table, all, listed, disk, ps[i], r);
      }
    }
  }

  ghost predicate Forward(cfg: Config, table: seq<Row>, all: seq<Partition>, disk: Disk, s: State) {
    Queued(cfg, table, all, s) && Floored(cfg.mapper, s) && NotBehind(disk, s.disk)
  }

  lemma NextForward(cfg: Config, table: seq<Row>, all: seq<Partition>, disk: Disk, s: State, t: State)
    requires Forward(cfg, table, all, disk, s) && Next(cfg, s, t)
    ensures Forward(cfg, table, all, disk, t) && NotBehind(s.disk, t.disk)
  {
    var a :| Enabled(cfg, s, a) && t == Apply(cfg, s, a);
    StepQueued(cfg, table, all, s, a, t);
    StepFloors(cfg, table, all, s, a, t);
  }

  /** LastCommitted moves forward only, from the start of the run to each of its states and
      from each state to the next. */
  lemma NeverBackwards(m: Option<Mapper>, table: seq<Row>, all: seq<Partition>, disk: Disk, a: Attempt, n: nat)
    requires DistinctIds(all) && DiskOk(m, table, all, disk) && Crashes(m, table, all, disk, a) && n < |a.run|
    requires a.listed || NoneBelow(table, all, disk)
    ensures NotBehind(disk, a.run[n].disk)
    ensures n > 0 ==> NotBehind(a.run[n - 1].disk, a.run[n].disk)
  {
    var cfg, run := a.cfg, a.run;
    StartQueued(cfg, table, all, a.listed, disk, run[0]);
    StartFloored(cfg, table, all, a.listed, disk, run[0]);
    var good := s => Forward(cfg, table, all, disk, s);
    forall i | 0 < i <= n && good(run[i - 1]) ensures good(run[i]) {
      assert StepAt(cfg, run, i);
      NextForward(cfg, table, all, disk, run[i - 1], run[i]);
    }
    Always(run, n, good);
    if n > 0 {
      Always(run, n - 1, good);
      assert StepAt(cfg, run, n);
      NextForward(cfg, table, all, disk, run[n - 1], run[n]);
    }
  }

  /** Each attempt lists the checkpoints, or starts from a disk with no record below one. */
  ghost predicate Heeded(table: seq<Row>, all: seq<Partition>, disk: Disk, attempts: seq<Attempt>)
    decreases |attempts|
  {
    attempts == [] ||
    (attempts[0].run != [] && (attempts[0].listed || NoneBelow(table, all, disk))
     && Heeded(table, all, End(attempts[0].run).disk, attempts[1..]))
  }

  lemma {:induction false} NeverBackwardsAcrossCrashes(m: Option<Mapper>, table: seq<Row>, all: seq<Partition>,
                                                       disk: Disk, attempts: seq<Attempt>)
    requires DistinctIds(all) && DiskOk(m, table, all, disk) && Faithful(m, table, disk.target)
    requires History(m, table, all, disk, attempts) && Heeded(table, all, disk, attempts)
    ensures NotBehind(disk, DiskAfter(disk, attempts))
    decreases |attempts|
  {
    if attempts != [] {
      NeverBackwards(m, table, all, disk, attempts[0], |attempts[0].run| - 1);
      AttemptSafe(m, table, all, disk, attempts[0]);
      NeverBackwardsAcrossCrashes(m, table, all, End(attempts[0].run).disk, attempts[1..]);
    }
  }

  // ---------------------------------------------------------------- going back

  /** No attempt with the given success of ListPartitions ever moves an offset back. */
  ghost predicate AlwaysForward(m: Option<Mapper>, table: seq<Row>, all: seq<Partition>, disk: Disk, listed: bool) {
    forall a: Attempt :: Crashes(m, table, all, disk, a) && a.listed == listed ==> NotBehind(disk, End(a.run).disk)
  }

  lemma {:induction false} FirstIsLeast(rs: seq<Record>, r: Record)
    requires Ascending(rs) && r in rs
    ensures rs[0].offset <= r.offset
  {
    var k :| 0 <= k < |rs| && rs[k] == r;
  }

  /** One batch of one record, checkpointed: its offset replaces whatever was stored. */
  lemma MarkFirst(cfg: Config, start: State, i: nat) returns (run: seq<State>)
    requires Calm(start) && i < |start.lanes| && start.lanes[i].unread != [] && start.batchCh == []
    requires start.transformers == [Transformer([], Collecting)] && start.writers == [Writer(0, Waiting)]
    requires cfg.FlushEvery() == 1 && cfg.numWriters == 1
    ensures Leads(cfg, start, run)
    ensures var r, store := start.lanes[i].unread[0], End(run).disk.store;
      r.pid in store && store[r.pid].lastCommitted == Some(r.offset)
  {
    var r := start.lanes[i].unread[0];
    run := Stand(cfg, start);
    run := Hand(cfg, start, run, i, 0);
    run := Deliver(cfg, start, run, 0, 0);
    run := WriteHeld(cfg, start, run, 0, Mapped(cfg.mapper, r));
    run := MarkHeld(cfg, start, run, 0, r.pid, Mark(r.offset, 1));
  }

  /** The lane of a fresh start that holds a given record begins at or below it. */
  lemma FreshLane(cfg: Config, table: seq<Row>, ps: seq<Partition>, disk: Disk, p: Partition, r: Record)
    returns (i: nat)
    requires p in ps && r in Read(p, table)
    ensures var lanes := FreshState(cfg, table, ps, disk).lanes;
      i < |lanes| && lanes[i].unread != [] && lanes[i].unread[0].pid == p.id && lanes[i].unread[0].offset <= r.offset
  {
    i :| 0 <= i < |ps| && ps[i] == p;
    var unread := Sort(Read(p, table));
    SortSorts(Read(p, table));
    assert r in multiset(unread);
    FirstIsLeast(unread, r);
    assert unread[0] in multiset(unread);
    assert unread[0] in Read(p, table);
  }

  /** An attempt that cannot list the checkpoints starts over, and its first checkpoint moves
      the offset of such a partition back. */
  lemma StartsOver(m: Option<Mapper>, table: seq<Row>, all: seq<Partition>, disk: Disk, p: Partition, r: Record)
    returns (a: Attempt)
    requires p in all && r in Read(p, table) && p.id in disk.store && disk.store[p.id].lastCommitted.Some?
    requires r.offset < disk.store[p.id].lastCommitted.value
    ensures Crashes(m, table, all, disk, a) && !a.listed && !NotBehind(disk, End(a.run).disk)
  {
    var cfg := Config(1, 1, 1, 1, 1, m, Reliable);
    FreshSelectsAll(all);
    FreshIsInit(cfg, table, all, false, disk);
    var start := FreshState(cfg, table, all, disk);
    var i := FreshLane(cfg, table, all, disk, p, r);
    var run := MarkFirst(cfg, start, i);
    a := Attempt(cfg, false, run);
  }

  /** For every table, every set of partitions and every disk whose checkpoints are low-water
      marks: attempts never move an offset back if and only if they list the checkpoints or no
      record lies below one. Migrate ignores an error of ListPartitions. */
  lemma NeverBackwardsIff(m: Option<Mapper>, table: seq<Row>, all: seq<Partition>, disk: Disk, listed: bool)
    requires DistinctIds(all) && DiskOk(m, table, all, disk)
    ensures AlwaysForward(m, table, all, disk, listed) <==> listed || NoneBelow(table, all, disk)
  {
    if listed || NoneBelow(table, all, disk) {
      forall a: Attempt | Crashes(m, table, all, disk, a) && a.listed == listed
        ensures NotBehind(disk, End(a.run).disk)
      {
        NeverBackwards(m, table, all, disk, a, |a.run| - 1);
      }
    } else {
      var p, r :| p in all && r in Read(p, table) && p.id in disk.store && disk.store[p.id].lastCommitted.Some?
        && r.offset < disk.store[p.id].lastCommitted.value;
      var a := StartsOver(m, table, all, disk, p, r);
    }
  }
}
