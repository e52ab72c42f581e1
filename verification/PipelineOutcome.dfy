/** What a run that returns without an error has done. */
module PipelineOutcome {
  import opened Common
  import opened SchemaMapper
  import opened Pipeline
  import opened PipelineSafety
  import opened PipelineConservation

  function Reads(m: Option<Mapper>, ps: seq<Partition>, table: seq<Row>): (rs: seq<seq<Record>>)
    ensures |rs| == |ps| && forall i :: 0 <= i < |ps| ==> rs[i] == Images(m, Read(ps[i], table))
  {
    seq(|ps|, i requires 0 <= i < |ps| => Images(m, Read(ps[i], table)))
  }

  /** Every record of the selected partitions, as mapped. */
  ghost function Source(m: Option<Mapper>, ps: seq<Partition>, table: seq<Row>): multiset<Record> {
    Bag(Reads(m, ps, table))
  }

  function Selected(all: seq<Partition>, listed: bool, disk: Disk): seq<Partition> {
    Resume(all, if listed then disk.store else map[])
  }

  const EMPTY := Disk(map[], map[], multiset{})

  // ---------------------------------------------------------------- the start

  function Without<T>(s: seq<T>, i: nat): seq<T>
    requires i < |s|
  {
    s[..i] + s[i + 1..]
  }

  lemma RemoveOne<T>(s: seq<T>, i: nat)
    requires i < |s|
    ensures multiset(s) == multiset(Without(s, i)) + multiset{s[i]}
  {
    assert s == s[..i] + [s[i]] + s[i + 1..];
  }

  lemma SameRest<T>(a: multiset<T>, b: multiset<T>, x: T)
    requires a + multiset{x} == b + multiset{x}
    ensures a == b
  {
    forall e ensures a[e] == b[e] {
      assert (a + multiset{x})[e] == (b + multiset{x})[e];
    }
  }

  lemma SameWithout<T>(a: seq<T>, b: seq<T>, i: nat)
    requires a != [] && i < |b| && b[i] == a[0] && multiset(a) == multiset(b)
    ensures multiset(Without(a, 0)) == multiset(Without(b, i))
  {
    RemoveOne(a, 0);
    RemoveOne(b, i);
    SameRest(multiset(Without(a, 0)), multiset(Without(b, i)), a[0]);
  }

  lemma ImagesWithout(m: Option<Mapper>, s: seq<Record>, i: nat)
    requires i < |s|
    ensures multiset(Images(m, s)) == multiset(Images(m, Without(s, i))) + multiset{Mapped(m, s[i])}
  {
    RemoveOne(Images(m, s), i);
    assert Without(Images(m, s), i) == Images(m, Without(s, i));
  }

  lemma {:induction false} ImagesPermute(m: Option<Mapper>, a: seq<Record>, b: seq<Record>)
    requires multiset(a) == multiset(b)
    ensures multiset(Images(m, a)) == multiset(Images(m, b))
  {
    if a == [] {
      assert |b| == |multiset(b)| == 0;
    } else {
      assert a[0] in multiset(b);
      var i :| 0 <= i < |b| && b[i] == a[0];
      SameWithout(a, b, i);
      ImagesPermute(m, Without(a, 0), Without(b, i));
      ImagesWithout(m, a, 0);
      ImagesWithout(m, b, i);
    }
  }

  lemma {:induction false} BagPointwise(a: seq<seq<Record>>, b: seq<seq<Record>>)
    requires |a| == |b| && forall i :: 0 <= i < |a| ==> multiset(a[i]) == multiset(b[i])
    ensures Bag(a) == Bag(b)
  {
    if a != [] {
      assert multiset(a[0]) == multiset(b[0]);
      BagPointwise(a[1..], b[1..]);
    }
  }

  lemma StartTotal(cfg: Config, table: seq<Row>, all: seq<Partition>, listed: bool, disk: Disk, s: State)
    requires Init(cfg, table, all, listed, disk, s)
    ensures Total(cfg.mapper, s) == Source(cfg.mapper, Selected(all, listed, disk), table)
  {
    var m, ps := cfg.mapper, Selected(all, listed, disk);
    forall i | 0 <= i < |ps| ensures multiset(LaneFlows(m, s.lanes)[i]) == multiset(Reads(m, ps, table)[i]) {
      assert LaneFlow(s.lanes[i]) == s.lanes[i].unread;
      ImagesPermute(m, s.lanes[i].unread, Read(ps[i], table));
    }
    BagPointwise(LaneFlows(m, s.lanes), Reads(m, ps, table));
    BagOfEmpties(Batches(s.transformers));
    BagOfEmpties(InHands(s.writers));
  }

  // ---------------------------------------------------------------- conservation over a run

  lemma NextConserves(cfg: Config, s: State, t: State)
    requires Next(cfg, s, t)
    ensures Total(cfg.mapper, t) == Total(cfg.mapper, s)
  {
    var a :| Enabled(cfg, s, a) && t == Apply(cfg, s, a);
    StepConserves(cfg, s, a);
  }

  lemma {:induction false} Constant<T>(run: seq<State>, n: nat, f: State -> T)
    requires n < |run| && forall i :: 0 < i <= n ==> f(run[i - 1]) == f(run[i])
    ensures f(run[n]) == f(run[0])
  {
    if n > 0 {
      Constant(run, n - 1, f);
    }
  }

  lemma RunConserves(cfg: Config, run: seq<State>, n: nat)
    requires n < |run| && Steps(cfg, run)
    ensures Total(cfg.mapper, run[n]) == Total(cfg.mapper, run[0])
  {
    var total := s => Total(cfg.mapper, s);
    forall i | 0 < i <= n ensures total(run[i - 1]) == total(run[i]) {
      assert StepAt(cfg, run, i);
      NextConserves(cfg, run[i - 1], run[i]);
    }
    Constant(run, n, total);
  }

  /** Conservation: at every point of every run, the records without a disposition and the
      records written, dead-lettered or dropped are together exactly the selected source. */
  lemma Conservation(cfg: Config, table: seq<Row>, all: seq<Partition>, listed: bool, disk: Disk,
                     run: seq<State>, n: nat)
    requires n < |run| && Runs(cfg, table, all, listed, disk, run)
    ensures Total(cfg.mapper, run[n]) == Source(cfg.mapper, Selected(all, listed, disk), table)
  {
    StartTotal(cfg, table, all, listed, disk, run[0]);
    RunConserves(cfg, run, n);
  }

  lemma NothingInFlight(cfg: Config, s: State)
    requires Inv(cfg, s) && Final(s) && !s.failed && cfg.numTransformers > 0
    ensures InFlight(cfg.mapper, s) == multiset{}
  {
    var m := cfg.mapper;
    assert s.transformers[0].phase.Stopped?;
    assert TransformerOk(s, s.transformers[0]);
    forall i | 0 <= i < |s.lanes| ensures LaneFlows(m, s.lanes)[i] == [] {
      assert LaneOk(s, s.lanes[i]);
    }
    BagOfEmpties(LaneFlows(m, s.lanes));
    forall j | 0 <= j < |s.transformers| ensures Batches(s.transformers)[j] == [] {
      assert TransformerOk(s, s.transformers[j]);
    }
    BagOfEmpties(Batches(s.transformers));
    BagOfEmpties(InHands(s.writers));
    if |s.writers| > 0 {
      assert WriterOk(s, s.writers[0]) && s.writers[0].phase.Quit?;
    }
    assert s.batchCh == [];
  }

  /** A nil return with at least one transformer has given every selected record exactly one
      disposition; with a dead-letter queue that accepts its writes, none was dropped. */
  lemma OneDispositionEach(cfg: Config, table: seq<Row>, all: seq<Partition>, listed: bool, disk: Disk, run: seq<State>)
    requires Completes(cfg, table, all, listed, disk, run)
    requires cfg.numTransformers > 0
    ensures Disposed(End(run).ledger) == Source(cfg.mapper, Selected(all, listed, disk), table)
  {
    var n := |run| - 1;
    RunInv(cfg, table, all, listed, disk, run, n);
    Conservation(cfg, table, all, listed, disk, run, n);
    NothingInFlight(cfg, run[n]);
  }

  // ---------------------------------------------------------------- no transformers

  ghost predicate Idle(s: State) {
    && s.transformers == [] && s.batchCh == [] && Disposed(s.ledger) == multiset{}
    && forall k :: 0 <= k < |s.writers| ==> s.writers[k].phase.Waiting? || s.writers[k].phase.Quit?
  }

  lemma ReaderIdle(cfg: Config, s: State, a: Action)
    requires Enabled(cfg, s, a) && Idle(s) && OfReader(a)
    ensures Idle(Apply(cfg, s, a))
  {
    match a
    case LaneStep(_, _) =>
    case ReaderSend(_) =>
    case ReaderHandOver(_, _) =>
    case ReaderReturn(_) =>
    case CloseRecordCh =>
  }

  lemma WriterIdle(cfg: Config, s: State, a: Action)
    requires Enabled(cfg, s, a) && Idle(s) && OfWriter(a)
    ensures Idle(Apply(cfg, s, a))
  {
    match a
    case CloseBatchCh =>
    case WriterReceive(_) =>
    case WriterStep(_, _) =>
    case WriterEnd(_) =>
    case WriterCancel(_) =>
    case CancelContext =>
  }

  lemma StepIdle(cfg: Config, s: State, a: Action)
    requires Enabled(cfg, s, a) && Idle(s)
    ensures Idle(Apply(cfg, s, a))
  {
    if OfReader(a) {
      ReaderIdle(cfg, s, a);
    } else {
      WriterIdle(cfg, s, a);
    }
  }

  lemma NextIdle(cfg: Config, s: State, t: State)
    requires Next(cfg, s, t) && Idle(s)
    ensures Idle(t)
  {
    var a :| Enabled(cfg, s, a) && t == Apply(cfg, s, a);
    StepIdle(cfg, s, a);
  }

  lemma IdleRun(cfg: Config, table: seq<Row>, all: seq<Partition>, listed: bool, disk: Disk, run: seq<State>)
    requires Completes(cfg, table, all, listed, disk, run) && cfg.numTransformers == 0
    ensures Disposed(End(run).ledger) == multiset{}
  {
    forall i | 0 < i <= |run| - 1 && Idle(run[i - 1]) ensures Idle(run[i]) {
      assert StepAt(cfg, run, i);
      NextIdle(cfg, run[i - 1], run[i]);
    }
    Always(run, |run| - 1, Idle);
  }

  /** Exactly when a nil return means that every record has its disposition: nothing stops
      a configuration without transformers from returning nil with the table unread. */
  lemma NilReturnMeansDone(cfg: Config, table: seq<Row>, all: seq<Partition>, listed: bool, disk: Disk, run: seq<State>)
    requires Completes(cfg, table, all, listed, disk, run)
    ensures Disposed(End(run).ledger) == Source(cfg.mapper, Selected(all, listed, disk), table)
      <==> cfg.numTransformers > 0 || Source(cfg.mapper, Selected(all, listed, disk), table) == multiset{}
  {
    if cfg.numTransformers > 0 {
      OneDispositionEach(cfg, table, all, listed, disk, run);
    } else {
      IdleRun(cfg, table, all, listed, disk, run);
    }
  }

  const LONE := Config(1, 0, 1, 1, 1, None, Reliable)
  const LONE_TABLE := [Row("1", 1, map[])]
  const LONE_PARTITIONS := [Partition("p0", None, None)]

  /** The states of a run without a transformer, and the actions between them. */
  ghost function LoneStage(n: nat): State {
    var r := Record("1", "p0", 1, map[]);
    State([Lane("p0", if n == 0 then [r] else [], n < 4, false, if n == 1 then [r] else [],
                if n == 2 then [r] else [], if n < 5 then Running else Returned)],
          if n < 3 then [] else [r], true, true, [], [], n < 6, n < 6,
          [Writer(0, if n < 7 then Waiting else Quit)],
          EMPTY, Ledger(multiset{}, multiset{}, multiset{}), false, false)
  }

  ghost function LoneAction(n: nat): Action {
    if n == 0 then LaneStep(0, SourceSend) else if n == 1 then LaneStep(0, Receive)
    else if n == 2 then ReaderSend(0) else if n == 3 then LaneStep(0, SourceClose)
    else if n == 4 then ReaderReturn(0) else if n == 5 then CloseBatchCh else WriterEnd(0)
  }

  lemma LoneReads(n: nat)
    requires n < 3
    ensures Next(LONE, LoneStage(n), LoneStage(n + 1))
  {
    var s, a, t := LoneStage(n), LoneAction(n), LoneStage(n + 1);
    assert Enabled(LONE, s, a);
    var r := Record("1", "p0", 1, map[]);
    assert [r][1..] == [] && [] + [r] == [r];
    if n < 2 {
      assert Apply(LONE, s, a) == SetLane(s, 0, t.lanes[0]);
    } else {
      assert Apply(LONE, s, a) == SetLane(s, 0, t.lanes[0]).(recordCh := [r]);
    }
    assert Apply(LONE, s, a) == t;
  }

  lemma LoneEnds(n: nat)
    requires 3 <= n < 7
    ensures Next(LONE, LoneStage(n), LoneStage(n + 1))
  {
    var s, a, t := LoneStage(n), LoneAction(n), LoneStage(n + 1);
    assert Enabled(LONE, s, a);
    assert Apply(LONE, s, a).lanes[0] == t.lanes[0] && Apply(LONE, s, a).writers[0] == t.writers[0];
    assert Apply(LONE, s, a) == t;
  }

  lemma LoneStart()
    ensures Init(LONE, LONE_TABLE, LONE_PARTITIONS, true, EMPTY, LoneStage(0))
    ensures Source(None, LONE_PARTITIONS, LONE_TABLE) != multiset{}
  {
    var r, p := Record("1", "p0", 1, map[]), LONE_PARTITIONS[0];
    assert LONE_TABLE[1..] == [];
    assert Read(p, LONE_TABLE) == [r];
    FreshSelectsAll(LONE_PARTITIONS);
    InSource(None, LONE_PARTITIONS, LONE_TABLE, p, r);
    assert Mapped(None, r) in Source(None, LONE_PARTITIONS, LONE_TABLE);
  }

  /** One row, one reader, one writer, no transformer: Migrate returns nil, the row is nowhere. */
  lemma NoTransformerLosesARow() returns (run: seq<State>)
    ensures Completes(LONE, LONE_TABLE, LONE_PARTITIONS, true, EMPTY, run)
    ensures Source(None, LONE_PARTITIONS, LONE_TABLE) != multiset{} && Disposed(End(run).ledger) == multiset{}
  {
    run := seq(8, n requires 0 <= n => LoneStage(n));
    var stages := run;
    forall n | 0 < n < |stages| ensures StepAt(LONE, stages, n) {
      if n <= 3 {
        LoneReads(n - 1);
      } else {
        LoneEnds(n - 1);
      }
    }
    LoneStart();
  }

  // ---------------------------------------------------------------- the target

  ghost predicate FromTable(m: Option<Mapper>, table: seq<Row>, id: string, data: Data) {
    exists row :: row in table && row.id == id && MapData(m, row.data) == data
  }

  /** Every target row is the image of a source row, mapped exactly once. */
  ghost predicate Faithful(m: Option<Mapper>, table: seq<Row>, target: map<string, Data>) {
    forall id :: id in target ==> FromTable(m, table, id, target[id])
  }

  /** The ledger agrees with the disk, which has only grown since the run began. */
  ghost predicate Booked(start: Disk, s: State) {
    && (forall r :: r in s.ledger.written ==> r.id in s.disk.target)
    && s.disk.dlq == start.dlq + s.ledger.dead
    && start.target.Keys <= s.disk.target.Keys
  }

  lemma {:induction false} UpsertEntries(target: map<string, Data>, batch: seq<Record>)
    ensures var t := Upsert(target, batch);
      && (forall id :: id in t <==> id in target || exists r :: r in batch && r.id == id)
      && (forall id :: id in t ==>
            (id in target && t[id] == target[id]) || exists r :: r in batch && r.id == id && r.data == t[id])
    decreases |batch|
  {
    if batch != [] {
      var front, last := batch[..|batch| - 1], batch[|batch| - 1];
      assert batch == front + [last];
      UpsertEntries(target, front);
    }
  }

  lemma SourceRecord(m: Option<Mapper>, ps: seq<Partition>, table: seq<Row>, r: Record)
    requires r in Source(m, ps, table)
    ensures FromTable(m, table, r.id, r.data)
  {
    var i := BagMember(Reads(m, ps, table), r);
    var k :| 0 <= k < |Reads(m, ps, table)[i]| && Reads(m, ps, table)[i][k] == r;
    assert Read(ps[i], table)[k] in Read(ps[i], table);
  }

  lemma {:induction false} BagMember<T>(ss: seq<seq<T>>, x: T) returns (i: nat)
    requires x in Bag(ss)
    ensures i < |ss| && x in ss[i]
  {
    if x in ss[0] {
      i := 0;
    } else {
      var n := BagMember(ss[1..], x);
      i := n + 1;
    }
  }

  lemma HeldIsSource(cfg: Config, s: State, k: nat, r: Record)
    requires k < |s.writers| && r in InHand(s.writers[k].phase)
    ensures r in Total(cfg.mapper, s)
  {
    BagContains(InHands(s.writers), k, r);
  }

  /** What one writer step does to the target, when its hand comes from the table. */
  lemma WriterKeepsTarget(cfg: Config, table: seq<Row>, w: Writer, disk: Disk, ledger: Ledger, a: WriterAction)
    requires WriterEnabled(cfg, w.phase, a)
    requires forall r :: r in InHand(w.phase) ==> FromTable(cfg.mapper, table, r.id, r.data)
    requires Faithful(cfg.mapper, table, disk.target)
    ensures var next := WriterApply(cfg, w, disk, ledger, a);
      && Faithful(cfg.mapper, table, next.1.target)
      && disk.target.Keys <= next.1.target.Keys
      && (forall r :: r in next.2.written && r !in ledger.written ==> r.id in next.1.target)
      && next.1.dlq == disk.dlq + (next.2.dead - ledger.dead)
      && ledger.dead <= next.2.dead
  {
    assert (a.RetryOk? || a.RetryFail?) ==> w.phase.rest[0] in InHand(w.phase);
    match a
    case WriteOk => UpsertKeeps(cfg.mapper, table, disk.target, w.phase.batch);
    case WriteFail(applied) => UpsertKeeps(cfg.mapper, table, disk.target, applied);
    case RetryOk => UpsertKeeps(cfg.mapper, table, disk.target, [w.phase.rest[0]]);
    case RetryFail(_) => UpsertKeeps(cfg.mapper, table, disk.target, [w.phase.rest[0]]);
    case _ =>
  }

  lemma {:induction false} UpsertKeeps(m: Option<Mapper>, table: seq<Row>, target: map<string, Data>,
                                       batch: seq<Record>)
    requires Faithful(m, table, target) && forall r :: r in batch ==> FromTable(m, table, r.id, r.data)
    ensures Faithful(m, table, Upsert(target, batch)) && target.Keys <= Upsert(target, batch).Keys
    ensures forall r :: r in batch ==> r.id in Upsert(target, batch)
  {
    UpsertEntries(target, batch);
  }

  ghost predicate Good(cfg: Config, table: seq<Row>, ps: seq<Partition>, start: Disk, s: State) {
    Total(cfg.mapper, s) == Source(cfg.mapper, ps, table) && Balanced(cfg, table, start, s)
  }

  ghost predicate Balanced(cfg: Config, table: seq<Row>, start: Disk, s: State) {
    && Faithful(cfg.mapper, table, s.disk.target)
    && Booked(start, s)
    && (cfg.dlq.Reliable? ==> s.ledger.dropped == multiset{})
  }

  lemma ReaderKeepsDisk(cfg: Config, s: State, a: Action)
    requires Enabled(cfg, s, a) && !a.WriterStep? && OfReader(a)
    ensures Apply(cfg, s, a).disk == s.disk && Apply(cfg, s, a).ledger == s.ledger
  {
    match a
    case LaneStep(_, _) =>
    case ReaderSend(_) =>
    case ReaderHandOver(_, _) =>
    case ReaderReturn(_) =>
    case CloseRecordCh =>
  }

  lemma TransformerKeepsDisk(cfg: Config, s: State, a: Action)
    requires Enabled(cfg, s, a) && !a.WriterStep? && OfTransformer(a)
    ensures Apply(cfg, s, a).disk == s.disk && Apply(cfg, s, a).ledger == s.ledger
  {
    match a
    case TransformerReceive(_) =>
    case TransformerTick(_) =>
    case TransformerSend(_) =>
    case TransformerEnd(_) =>
    case TransformerCancel(_) =>
  }

  lemma WriterKeepsDisk(cfg: Config, s: State, a: Action)
    requires Enabled(cfg, s, a) && !a.WriterStep? && OfWriter(a)
    ensures Apply(cfg, s, a).disk == s.disk && Apply(cfg, s, a).ledger == s.ledger
  {
    match a
    case CloseBatchCh =>
    case WriterReceive(_) =>
    case WriterEnd(_) =>
    case WriterCancel(_) =>
    case CancelContext =>
  }

  lemma StepKeepsDisk(cfg: Config, s: State, a: Action)
    requires Enabled(cfg, s, a) && !a.WriterStep?
    ensures Apply(cfg, s, a).disk == s.disk && Apply(cfg, s, a).ledger == s.ledger
  {
    if OfReader(a) {
      ReaderKeepsDisk(cfg, s, a);
    } else if OfTransformer(a) {
      TransformerKeepsDisk(cfg, s, a);
    } else {
      WriterKeepsDisk(cfg, s, a);
    }
  }

  lemma StepGood(cfg: Config, table: seq<Row>, ps: seq<Partition>, start: Disk, s: State, a: Action)
    requires Enabled(cfg, s, a) && Good(cfg, table, ps, start, s)
    ensures Good(cfg, table, ps, start, Apply(cfg, s, a))
  {
    StepConserves(cfg, s, a);
    if a.WriterStep? {
      forall r | r in InHand(s.writers[a.k].phase) ensures FromTable(cfg.mapper, table, r.id, r.data) {
        HeldIsSource(cfg, s, a.k, r);
        SourceRecord(cfg.mapper, ps, table, r);
      }
      WriterStepBalanced(cfg, table, start, s, a.k, a.wact);
    } else {
      StepKeepsDisk(cfg, s, a);
    }
  }

  lemma WriterStepBalanced(cfg: Config, table: seq<Row>, start: Disk, s: State, k: nat, act: WriterAction)
    requires Enabled(cfg, s, WriterStep(k, act)) && Balanced(cfg, table, start, s)
    requires forall r :: r in InHand(s.writers[k].phase) ==> FromTable(cfg.mapper, table, r.id, r.data)
    ensures Balanced(cfg, table, start, Apply(cfg, s, WriterStep(k, act)))
  {
    var next := WriterApply(cfg, s.writers[k], s.disk, s.ledger, act);
    WriterKeepsTarget(cfg, table, s.writers[k], s.disk, s.ledger, act);
    KeepsBooked(start, s, next.1, next.2);
    if cfg.dlq.Reliable? {
      DropsOnlyFlaky(cfg, s.writers[k], s.disk, s.ledger, act);
    }
  }

  lemma KeepsBooked(start: Disk, s: State, disk: Disk, ledger: Ledger)
    requires Booked(start, s) && s.disk.target.Keys <= disk.target.Keys
    requires forall r :: r in ledger.written && r !in s.ledger.written ==> r.id in disk.target
    requires disk.dlq == s.disk.dlq + (ledger.dead - s.ledger.dead) && s.ledger.dead <= ledger.dead
    ensures Booked(start, s.(disk := disk, ledger := ledger))
  {
    assert s.ledger.dead + (ledger.dead - s.ledger.dead) == ledger.dead;
  }

  lemma DropsOnlyFlaky(cfg: Config, w: Writer, disk: Disk, ledger: Ledger, act: WriterAction)
    requires WriterEnabled(cfg, w.phase, act) && cfg.dlq.Reliable?
    ensures WriterApply(cfg, w, disk, ledger, act).2.dropped == ledger.dropped
  {
  }

  lemma NextGood(cfg: Config, table: seq<Row>, ps: seq<Partition>, start: Disk, s: State, t: State)
    requires Next(cfg, s, t) && Good(cfg, table, ps, start, s)
    ensures Good(cfg, table, ps, start, t)
  {
    var a :| Enabled(cfg, s, a) && t == Apply(cfg, s, a);
    StepGood(cfg, table, ps, start, s, a);
  }

  lemma {:induction false} Always(run: seq<State>, n: nat, good: State -> bool)
    requires n < |run| && good(run[0])
    requires forall i :: 0 < i <= n && good(run[i - 1]) ==> good(run[i])
    ensures good(run[n])
  {
    if n > 0 {
      Always(run, n - 1, good);
    }
  }

  lemma RunGood(cfg: Config, table: seq<Row>, all: seq<Partition>, listed: bool, disk: Disk, run: seq<State>, n: nat)
    requires n < |run| && Runs(cfg, table, all, listed, disk, run)
    requires Faithful(cfg.mapper, table, disk.target)
    ensures Good(cfg, table, Selected(all, listed, disk), disk, run[n])
  {
    StartTotal(cfg, table, all, listed, disk, run[0]);
    var ps := Selected(all, listed, disk);
    var good := s => Good(cfg, table, ps, disk, s);
    forall i | 0 < i <= n && good(run[i - 1]) ensures good(run[i]) {
      assert StepAt(cfg, run, i);
      NextGood(cfg, table, ps, disk, run[i - 1], run[i]);
    }
    assert Booked(disk, run[0]);
    Always(run, n, good);
  }

  /** The target or the dead-letter queue has the record. */
  ghost predicate Settled(disk: Disk, r: Record) {
    r.id in disk.target || r in disk.dlq
  }

  /** It has every record of the partitions. */
  ghost predicate ReadSettled(m: Option<Mapper>, ps: seq<Partition>, table: seq<Row>, disk: Disk) {
    forall p, r :: p in ps && r in Read(p, table) ==> Settled(disk, Mapped(m, r))
  }

  /** A nil return leaves every selected record in the target or the dead-letter queue. */
  lemma {:induction false} CompleteRunSettles(cfg: Config, table: seq<Row>, all: seq<Partition>, listed: bool,
                                              disk: Disk, run: seq<State>)
    requires Completes(cfg, table, all, listed, disk, run)
    requires cfg.numTransformers > 0 && cfg.dlq.Reliable?
    requires Faithful(cfg.mapper, table, disk.target)
    ensures ReadSettled(cfg.mapper, Selected(all, listed, disk), table, End(run).disk)
  {
    OneDispositionEach(cfg, table, all, listed, disk, run);
    EndBalanced(cfg, table, all, listed, disk, run);
    SourceAllSettled(cfg.mapper, Selected(all, listed, disk), table, disk, End(run));
  }

  lemma EndBalanced(cfg: Config, table: seq<Row>, all: seq<Partition>, listed: bool, disk: Disk, run: seq<State>)
    requires Completes(cfg, table, all, listed, disk, run) && Faithful(cfg.mapper, table, disk.target)
    ensures Balanced(cfg, table, disk, End(run))
  {
    RunGood(cfg, table, all, listed, disk, run, |run| - 1);
  }

  lemma SourceAllSettled(m: Option<Mapper>, ps: seq<Partition>, table: seq<Row>, start: Disk, s: State)
    requires Booked(start, s) && s.ledger.dropped == multiset{} && Disposed(s.ledger) == Source(m, ps, table)
    ensures ReadSettled(m, ps, table, s.disk)
  {
    forall p, r | p in ps && r in Read(p, table) ensures Settled(s.disk, Mapped(m, r)) {
      SourceSettled(m, ps, table, start, s, p, r);
    }
  }

  lemma {:induction false} SourceSettled(m: Option<Mapper>, ps: seq<Partition>, table: seq<Row>, start: Disk,
                                         s: State, p: Partition, r: Record)
    requires Booked(start, s) && s.ledger.dropped == multiset{} && Disposed(s.ledger) == Source(m, ps, table)
    requires p in ps && r in Read(p, table)
    ensures Settled(s.disk, Mapped(m, r))
  {
    InSource(m, ps, table, p, r);
    DisposedSettled(start, s, Mapped(m, r));
  }

  lemma DisposedSettled(start: Disk, s: State, r: Record)
    requires Booked(start, s) && s.ledger.dropped == multiset{} && r in Disposed(s.ledger)
    ensures Settled(s.disk, r)
  {
    assert r in s.ledger.written || r in s.ledger.dead;
  }

  lemma {:induction false} InSource(m: Option<Mapper>, ps: seq<Partition>, table: seq<Row>, p: Partition, r: Record)
    requires p in ps && r in Read(p, table)
    ensures Mapped(m, r) in Source(m, ps, table)
  {
    var i :| 0 <= i < |ps| && ps[i] == p;
    var k :| 0 <= k < |Read(p, table)| && Read(p, table)[k] == r;
    assert Reads(m, ps, table)[i][k] == Mapped(m, r);
    BagContains(Reads(m, ps, table), i, Mapped(m, r));
  }

  // ---------------------------------------------------------------- schedule independence

  ghost predicate UniqueIds(table: seq<Row>) {
    forall a, b :: a in table && b in table && a.id == b.id ==> a == b
  }

  /** Each row's key lies in one of the partitions. */
  ghost predicate Covered(all: seq<Partition>, table: seq<Row>) {
    forall row :: row in table ==> exists p :: p in all && p.Holds(row.key)
  }

  ghost function Ids(records: multiset<Record>): set<string> { set r | r in records :: r.id }

  ghost function TableIds(table: seq<Row>): set<string> { set row | row in table :: row.id }

  lemma {:induction false} FreshSelectsAll(all: seq<Partition>)
    ensures Resume(all, map[]) == all
  {
    if all != [] {
      FreshSelectsAll(all[1..]);
      assert all == [all[0]] + all[1..];
    }
  }

  lemma NoneMissing(cfg: Config, table: seq<Row>, all: seq<Partition>, run: seq<State>, row: Row)
    requires Completes(cfg, table, all, true, EMPTY, run)
    requires cfg.numTransformers > 0 && cfg.dlq.Reliable? && Covered(all, table) && row in table
    ensures row.id in End(run).disk.target.Keys + Ids(End(run).disk.dlq)
  {
    FreshSelectsAll(all);
    CompleteRunSettles(cfg, table, all, true, EMPTY, run);
    var p :| p in all && p.Holds(row.key);
    var r := Record(row.id, p.id, row.key, row.data);
    assert r in Read(p, table);
    assert Settled(End(run).disk, Mapped(cfg.mapper, r));
  }

  lemma NoneInvented(cfg: Config, table: seq<Row>, all: seq<Partition>, run: seq<State>)
    requires Completes(cfg, table, all, true, EMPTY, run) && cfg.numTransformers > 0
    ensures Faithful(cfg.mapper, table, End(run).disk.target)
    ensures forall r :: r in End(run).disk.dlq ==> FromTable(cfg.mapper, table, r.id, r.data)
  {
    var s := End(run);
    OneDispositionEach(cfg, table, all, true, EMPTY, run);
    RunGood(cfg, table, all, true, EMPTY, run, |run| - 1);
    forall r | r in s.disk.dlq ensures FromTable(cfg.mapper, table, r.id, r.data) {
      assert r in Disposed(s.ledger);
      SourceRecord(cfg.mapper, Selected(all, true, EMPTY), table, r);
    }
  }

  /** The target after a nil return from empty storage does not depend on the schedule: its
      keys and the dead-lettered ids are together the source ids, and every key it has holds
      the mapped data of its own row, however the failed writes fell. */
  lemma ScheduleIndependent(cfg: Config, table: seq<Row>, all: seq<Partition>, run: seq<State>)
    requires Completes(cfg, table, all, true, EMPTY, run)
    requires cfg.numTransformers > 0 && cfg.dlq.Reliable?
    requires UniqueIds(table) && Covered(all, table)
    ensures End(run).disk.target.Keys + Ids(End(run).disk.dlq) == TableIds(table)
    ensures forall row :: row in table && row.id in End(run).disk.target ==>
              End(run).disk.target[row.id] == MapData(cfg.mapper, row.data)
  {
    forall row | row in table ensures row.id in End(run).disk.target.Keys + Ids(End(run).disk.dlq) {
      NoneMissing(cfg, table, all, run, row);
    }
    NoneInvented(cfg, table, all, run);
    FaithfulValues(cfg.mapper, table, End(run).disk.target);
  }

  lemma FaithfulValues(m: Option<Mapper>, table: seq<Row>, target: map<string, Data>)
    requires UniqueIds(table) && Faithful(m, table, target)
    ensures target.Keys <= TableIds(table)
    ensures forall row :: row in table && row.id in target ==> target[row.id] == MapData(m, row.data)
  {
    forall id | id in target ensures id in TableIds(table) {
      assert FromTable(m, table, id, target[id]);
    }
    forall row | row in table && row.id in target ensures target[row.id] == MapData(m, row.data) {
      assert FromTable(m, table, row.id, target[row.id]);
    }
  }

  /** So two complete runs without dead letters, under any two schedules and any two
      concurrency settings, leave the same target. */
  lemma SameTarget(cfg1: Config, cfg2: Config, table: seq<Row>, all: seq<Partition>, run1: seq<State>, run2: seq<State>)
    requires cfg1.mapper == cfg2.mapper && UniqueIds(table) && Covered(all, table)
    requires cfg1.numTransformers > 0 && cfg1.dlq.Reliable? && cfg2.numTransformers > 0 && cfg2.dlq.Reliable?
    requires Completes(cfg1, table, all, true, EMPTY, run1) && End(run1).disk.dlq == multiset{}
    requires Completes(cfg2, table, all, true, EMPTY, run2) && End(run2).disk.dlq == multiset{}
    ensures End(run1).disk.target == End(run2).disk.target
  {
    ScheduleIndependent(cfg1, table, all, run1);
    ScheduleIndependent(cfg2, table, all, run2);
    var t1, t2 := End(run1).disk.target, End(run2).disk.target;
    assert t1.Keys == TableIds(table) == t2.Keys;
    forall id | id in t1 ensures t1[id] == t2[id] {
      var row :| row in table && row.id == id;
    }
  }
}
