/** Exactly when a run can hang, and exactly when undisturbed runs complete, for every
    configuration: both are decided by the number of records and one channel's capacity. */
module PipelineHang {
  import opened Common
  import opened Pipeline
  import opened PipelineSafety
  import opened PipelineConservation
  import opened PipelineOutcome
  import opened PipelineProgress
  import opened PipelineBuild

  /** The channel whose reader side can be missing: recordCh without transformers, and
      batchCh, whose writers leave on cancellation, with them. */
  function Limit(cfg: Config): nat {
    if cfg.numTransformers == 0 then cfg.numReaders * cfg.batchSize else 2 * cfg.numWriters
  }

  /** The number of records the run has to move. */
  ghost function Load(cfg: Config, table: seq<Row>, all: seq<Partition>, listed: bool, disk: Disk): nat {
    |Source(cfg.mapper, Selected(all, listed, disk), table)|
  }

  // ---------------------------------------------------------------- a hung run has too many records

  lemma {:induction false} BagSize<T>(ss: seq<seq<T>>)
    requires forall i :: 0 <= i < |ss| ==> ss[i] != []
    ensures |Bag(ss)| >= |ss|
  {
    if ss != [] {
      assert ss[0] != [] && |multiset(ss[0])| == |ss[0]|;
      BagSize(ss[1..]);
    }
  }

  lemma {:induction false} BagHas<T>(ss: seq<seq<T>>, i: nat)
    requires i < |ss| && ss[i] != []
    ensures |Bag(ss)| >= 1
  {
    BagContains(ss, i, ss[i][0]);
  }

  lemma BlockedInFlush(cfg: Config, s: State, j: nat)
    requires Inv(cfg, s) && j < |s.transformers| && s.transformers[j].phase.Sending?
    ensures |Total(cfg.mapper, s)| > |s.batchCh|
  {
    assert TransformerOk(s, s.transformers[j]);
    BagHas(Batches(s.transformers), j);
    BagSize(s.batchCh);
  }

  lemma BlockedInSend(cfg: Config, s: State, i: nat)
    requires i < |s.lanes| && AtSend(s.lanes[i])
    ensures |Total(cfg.mapper, s)| > |s.recordCh|
  {
    assert LaneFlow(s.lanes[i]) != [];
    BagHas(LaneFlows(cfg.mapper, s.lanes), i);
    assert |multiset(Images(cfg.mapper, s.recordCh))| == |s.recordCh|;
  }

  lemma HungMeansLoad(cfg: Config, table: seq<Row>, all: seq<Partition>, listed: bool, disk: Disk, run: seq<State>)
    requires Runs(cfg, table, all, listed, disk, run) && Hung(cfg, End(run))
    ensures Load(cfg, table, all, listed, disk) > Limit(cfg)
    ensures cfg.numTransformers > 0 && cfg.numWriters > 0 ==> End(run).cancelled
  {
    RunInv(cfg, table, all, listed, disk, run, |run| - 1);
    Conservation(cfg, table, all, listed, disk, run, |run| - 1);
    if cfg.numTransformers > 0 {
      var j := HungInFlush(cfg, End(run));
      BlockedInFlush(cfg, End(run), j);
    } else {
      var i := HungInSend(cfg, End(run));
      BlockedInSend(cfg, End(run), i);
    }
  }

  // ---------------------------------------------------------------- running until nothing moves

  /** Each step is one the pipeline takes by itself. */
  ghost predicate Undisturbed(cfg: Config, run: seq<State>) {
    forall n :: 0 < n < |run| ==> OrdinaryAt(cfg, run, n)
  }

  ghost predicate OrdinaryAt(cfg: Config, run: seq<State>, n: nat)
    requires 0 < n < |run|
  {
    exists a :: Ordinary(a) && Enabled(cfg, run[n - 1], a) && run[n] == Apply(cfg, run[n - 1], a)
  }

  lemma UndisturbedLonger(cfg: Config, run: seq<State>, a: Action, longer: seq<State>)
    requires run != [] && Undisturbed(cfg, run) && Ordinary(a) && Enabled(cfg, End(run), a)
    requires longer == run + [Apply(cfg, End(run), a)]
    ensures Undisturbed(cfg, longer)
  {
    forall n | 0 < n < |longer| ensures OrdinaryAt(cfg, longer, n) {
      if n < |run| {
        assert OrdinaryAt(cfg, run, n);
      }
    }
  }

  /** A property that ordinary steps keep. */
  ghost predicate Keeps(cfg: Config, good: State -> bool) {
    forall s, a :: Inv(cfg, s) && good(s) && Ordinary(a) && Enabled(cfg, s, a) ==> good(Apply(cfg, s, a))
  }

  /** From any point a run can go on by itself until nothing moves. */
  lemma {:induction false} Exhaust(cfg: Config, start: State, run: seq<State>, good: State -> bool)
    returns (longer: seq<State>)
    requires Leads(cfg, start, run) && Inv(cfg, End(run)) && good(End(run)) && Keeps(cfg, good)
    ensures Leads(cfg, start, longer) && Inv(cfg, End(longer)) && good(End(longer)) && Quiescent(cfg, End(longer))
    ensures Undisturbed(cfg, run) ==> Undisturbed(cfg, longer)
    decreases Measure(End(run))
  {
    if Quiescent(cfg, End(run)) {
      longer := run;
    } else {
      var s := End(run);
      var a :| Ordinary(a) && Enabled(cfg, s, a);
      var next := Extend(cfg, start, run, a);
      if Undisturbed(cfg, run) {
        UndisturbedLonger(cfg, run, a, next);
      }
      StepInv(cfg, s, a);
      StepDecreases(cfg, s, a);
      longer := Exhaust(cfg, start, next, good);
    }
  }

  // ---------------------------------------------------------------- undisturbed runs

  /** Nothing has gone wrong. */
  predicate Sound(s: State) {
    && !s.failed && !s.cancelled
    && (forall i :: 0 <= i < |s.lanes| ==> !s.lanes[i].sourceFailed && !s.lanes[i].phase.Draining?)
  }

  lemma ReaderSound(cfg: Config, s: State, a: Action)
    requires Sound(s) && Ordinary(a) && Enabled(cfg, s, a) && OfReader(a)
    ensures Sound(Apply(cfg, s, a))
  {
    match a
    case LaneStep(_, _) =>
    case ReaderSend(_) =>
    case ReaderHandOver(_, _) =>
    case ReaderReturn(_) =>
    case CloseRecordCh =>
  }

  lemma TransformerSound(cfg: Config, s: State, a: Action)
    requires Sound(s) && Ordinary(a) && Enabled(cfg, s, a) && OfTransformer(a)
    ensures Sound(Apply(cfg, s, a))
  {
    match a
    case TransformerReceive(_) =>
    case TransformerTick(_) =>
    case TransformerSend(_) =>
    case TransformerEnd(_) =>
    case TransformerCancel(_) =>
  }

  lemma WriterSound(cfg: Config, s: State, a: Action)
    requires Sound(s) && Ordinary(a) && Enabled(cfg, s, a) && OfWriter(a)
    ensures Sound(Apply(cfg, s, a))
  {
    match a
    case CloseBatchCh =>
    case WriterReceive(_) =>
    case WriterStep(_, _) =>
    case WriterEnd(_) =>
    case WriterCancel(_) =>
  }

  lemma StepSound(cfg: Config, s: State, a: Action)
    requires Sound(s) && Ordinary(a) && Enabled(cfg, s, a)
    ensures Sound(Apply(cfg, s, a))
  {
    if OfReader(a) {
      ReaderSound(cfg, s, a);
    } else if OfTransformer(a) {
      TransformerSound(cfg, s, a);
    } else {
      WriterSound(cfg, s, a);
    }
  }

  lemma SoundIsKept(cfg: Config)
    ensures Keeps(cfg, Sound)
  {
    forall s, a | Sound(s) && Ordinary(a) && Enabled(cfg, s, a) ensures Sound(Apply(cfg, s, a)) {
      StepSound(cfg, s, a);
    }
  }

  lemma UndisturbedIsSound(cfg: Config, table: seq<Row>, all: seq<Partition>, listed: bool, disk: Disk, run: seq<State>)
    requires Runs(cfg, table, all, listed, disk, run) && Undisturbed(cfg, run)
    ensures Sound(End(run))
  {
    forall i | 0 < i <= |run| - 1 && Sound(run[i - 1]) ensures Sound(run[i]) {
      assert OrdinaryAt(cfg, run, i);
      var a :| Ordinary(a) && Enabled(cfg, run[i - 1], a) && run[i] == Apply(cfg, run[i - 1], a);
      StepSound(cfg, run[i - 1], a);
    }
    Always(run, |run| - 1, Sound);
  }

  // ---------------------------------------------------------------- missing stages

  /** No stage is missing, or the records fit where they would pile up. */
  ghost predicate Flows(cfg: Config, load: nat) {
    (cfg.numTransformers > 0 && cfg.numWriters > 0) || load <= Limit(cfg)
  }

  lemma IdleAlways(cfg: Config, table: seq<Row>, all: seq<Partition>, listed: bool, disk: Disk, run: seq<State>)
    requires Runs(cfg, table, all, listed, disk, run) && cfg.numTransformers == 0
    ensures Idle(End(run))
  {
    forall i | 0 < i <= |run| - 1 && Idle(run[i - 1]) ensures Idle(run[i]) {
      assert StepAt(cfg, run, i);
      NextIdle(cfg, run[i - 1], run[i]);
    }
    Always(run, |run| - 1, Idle);
  }

  lemma OnlyInRecordCh(cfg: Config, s: State)
    requires Inv(cfg, s) && Final(s) && !s.failed && Idle(s)
    ensures |Total(cfg.mapper, s)| == |s.recordCh|
  {
    var m := cfg.mapper;
    forall i | 0 <= i < |s.lanes| ensures LaneFlows(m, s.lanes)[i] == [] {
      assert LaneOk(s, s.lanes[i]);
    }
    BagOfEmpties(LaneFlows(m, s.lanes));
    BagOfEmpties(InHands(s.writers));
    assert |multiset(Images(m, s.recordCh))| == |s.recordCh|;
  }

  /** Without transformers the records of a completed run are all in recordCh. */
  lemma PiledUp(cfg: Config, table: seq<Row>, all: seq<Partition>, listed: bool, disk: Disk, run: seq<State>)
    requires Completes(cfg, table, all, listed, disk, run) && cfg.numTransformers == 0
    ensures Load(cfg, table, all, listed, disk) <= cfg.RecordCapacity()
  {
    RunInv(cfg, table, all, listed, disk, run, |run| - 1);
    Conservation(cfg, table, all, listed, disk, run, |run| - 1);
    IdleAlways(cfg, table, all, listed, disk, run);
    OnlyInRecordCh(cfg, End(run));
  }

  lemma NextUnwritten(cfg: Config, s: State, t: State)
    requires Next(cfg, s, t) && s.writers == []
    ensures t.ledger == s.ledger
  {
    var a :| Enabled(cfg, s, a) && t == Apply(cfg, s, a);
    StepKeepsDisk(cfg, s, a);
  }

  lemma NothingWritten(cfg: Config, table: seq<Row>, all: seq<Partition>, listed: bool, disk: Disk, run: seq<State>)
    requires Runs(cfg, table, all, listed, disk, run) && cfg.numWriters == 0
    ensures Disposed(End(run).ledger) == multiset{}
  {
    var ledger := (s: State) => s.ledger;
    forall i | 0 < i <= |run| - 1 ensures ledger(run[i - 1]) == ledger(run[i]) {
      RunInv(cfg, table, all, listed, disk, run, i - 1);
      assert StepAt(cfg, run, i);
      NextUnwritten(cfg, run[i - 1], run[i]);
    }
    Constant(run, |run| - 1, ledger);
  }

  /** A run can complete only if its records flow. */
  lemma CompletesOnlyIfFlows(cfg: Config, table: seq<Row>, all: seq<Partition>, listed: bool, disk: Disk,
                             run: seq<State>)
    requires Completes(cfg, table, all, listed, disk, run)
    ensures Flows(cfg, Load(cfg, table, all, listed, disk))
  {
    if cfg.numTransformers == 0 {
      PiledUp(cfg, table, all, listed, disk, run);
    } else if cfg.numWriters == 0 {
      OneDispositionEach(cfg, table, all, listed, disk, run);
      NothingWritten(cfg, table, all, listed, disk, run);
    }
  }

  // ---------------------------------------------------------------- undisturbed runs complete

  /** An undisturbed run that nothing moves any more. */
  ghost predicate Exhausted(cfg: Config, table: seq<Row>, all: seq<Partition>, listed: bool, disk: Disk,
                            run: seq<State>) {
    Runs(cfg, table, all, listed, disk, run) && Undisturbed(cfg, run) && Quiescent(cfg, End(run))
  }

  /** There is one, and every undisturbed run can be prolonged to one. */
  lemma CanBeExhausted(cfg: Config, table: seq<Row>, all: seq<Partition>, listed: bool, disk: Disk, run: seq<State>)
    returns (longer: seq<State>)
    requires Runs(cfg, table, all, listed, disk, run) && Undisturbed(cfg, run)
    ensures Exhausted(cfg, table, all, listed, disk, longer) && longer[0] == run[0] && Sound(End(longer))
  {
    RunInv(cfg, table, all, listed, disk, run, |run| - 1);
    UndisturbedIsSound(cfg, table, all, listed, disk, run);
    SoundIsKept(cfg);
    longer := Exhaust(cfg, run[0], run, Sound);
  }

  lemma FreshRun(cfg: Config, table: seq<Row>, all: seq<Partition>, listed: bool, disk: Disk) returns (run: seq<State>)
    ensures Runs(cfg, table, all, listed, disk, run) && Undisturbed(cfg, run)
  {
    FreshIsInit(cfg, table, all, listed, disk);
    run := [FreshState(cfg, table, Selected(all, listed, disk), disk)];
  }

  /** For every configuration: all exhausted undisturbed runs have completed if and only if no
      stage is missing or the records fit into the channel before it. */
  lemma UndisturbedCompletesIff(cfg: Config, table: seq<Row>, all: seq<Partition>, listed: bool, disk: Disk)
    ensures (forall run :: Exhausted(cfg, table, all, listed, disk, run) ==>
        Completes(cfg, table, all, listed, disk, run))
      <==> Flows(cfg, Load(cfg, table, all, listed, disk))
    ensures exists run :: Exhausted(cfg, table, all, listed, disk, run)
  {
    var run := FreshRun(cfg, table, all, listed, disk);
    run := CanBeExhausted(cfg, table, all, listed, disk, run);
    if Flows(cfg, Load(cfg, table, all, listed, disk)) {
      forall run | Exhausted(cfg, table, all, listed, disk, run) ensures Completes(cfg, table, all, listed, disk, run) {
        UndisturbedIsSound(cfg, table, all, listed, disk, run);
        if Hung(cfg, End(run)) {
          HungMeansLoad(cfg, table, all, listed, disk, run);
        }
      }
    } else if Completes(cfg, table, all, listed, disk, run) {
      CompletesOnlyIfFlows(cfg, table, all, listed, disk, run);
    }
  }

  // ---------------------------------------------------------------- hanging

  ghost predicate CanHang(cfg: Config, table: seq<Row>, all: seq<Partition>, listed: bool, disk: Disk) {
    exists run :: Runs(cfg, table, all, listed, disk, run) && Hung(cfg, End(run))
  }

  /** Only transformer 0 is used, one record a batch, and nobody reads batchCh. */
  ghost predicate Filling(cfg: Config, s: State) {
    && Calm(s) && !s.cancelled && Disposed(s.ledger) == multiset{}
    && s.transformers == seq(cfg.numTransformers, _ => Transformer([], Collecting))
    && s.writers == seq(cfg.numWriters, _ => Writer(0, Waiting))
    && (forall n :: 0 <= n < |s.batchCh| ==> |s.batchCh[n]| == 1)
  }

  lemma {:induction false} BagOfSingles<T>(ss: seq<seq<T>>)
    requires forall i :: 0 <= i < |ss| ==> |ss[i]| == 1
    ensures |Bag(ss)| == |ss|
  {
    if ss != [] {
      assert |ss[0]| == 1 && |multiset(ss[0])| == |ss[0]|;
      BagOfSingles(ss[1..]);
    }
  }

  /** While more records are about than batches are in the channel, some are unread. */
  lemma SomeUnread(cfg: Config, s: State) returns (i: nat)
    requires Filling(cfg, s) && |Total(cfg.mapper, s)| > |s.batchCh|
    ensures i < |s.lanes| && s.lanes[i].unread != []
  {
    BagOfSingles(s.batchCh);
    BagOfEmpties(Batches(s.transformers));
    BagOfEmpties(InHands(s.writers));
    if forall k :: 0 <= k < |s.lanes| ==> s.lanes[k].unread == [] {
      forall k | 0 <= k < |s.lanes| ensures LaneFlows(cfg.mapper, s.lanes)[k] == [] {
        assert CalmLane(s.lanes[k]);
      }
      BagOfEmpties(LaneFlows(cfg.mapper, s.lanes));
    }
    i :| 0 <= i < |s.lanes| && s.lanes[i].unread != [];
  }

  lemma TotalIsLoad(cfg: Config, table: seq<Row>, all: seq<Partition>, listed: bool, disk: Disk, start: State,
                    run: seq<State>)
    requires Init(cfg, table, all, listed, disk, start) && Leads(cfg, start, run)
    ensures |Total(cfg.mapper, End(run))| == Load(cfg, table, all, listed, disk)
  {
    Conservation(cfg, table, all, listed, disk, run, |run| - 1);
  }

  /** One more batch in the channel. */
  lemma FillOne(cfg: Config, start: State, run: seq<State>, i: nat) returns (longer: seq<State>)
    requires Leads(cfg, start, run) && Filling(cfg, End(run)) && cfg.numTransformers > 0
    requires i < |End(run).lanes| && End(run).lanes[i].unread != [] && |End(run).batchCh| < cfg.BatchCapacity()
    ensures Leads(cfg, start, longer) && Filling(cfg, End(longer))
    ensures |End(longer).batchCh| == |End(run).batchCh| + 1
  {
    longer := Hand(cfg, start, run, i, 0);
    longer := Extend(cfg, start, longer, TransformerSend(0));
    assert End(longer).transformers == End(run).transformers;
  }

  lemma {:induction false} FillTo(cfg: Config, table: seq<Row>, all: seq<Partition>, listed: bool, disk: Disk,
                                  start: State, k: nat)
    returns (run: seq<State>)
    requires Init(cfg, table, all, listed, disk, start) && Filling(cfg, start) && start.batchCh == []
    requires cfg.numTransformers > 0 && k <= cfg.BatchCapacity() && k < Load(cfg, table, all, listed, disk)
    ensures Leads(cfg, start, run) && Filling(cfg, End(run)) && |End(run).batchCh| == k
  {
    if k == 0 {
      run := Stand(cfg, start);
    } else {
      run := FillTo(cfg, table, all, listed, disk, start, k - 1);
      TotalIsLoad(cfg, table, all, listed, disk, start, run);
      var i := SomeUnread(cfg, End(run));
      run := FillOne(cfg, start, run, i);
    }
  }

  /** Cancelled writers leave one after another. */
  lemma {:induction false} WritersLeave(cfg: Config, start: State, run: seq<State>, k: nat) returns (longer: seq<State>)
    requires Leads(cfg, start, run) && End(run).cancelled && k <= |End(run).writers|
    requires forall w :: 0 <= w < |End(run).writers| ==> End(run).writers[w].phase.Waiting?
    ensures Leads(cfg, start, longer)
    ensures var s, t := End(run), End(longer);
      && t.batchCh == s.batchCh && t.transformers == s.transformers && |t.writers| == |s.writers|
      && forall w :: 0 <= w < |t.writers| ==> if w < k then t.writers[w].phase.Quit? else t.writers[w] == s.writers[w]
    ensures End(longer).cancelled
  {
    if k == 0 {
      longer := run;
    } else {
      longer := WritersLeave(cfg, start, run, k - 1);
      longer := Extend(cfg, start, longer, WriterCancel(k - 1));
    }
  }

  /** A full batchCh without a reader, and a transformer that sends to it. */
  ghost predicate Wedged(cfg: Config, s: State) {
    && |s.batchCh| >= cfg.BatchCapacity() && AllQuit(s)
    && s.transformers != [] && s.transformers[0].phase.Sending?
  }

  lemma ReaderWedged(cfg: Config, s: State, a: Action)
    requires Wedged(cfg, s) && Enabled(cfg, s, a) && OfReader(a)
    ensures Wedged(cfg, Apply(cfg, s, a))
  {
    match a
    case LaneStep(_, _) =>
    case ReaderSend(_) =>
    case ReaderHandOver(_, _) =>
    case ReaderReturn(_) =>
    case CloseRecordCh =>
  }

  lemma TransformerWedged(cfg: Config, s: State, a: Action)
    requires Wedged(cfg, s) && Enabled(cfg, s, a) && OfTransformer(a)
    ensures Wedged(cfg, Apply(cfg, s, a))
  {
    match a
    case TransformerReceive(_) =>
    case TransformerTick(_) =>
    case TransformerEnd(_) =>
    case TransformerCancel(_) =>
  }

  lemma WriterWedged(cfg: Config, s: State, a: Action)
    requires Wedged(cfg, s) && Enabled(cfg, s, a) && OfWriter(a)
    ensures Wedged(cfg, Apply(cfg, s, a))
  {
    match a
    case CloseBatchCh =>
    case CancelContext =>
  }

  lemma StepWedged(cfg: Config, s: State, a: Action)
    requires Wedged(cfg, s) && Enabled(cfg, s, a)
    ensures Wedged(cfg, Apply(cfg, s, a))
  {
    if OfReader(a) {
      ReaderWedged(cfg, s, a);
    } else if OfTransformer(a) {
      TransformerWedged(cfg, s, a);
    } else {
      WriterWedged(cfg, s, a);
    }
  }

  lemma WedgedIsKept(cfg: Config)
    ensures Keeps(cfg, s => Wedged(cfg, s))
  {
    forall s, a | Wedged(cfg, s) && Enabled(cfg, s, a) ensures Wedged(cfg, Apply(cfg, s, a)) {
      StepWedged(cfg, s, a);
    }
  }

  /** More records than batchCh holds, one record a batch, and a cancellation. */
  lemma Wedge(cfg: Config, table: seq<Row>, all: seq<Partition>, listed: bool, disk: Disk) returns (run: seq<State>)
    requires cfg.numTransformers > 0 && Load(cfg, table, all, listed, disk) > cfg.BatchCapacity()
    ensures Runs(cfg, table, all, listed, disk, run) && Wedged(cfg, End(run))
  {
    var start := FreshState(cfg, table, Selected(all, listed, disk), disk);
    FreshIsInit(cfg, table, all, listed, disk);
    run := FillTo(cfg, table, all, listed, disk, start, cfg.BatchCapacity());
    TotalIsLoad(cfg, table, all, listed, disk, start, run);
    var i := SomeUnread(cfg, End(run));
    run := Hand(cfg, start, run, i, 0);
    run := Extend(cfg, start, run, CancelContext);
    run := WritersLeave(cfg, start, run, cfg.numWriters);
  }

  lemma OverloadHangs(cfg: Config, table: seq<Row>, all: seq<Partition>, listed: bool, disk: Disk)
    returns (run: seq<State>)
    requires Load(cfg, table, all, listed, disk) > Limit(cfg)
    ensures Runs(cfg, table, all, listed, disk, run) && Hung(cfg, End(run))
  {
    if cfg.numTransformers > 0 {
      run := Wedge(cfg, table, all, listed, disk);
      RunInv(cfg, table, all, listed, disk, run, |run| - 1);
      WedgedIsKept(cfg);
      run := Exhaust(cfg, run[0], run, s => Wedged(cfg, s));
    } else {
      run := FreshRun(cfg, table, all, listed, disk);
      run := CanBeExhausted(cfg, table, all, listed, disk, run);
      if Finished(End(run)) {
        CompletesOnlyIfFlows(cfg, table, all, listed, disk, run);
      }
    }
  }

  /** For every configuration: some run of Migrate hangs if and only if there are more records
      than fit into recordCh, when there are no transformers, or else into batchCh. With both
      stages present only a cancelled run hangs. */
  lemma HangsIff(cfg: Config, table: seq<Row>, all: seq<Partition>, listed: bool, disk: Disk)
    ensures CanHang(cfg, table, all, listed, disk) <==> Load(cfg, table, all, listed, disk) > Limit(cfg)
  {
    if Load(cfg, table, all, listed, disk) > Limit(cfg) {
      var run := OverloadHangs(cfg, table, all, listed, disk);
    }
    if run :| Runs(cfg, table, all, listed, disk, run) && Hung(cfg, End(run)) {
      HungMeansLoad(cfg, table, all, listed, disk, run);
    }
  }
}
