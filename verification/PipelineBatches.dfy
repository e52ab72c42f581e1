/** When a batch is full, when it leaves short, how much each channel holds, and which batches
    are checkpointed: at every point of every run, in terms of the settings alone. */
module PipelineBatches {
  import opened Common
  import opened SchemaMapper
  import opened Pipeline
  import opened PipelineSafety

  /** The size of a full batch; a batch of at least zero records is full with its first one. */
  function Full(cfg: Config): nat { if cfg.batchSize < 1 then 1 else cfg.batchSize }

  predicate Sized(cfg: Config, batch: seq<Record>) { 1 <= |batch| <= Full(cfg) }

  predicate TransformerSized(cfg: Config, t: Transformer) {
    if t.phase.Sending? then Sized(cfg, t.batch) else |t.batch| < Full(cfg)
  }

  predicate TransformersSized(cfg: Config, ts: seq<Transformer>) {
    forall j :: 0 <= j < |ts| ==> TransformerSized(cfg, ts[j])
  }

  predicate WriterSized(cfg: Config, p: WriterPhase) {
    match p
    case Writing(batch) => Sized(cfg, batch)
    case Retrying(rest) => Sized(cfg, rest)
    case Burying(rest) => Sized(cfg, rest)
    case _ => true
  }

  predicate LaneBounded(cfg: Config, l: Lane) {
    |l.part| <= cfg.batchSize && (l.phase.Running? ==> |l.held| <= 1)
  }

  /** Whoever collects has less than a full batch; what is being sent, queued or written has at
      least one record and no more than a full batch. */
  ghost predicate Batched(cfg: Config, s: State) {
    && TransformersSized(cfg, s.transformers)
    && (forall n :: 0 <= n < |s.batchCh| ==> Sized(cfg, s.batchCh[n]))
    && (forall k :: 0 <= k < |s.writers| ==> WriterSized(cfg, s.writers[k].phase))
    && (forall i :: 0 <= i < |s.lanes| ==> LaneBounded(cfg, s.lanes[i]))
  }

  lemma CollectSized(cfg: Config, t: Transformer, r: Record)
    requires TransformerSized(cfg, t) && t.phase.Collecting?
    ensures var now := Collect(cfg, t, r);
      && TransformerSized(cfg, now) && |now.batch| == |t.batch| + 1 && !now.phase.Stopped?
      && (now.phase.Sending? <==> |now.batch| == Full(cfg))
  {
  }

  /** Changing one transformer. */
  lemma OneTransformer(cfg: Config, ts: seq<Transformer>, j: nat, t: Transformer)
    requires j < |ts| && TransformerSized(cfg, t) && TransformersSized(cfg, ts)
    ensures TransformersSized(cfg, ts[j := t])
  {
  }

  lemma HandOverBatched(cfg: Config, s: State, i: nat, j: nat)
    requires Batched(cfg, s) && Enabled(cfg, s, ReaderHandOver(i, j))
    ensures Batched(cfg, Apply(cfg, s, ReaderHandOver(i, j)))
  {
    assert LaneBounded(cfg, s.lanes[i]);
    CollectSized(cfg, s.transformers[j], s.lanes[i].held[0]);
    OneTransformer(cfg, s.transformers, j, Collect(cfg, s.transformers[j], s.lanes[i].held[0]));
  }

  lemma ReceiveBatched(cfg: Config, s: State, j: nat)
    requires Batched(cfg, s) && Enabled(cfg, s, TransformerReceive(j))
    ensures Batched(cfg, Apply(cfg, s, TransformerReceive(j)))
  {
    CollectSized(cfg, s.transformers[j], s.recordCh[0]);
    OneTransformer(cfg, s.transformers, j, Collect(cfg, s.transformers[j], s.recordCh[0]));
  }

  lemma SendBatched(cfg: Config, s: State, j: nat)
    requires Batched(cfg, s) && Enabled(cfg, s, TransformerSend(j))
    ensures Batched(cfg, Apply(cfg, s, TransformerSend(j)))
  {
    assert TransformerSized(cfg, s.transformers[j]);
    OneTransformer(cfg, s.transformers, j, Apply(cfg, s, TransformerSend(j)).transformers[j]);
  }

  lemma ReaderBatched(cfg: Config, s: State, a: Action)
    requires Batched(cfg, s) && Enabled(cfg, s, a) && OfReader(a)
    ensures Batched(cfg, Apply(cfg, s, a))
  {
    match a
    case LaneStep(i, act) => assert LaneBounded(cfg, s.lanes[i]);
    case ReaderSend(i) => assert LaneBounded(cfg, s.lanes[i]);
    case ReaderHandOver(i, j) => HandOverBatched(cfg, s, i, j);
    case ReaderReturn(i) => assert LaneBounded(cfg, s.lanes[i]);
    case CloseRecordCh =>
  }

  lemma TransformerBatched(cfg: Config, s: State, a: Action)
    requires Batched(cfg, s) && Enabled(cfg, s, a) && OfTransformer(a)
    ensures Batched(cfg, Apply(cfg, s, a))
  {
    match a
    case TransformerReceive(j) => ReceiveBatched(cfg, s, j);
    case TransformerTick(j) => RephasedBatched(cfg, s, j, Sending(false));
    case TransformerSend(j) => SendBatched(cfg, s, j);
    case TransformerEnd(j) =>
      RephasedBatched(cfg, s, j, if s.transformers[j].batch == [] then Stopped else Sending(true));
    case TransformerCancel(j) => RephasedBatched(cfg, s, j, Stopped);
  }

  /** A collecting transformer stops, or begins to flush what it has. */
  lemma RephasedBatched(cfg: Config, s: State, j: nat, phase: TransformerPhase)
    requires Batched(cfg, s) && j < |s.transformers| && s.transformers[j].phase.Collecting?
    requires phase.Sending? ==> s.transformers[j].batch != []
    ensures TransformersSized(cfg, s.transformers[j := s.transformers[j].(phase := phase)])
  {
    assert TransformerSized(cfg, s.transformers[j]);
    OneTransformer(cfg, s.transformers, j, s.transformers[j].(phase := phase));
  }

  lemma WriterBatched(cfg: Config, s: State, a: Action)
    requires Batched(cfg, s) && Enabled(cfg, s, a) && OfWriter(a)
    ensures Batched(cfg, Apply(cfg, s, a))
  {
    match a
    case CloseBatchCh =>
    case WriterReceive(_) => assert Sized(cfg, s.batchCh[0]);
    case WriterStep(k, act) => BusyWriterSized(cfg, s, k, act);
    case WriterEnd(_) =>
    case WriterCancel(_) =>
    case CancelContext =>
  }

  lemma NextSized(cfg: Config, w: Writer, disk: Disk, ledger: Ledger, act: WriterAction)
    requires WriterEnabled(cfg, w.phase, act) && WriterSized(cfg, w.phase)
    ensures WriterSized(cfg, WriterApply(cfg, w, disk, ledger, act).0.phase)
  {
    match act
    case WriteOk =>
    case WriteFail(_) =>
    case RetryOk =>
    case RetryFail(_) =>
    case DeadLetter(_) =>
    case LoadCheckpoint(_, _) =>
    case SaveCheckpoint(_) =>
  }

  lemma BusyWriterSized(cfg: Config, s: State, k: nat, act: WriterAction)
    requires Batched(cfg, s) && Enabled(cfg, s, WriterStep(k, act))
    ensures Batched(cfg, Apply(cfg, s, WriterStep(k, act)))
  {
    NextSized(cfg, s.writers[k], s.disk, s.ledger, act);
  }

  lemma NextBatched(cfg: Config, s: State, t: State)
    requires Batched(cfg, s) && Next(cfg, s, t)
    ensures Batched(cfg, t)
  {
    var a :| Enabled(cfg, s, a) && t == Apply(cfg, s, a);
    if OfReader(a) {
      ReaderBatched(cfg, s, a);
    } else if OfTransformer(a) {
      TransformerBatched(cfg, s, a);
    } else {
      WriterBatched(cfg, s, a);
    }
  }

  /** At every point of every run, of a cancelled or failing one too. */
  lemma {:induction false} RunBatched(cfg: Config, table: seq<Row>, all: seq<Partition>, listed: bool, disk: Disk,
                                      run: seq<State>, n: nat)
    requires n < |run| && Runs(cfg, table, all, listed, disk, run)
    ensures Batched(cfg, run[n])
  {
    if n > 0 {
      RunBatched(cfg, table, all, listed, disk, run, n - 1);
      assert StepAt(cfg, run, n);
      NextBatched(cfg, run[n - 1], run[n]);
    }
  }

  /** No channel between the stages ever holds more than it was made for. */
  lemma ChannelsBounded(cfg: Config, table: seq<Row>, all: seq<Partition>, listed: bool, disk: Disk,
                        run: seq<State>, n: nat)
    requires n < |run| && Runs(cfg, table, all, listed, disk, run)
    ensures |run[n].recordCh| <= cfg.numReaders * cfg.batchSize && |run[n].batchCh| <= 2 * cfg.numWriters
  {
    RunInv(cfg, table, all, listed, disk, run, n);
  }

  // ---------------------------------------------------------------- when a batch leaves

  /** A batch begins to leave with the record that fills it, and a short one on a tick or at
      the end of recordCh; never otherwise. */
  predicate Leaves(cfg: Config, s: State, a: Action, j: nat, before: Transformer, now: Transformer) {
    && (now.phase.Sending? <==>
          || |now.batch| == Full(cfg)
          || a == TransformerTick(j)
          || (a == TransformerEnd(j) && before.batch != []))
    && (a == TransformerEnd(j) ==> !s.recordOpen && s.recordCh == [])
    && (|now.batch| == Full(cfg) ==> |before.batch| == Full(cfg) - 1)
  }

  lemma HandOverLeaves(cfg: Config, s: State, i: nat, k: nat, j: nat)
    requires Enabled(cfg, s, ReaderHandOver(i, k))
    requires j < |s.transformers| && TransformerSized(cfg, s.transformers[j])
    requires s.transformers[j].phase.Collecting?
    ensures var now := Apply(cfg, s, ReaderHandOver(i, k)).transformers;
      |now| == |s.transformers| && Leaves(cfg, s, ReaderHandOver(i, k), j, s.transformers[j], now[j])
  {
    CollectSized(cfg, s.transformers[j], s.lanes[i].held[0]);
  }

  lemma ReceiveLeaves(cfg: Config, s: State, k: nat, j: nat)
    requires Enabled(cfg, s, TransformerReceive(k))
    requires j < |s.transformers| && TransformerSized(cfg, s.transformers[j])
    requires s.transformers[j].phase.Collecting?
    ensures var now := Apply(cfg, s, TransformerReceive(k)).transformers;
      |now| == |s.transformers| && Leaves(cfg, s, TransformerReceive(k), j, s.transformers[j], now[j])
  {
    CollectSized(cfg, s.transformers[j], s.recordCh[0]);
  }

  lemma SendLeaves(cfg: Config, s: State, k: nat, j: nat)
    requires Enabled(cfg, s, TransformerSend(k))
    requires j < |s.transformers| && TransformerSized(cfg, s.transformers[j])
    requires s.transformers[j].phase.Collecting?
    ensures var now := Apply(cfg, s, TransformerSend(k)).transformers;
      |now| == |s.transformers| && Leaves(cfg, s, TransformerSend(k), j, s.transformers[j], now[j])
  {
    assert TransformerSized(cfg, s.transformers[j]);
  }

  lemma TransformerLeaves(cfg: Config, s: State, a: Action, j: nat)
    requires Enabled(cfg, s, a) && OfTransformer(a)
    requires j < |s.transformers| && TransformerSized(cfg, s.transformers[j])
    requires s.transformers[j].phase.Collecting?
    ensures var now := Apply(cfg, s, a).transformers;
      |now| == |s.transformers| && Leaves(cfg, s, a, j, s.transformers[j], now[j])
  {
    match a
    case TransformerReceive(k) => ReceiveLeaves(cfg, s, k, j);
    case TransformerTick(k) =>
      assert Apply(cfg, s, a).transformers == s.transformers[k := s.transformers[k].(phase := Sending(false))];
    case TransformerSend(k) => SendLeaves(cfg, s, k, j);
    case TransformerEnd(k) =>
    case TransformerCancel(k) =>
      assert Apply(cfg, s, a).transformers == s.transformers[k := s.transformers[k].(phase := Stopped)];
  }

  /** The other steps touch no transformer. */
  lemma ReaderKeepsTransformers(cfg: Config, s: State, a: Action)
    requires Enabled(cfg, s, a) && OfReader(a) && !a.ReaderHandOver?
    ensures Apply(cfg, s, a).transformers == s.transformers
  {
    match a
    case LaneStep(_, _) =>
    case ReaderSend(_) =>
    case ReaderReturn(_) =>
    case CloseRecordCh =>
  }

  lemma WriterKeepsTransformers(cfg: Config, s: State, a: Action)
    requires Enabled(cfg, s, a) && OfWriter(a)
    ensures Apply(cfg, s, a).transformers == s.transformers
  {
    match a
    case CloseBatchCh =>
    case WriterReceive(_) =>
    case WriterStep(_, _) =>
    case WriterEnd(_) =>
    case WriterCancel(_) =>
    case CancelContext =>
  }

  lemma StepLeaves(cfg: Config, s: State, a: Action, j: nat)
    requires Batched(cfg, s) && Enabled(cfg, s, a) && j < |s.transformers| && s.transformers[j].phase.Collecting?
    ensures var now := Apply(cfg, s, a).transformers;
      |now| == |s.transformers| && Leaves(cfg, s, a, j, s.transformers[j], now[j])
  {
    assert TransformerSized(cfg, s.transformers[j]);
    if a.ReaderHandOver? {
      HandOverLeaves(cfg, s, a.i, a.j, j);
    } else if OfTransformer(a) {
      TransformerLeaves(cfg, s, a, j);
    } else if OfReader(a) {
      ReaderKeepsTransformers(cfg, s, a);
    } else {
      WriterKeepsTransformers(cfg, s, a);
    }
  }

  /** Exactly when a collected batch begins to leave, at every step of every run. */
  lemma BatchLeavesIff(cfg: Config, table: seq<Row>, all: seq<Partition>, listed: bool, disk: Disk, run: seq<State>,
                       n: nat, a: Action, j: nat)
    requires Runs(cfg, table, all, listed, disk, run) && 0 < n < |run|
    requires Enabled(cfg, run[n - 1], a) && run[n] == Apply(cfg, run[n - 1], a)
    requires j < |run[n - 1].transformers| && run[n - 1].transformers[j].phase.Collecting?
    ensures |run[n].transformers| == |run[n - 1].transformers|
    ensures Leaves(cfg, run[n - 1], a, j, run[n - 1].transformers[j], run[n].transformers[j])
  {
    RunBatched(cfg, table, all, listed, disk, run, n - 1);
    StepLeaves(cfg, run[n - 1], a, j);
  }

  // ---------------------------------------------------------------- which batches are checkpointed

  /** The batch was acknowledged as a whole, at the first attempt. */
  predicate CleanWrite(before: WriterPhase, now: WriterPhase) { before.Writing? && (now.Waiting? || now.Marking?) }

  /** By this step, writer k's was. */
  predicate Clean(s: State, t: State, k: nat) {
    k < |s.writers| && k < |t.writers| && CleanWrite(s.writers[k].phase, t.writers[k].phase)
  }

  /** How many of its batches were, up to a point of a run. */
  function CleanBatches(run: seq<State>, k: nat, n: nat): nat
    requires n < |run|
  {
    if n == 0 then 0 else CleanBatches(run, k, n - 1) + if Clean(run[n - 1], run[n], k) then 1 else 0
  }

  /** What a step does to a writer: it begins to store checkpoints exactly with a batch that is
      acknowledged as a whole and whose number is a multiple, and then this batch's. */
  predicate Tallies(before: Writer, now: Writer, every: nat)
    requires every > 0
  {
    var clean := CleanWrite(before.phase, now.phase);
    && now.batches == before.batches + (if clean then 1 else 0)
    && (now.phase.Marking? && !before.phase.Marking? <==> clean && now.batches % every == 0)
    && (now.phase.Marking? && !before.phase.Marking? ==>
          before.phase.Writing? && now.phase == Marking(Marks(before.phase.batch), None))
  }

  lemma WriteOkTallies(cfg: Config, w: Writer, disk: Disk, ledger: Ledger)
    requires WriterEnabled(cfg, w.phase, WriteOk) && w.phase.batch != []
    ensures var now := WriterApply(cfg, w, disk, ledger, WriteOk).0;
      Tallies(w, now, cfg.FlushEvery())
  {
    var first := w.phase.batch[0];
    assert first.pid in Marks(w.phase.batch);
  }

  lemma OtherTallies(cfg: Config, w: Writer, disk: Disk, ledger: Ledger, act: WriterAction)
    requires WriterEnabled(cfg, w.phase, act) && !act.WriteOk? && WriterSized(cfg, w.phase)
    ensures Tallies(w, WriterApply(cfg, w, disk, ledger, act).0, cfg.FlushEvery())
  {
    match act
    case WriteFail(_) =>
    case RetryOk =>
    case RetryFail(_) =>
    case DeadLetter(_) =>
    case LoadCheckpoint(_, _) =>
    case SaveCheckpoint(_) =>
  }

  lemma ActTallies(cfg: Config, w: Writer, disk: Disk, ledger: Ledger, act: WriterAction)
    requires WriterEnabled(cfg, w.phase, act) && WriterSized(cfg, w.phase)
    ensures Tallies(w, WriterApply(cfg, w, disk, ledger, act).0, cfg.FlushEvery())
  {
    if act.WriteOk? {
      WriteOkTallies(cfg, w, disk, ledger);
    } else {
      OtherTallies(cfg, w, disk, ledger, act);
    }
  }

  lemma BusyIs(cfg: Config, s: State, act: WriterAction, k: nat)
    requires Enabled(cfg, s, WriterStep(k, act))
    ensures var t := Apply(cfg, s, WriterStep(k, act));
      |t.writers| == |s.writers| && t.writers[k] == WriterApply(cfg, s.writers[k], s.disk, s.ledger, act).0
  {
  }

  lemma OthersTally(cfg: Config, s: State, i: nat, act: WriterAction, k: nat)
    requires Enabled(cfg, s, WriterStep(i, act)) && k < |s.writers| && i != k
    ensures var t := Apply(cfg, s, WriterStep(i, act)); |t.writers| == |s.writers| && t.writers[k] == s.writers[k]
  {
  }

  lemma WriterTallies(cfg: Config, s: State, a: Action, k: nat)
    requires Batched(cfg, s) && Enabled(cfg, s, a) && OfWriter(a) && k < |s.writers|
    ensures var t := Apply(cfg, s, a);
      |t.writers| == |s.writers| && Tallies(s.writers[k], t.writers[k], cfg.FlushEvery())
  {
    match a
    case CloseBatchCh =>
    case WriterReceive(_) =>
    case WriterStep(i, act) =>
      if i == k {
        assert WriterSized(cfg, s.writers[k].phase);
        ActTallies(cfg, s.writers[k], s.disk, s.ledger, act);
        BusyIs(cfg, s, act, k);
      } else {
        OthersTally(cfg, s, i, act, k);
      }
    case WriterEnd(_) =>
    case WriterCancel(_) =>
    case CancelContext =>
  }

  lemma ReaderKeepsWriters(cfg: Config, s: State, a: Action)
    requires Enabled(cfg, s, a) && OfReader(a)
    ensures Apply(cfg, s, a).writers == s.writers
  {
    match a
    case LaneStep(_, _) =>
    case ReaderSend(_) =>
    case ReaderHandOver(_, _) =>
    case ReaderReturn(_) =>
    case CloseRecordCh =>
  }

  lemma TransformerKeepsWriters(cfg: Config, s: State, a: Action)
    requires Enabled(cfg, s, a) && OfTransformer(a)
    ensures Apply(cfg, s, a).writers == s.writers
  {
    match a
    case TransformerReceive(_) =>
    case TransformerTick(_) =>
    case TransformerSend(_) =>
    case TransformerEnd(_) =>
    case TransformerCancel(_) =>
  }

  lemma NextTallies(cfg: Config, s: State, t: State, k: nat)
    requires Batched(cfg, s) && Next(cfg, s, t) && k < |s.writers|
    ensures |t.writers| == |s.writers| && Tallies(s.writers[k], t.writers[k], cfg.FlushEvery())
  {
    var a :| Enabled(cfg, s, a) && t == Apply(cfg, s, a);
    if OfWriter(a) {
      WriterTallies(cfg, s, a, k);
    } else if OfReader(a) {
      ReaderKeepsWriters(cfg, s, a);
    } else {
      TransformerKeepsWriters(cfg, s, a);
    }
  }

  lemma TalliesAt(cfg: Config, run: seq<State>, n: nat, k: nat)
    requires Steps(cfg, run) && 0 < n < |run| && Batched(cfg, run[n - 1]) && k < |run[n - 1].writers|
    ensures |run[n].writers| == |run[n - 1].writers|
    ensures Tallies(run[n - 1].writers[k], run[n].writers[k], cfg.FlushEvery())
  {
    assert StepAt(cfg, run, n);
    NextTallies(cfg, run[n - 1], run[n], k);
  }

  lemma {:induction false} BatchesCounted(cfg: Config, table: seq<Row>, all: seq<Partition>, listed: bool, disk: Disk,
                                          run: seq<State>, n: nat, k: nat)
    requires Runs(cfg, table, all, listed, disk, run) && n < |run| && k < cfg.numWriters
    ensures k < |run[n].writers| && run[n].writers[k].batches == CleanBatches(run, k, n)
  {
    if n > 0 {
      BatchesCounted(cfg, table, all, listed, disk, run, n - 1, k);
      RunBatched(cfg, table, all, listed, disk, run, n - 1);
      TalliesAt(cfg, run, n, k);
    }
  }

  /** In every run a writer begins to store checkpoints exactly after each N-th batch that was
      written at the first attempt, N being the setting or ten, and those of that batch. */
  lemma CheckpointsEveryNth(cfg: Config, table: seq<Row>, all: seq<Partition>, listed: bool, disk: Disk,
                            run: seq<State>, n: nat, k: nat)
    requires Runs(cfg, table, all, listed, disk, run) && 0 < n < |run| && k < cfg.numWriters
    ensures k < |run[n - 1].writers| && k < |run[n].writers|
    ensures var before, now := run[n - 1].writers[k].phase, run[n].writers[k].phase;
      && (now.Marking? && !before.Marking? <==>
            Clean(run[n - 1], run[n], k)
            && CleanBatches(run, k, n) % (if cfg.flushEveryNBatches <= 0 then 10 else cfg.flushEveryNBatches) == 0)
      && (now.Marking? && !before.Marking? ==> before.Writing? && now == Marking(Marks(before.batch), None))
  {
    BatchesCounted(cfg, table, all, listed, disk, run, n - 1, k);
    BatchesCounted(cfg, table, all, listed, disk, run, n, k);
    RunBatched(cfg, table, all, listed, disk, run, n - 1);
    TalliesAt(cfg, run, n, k);
  }
}
