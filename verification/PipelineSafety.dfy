/** What every state of every run satisfies, for any number of goroutines. */
module PipelineSafety {
  import opened SchemaMapper
  import opened Pipeline

  /** The records of a lane in the order they will leave it. */
  function LaneFlow(l: Lane): seq<Record> { l.held + l.part + l.unread }

  predicate LaneOk(s: State, l: Lane) {
    && (l.phase.Running? ==> |l.held| <= 1)
    && (!l.sourceOpen && !l.sourceFailed ==> l.unread == [])
    && (l.phase.Returned? ==> !l.sourceOpen && l.part == [] && (s.failed || LaneFlow(l) == []))
  }

  predicate TransformerOk(s: State, t: Transformer) {
    match t.phase
    case Collecting => true
    case Sending(last) => t.batch != [] && (last ==> !s.recordOpen && s.recordCh == [])
    case Stopped => s.failed || (t.batch == [] && !s.recordOpen && s.recordCh == [])
  }

  predicate WriterOk(s: State, w: Writer) {
    match w.phase
    case Waiting => true
    case Writing(batch) => batch != []
    case Retrying(rest) => rest != []
    case Burying(rest) => rest != []
    case Marking(pending, loaded) => pending != map[] || loaded.Some?
    case Quit => s.failed || (!s.batchOpen && s.batchCh == [])
  }

  predicate Inv(cfg: Config, s: State) {
    && |s.transformers| == cfg.numTransformers
    && |s.writers| == cfg.numWriters
    && s.recordOpen == s.recordCloser
    && s.batchOpen == s.batchCloser
    && (!s.recordOpen ==> AllReturned(s))
    && (!s.batchOpen ==> AllStopped(s))
    && (forall i :: 0 <= i < |s.lanes| ==> LaneOk(s, s.lanes[i]))
    && (forall j :: 0 <= j < |s.transformers| ==> TransformerOk(s, s.transformers[j]))
    && (forall k :: 0 <= k < |s.writers| ==> WriterOk(s, s.writers[k]))
    && (forall n :: 0 <= n < |s.batchCh| ==> s.batchCh[n] != [])
    && |s.recordCh| <= cfg.RecordCapacity()
    && |s.batchCh| <= cfg.BatchCapacity()
    && (s.failed ==> s.cancelled)
  }

  lemma InitInv(cfg: Config, table: seq<Row>, all: seq<Partition>, listed: bool, disk: Disk, s: State)
    requires Init(cfg, table, all, listed, disk, s)
    ensures Inv(cfg, s)
  {
  }

  predicate OfReader(a: Action) {
    a.LaneStep? || a.ReaderSend? || a.ReaderHandOver? || a.ReaderReturn? || a.CloseRecordCh?
  }

  lemma LaneStepInv(cfg: Config, s: State, i: nat, act: LaneAction)
    requires Inv(cfg, s) && Enabled(cfg, s, LaneStep(i, act))
    ensures Inv(cfg, Apply(cfg, s, LaneStep(i, act)))
  {
    var t := Apply(cfg, s, LaneStep(i, act));
    assert LaneOk(s, s.lanes[i]);
    assert LaneOk(t, t.lanes[i]);
  }

  lemma ReaderReturnInv(cfg: Config, s: State, i: nat)
    requires Inv(cfg, s) && Enabled(cfg, s, ReaderReturn(i))
    ensures Inv(cfg, Apply(cfg, s, ReaderReturn(i)))
  {
    var t := Apply(cfg, s, ReaderReturn(i));
    assert LaneOk(s, s.lanes[i]);
    assert LaneOk(t, t.lanes[i]);
  }

  lemma ReaderStepInv(cfg: Config, s: State, a: Action)
    requires Inv(cfg, s) && Enabled(cfg, s, a) && OfReader(a)
    ensures Inv(cfg, Apply(cfg, s, a))
  {
    match a
    case LaneStep(i, act) => LaneStepInv(cfg, s, i, act);
    case ReaderSend(_) =>
    case ReaderHandOver(_, _) =>
    case ReaderReturn(i) => ReaderReturnInv(cfg, s, i);
    case CloseRecordCh =>
  }

  predicate OfTransformer(a: Action) {
    a.TransformerReceive? || a.TransformerTick? || a.TransformerSend? || a.TransformerEnd? || a.TransformerCancel?
  }

  lemma TransformerStepInv(cfg: Config, s: State, a: Action)
    requires Inv(cfg, s) && Enabled(cfg, s, a) && OfTransformer(a)
    ensures Inv(cfg, Apply(cfg, s, a))
  {
    match a
    case TransformerReceive(_) =>
    case TransformerTick(_) =>
    case TransformerSend(_) =>
    case TransformerEnd(_) =>
    case TransformerCancel(_) =>
  }

  predicate OfWriter(a: Action) {
    a.CloseBatchCh? || a.WriterReceive? || a.WriterStep? || a.WriterEnd? || a.WriterCancel? || a.CancelContext?
  }

  lemma WriterBusyInv(cfg: Config, s: State, k: nat, act: WriterAction)
    requires Inv(cfg, s) && Enabled(cfg, s, WriterStep(k, act))
    ensures Inv(cfg, Apply(cfg, s, WriterStep(k, act)))
  {
    var t := Apply(cfg, s, WriterStep(k, act));
    assert WriterOk(t, t.writers[k]);
  }

  lemma WriterReceiveInv(cfg: Config, s: State, k: nat)
    requires Inv(cfg, s) && Enabled(cfg, s, WriterReceive(k))
    ensures Inv(cfg, Apply(cfg, s, WriterReceive(k)))
  {
    var t := Apply(cfg, s, WriterReceive(k));
    assert WriterOk(t, t.writers[k]);
  }

  lemma WriterStepInv(cfg: Config, s: State, a: Action)
    requires Inv(cfg, s) && Enabled(cfg, s, a) && OfWriter(a)
    ensures Inv(cfg, Apply(cfg, s, a))
  {
    match a
    case CloseBatchCh =>
    case WriterReceive(k) => WriterReceiveInv(cfg, s, k);
    case WriterStep(k, act) => WriterBusyInv(cfg, s, k, act);
    case WriterEnd(_) =>
    case WriterCancel(_) =>
    case CancelContext =>
  }

  lemma StepInv(cfg: Config, s: State, a: Action)
    requires Inv(cfg, s) && Enabled(cfg, s, a)
    ensures Inv(cfg, Apply(cfg, s, a))
  {
    if OfReader(a) {
      ReaderStepInv(cfg, s, a);
    } else if OfTransformer(a) {
      TransformerStepInv(cfg, s, a);
    } else {
      WriterStepInv(cfg, s, a);
    }
  }

  /** In Go, sending on a closed channel and closing one twice are panics. */
  predicate Panics(s: State, a: Action) {
    match a
    case ReaderSend(_) => !s.recordOpen
    case ReaderHandOver(_, _) => !s.recordOpen
    case CloseRecordCh => !s.recordOpen
    case TransformerSend(_) => !s.batchOpen
    case CloseBatchCh => !s.batchOpen
    case _ => false
  }

  lemma {:induction false} RunInv(cfg: Config, table: seq<Row>, all: seq<Partition>, listed: bool, disk: Disk,
                                  run: seq<State>, n: nat)
    requires n < |run| && Runs(cfg, table, all, listed, disk, run)
    ensures Inv(cfg, run[n])
  {
    if n == 0 {
      InitInv(cfg, table, all, listed, disk, run[0]);
    } else {
      RunInv(cfg, table, all, listed, disk, run, n - 1);
      assert StepAt(cfg, run, n);
      NextInv(cfg, run[n - 1], run[n]);
    }
  }

  lemma NextInv(cfg: Config, s: State, t: State)
    requires Inv(cfg, s) && Next(cfg, s, t)
    ensures Inv(cfg, t)
  {
    var a :| Enabled(cfg, s, a) && t == Apply(cfg, s, a);
    StepInv(cfg, s, a);
  }

  /** Channel safety: no reachable state, of a cancelled run or any other, enables a panic. */
  lemma ChannelSafety(cfg: Config, table: seq<Row>, all: seq<Partition>, listed: bool, disk: Disk,
                      run: seq<State>, n: nat, a: Action)
    requires n < |run| && Runs(cfg, table, all, listed, disk, run)
    requires Enabled(cfg, run[n], a)
    ensures !Panics(run[n], a)
  {
    RunInv(cfg, table, all, listed, disk, run, n);
  }
}
