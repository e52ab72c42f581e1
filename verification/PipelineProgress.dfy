/** Every run is finite, and a state without a next step of its own looks in one of two ways. */
module PipelineProgress {
  import opened Common
  import opened SchemaMapper
  import opened Pipeline
  import opened PipelineSafety

  // ---------------------------------------------------------------- the measure

  function LaneWeight(l: Lane): nat {
    12 * |l.unread| + 11 * |l.part| + 10 * |l.held| + (if l.sourceOpen then 1 else 0)
      + (match l.phase case Running => 2 case Draining => 1 case Returned => 0)
  }

  function TransformerWeight(t: Transformer): nat {
    match t.phase
    case Collecting => 8 * |t.batch| + 1
    case Sending(_) => 7 * |t.batch| + 1
    case Stopped => 7 * |t.batch|
  }

  function WriterWeight(p: WriterPhase): nat {
    match p
    case Waiting => 1
    case Writing(batch) => 5 * |batch| + 1
    case Retrying(rest) => 4 * |rest| + 1
    case Burying(rest) => 4 * |rest|
    case Marking(pending, loaded) => 2 * |pending| + (if loaded.Some? then 2 else 1)
    case Quit => 0
  }

  function LaneWeights(ls: seq<Lane>): (ns: seq<nat>)
    ensures |ns| == |ls| && forall i :: 0 <= i < |ns| ==> ns[i] == LaneWeight(ls[i])
  {
    seq(|ls|, i requires 0 <= i < |ls| => LaneWeight(ls[i]))
  }

  function TransformerWeights(ts: seq<Transformer>): (ns: seq<nat>)
    ensures |ns| == |ts| && forall i :: 0 <= i < |ns| ==> ns[i] == TransformerWeight(ts[i])
  {
    seq(|ts|, i requires 0 <= i < |ts| => TransformerWeight(ts[i]))
  }

  function BatchWeights(bs: seq<seq<Record>>): (ns: seq<nat>)
    ensures |ns| == |bs| && forall i :: 0 <= i < |ns| ==> ns[i] == 6 * |bs[i]|
  {
    seq(|bs|, i requires 0 <= i < |bs| => 6 * |bs[i]|)
  }

  function WriterWeights(ws: seq<Writer>): (ns: seq<nat>)
    ensures |ns| == |ws| && forall i :: 0 <= i < |ns| ==> ns[i] == WriterWeight(ws[i].phase)
  {
    seq(|ws|, i requires 0 <= i < |ws| => WriterWeight(ws[i].phase))
  }

  /** Each record weighs less the further it has come; live goroutines weigh a little. */
  function Measure(s: State): nat {
    Sum(LaneWeights(s.lanes)) + 9 * |s.recordCh| + Sum(TransformerWeights(s.transformers))
      + Sum(BatchWeights(s.batchCh)) + Sum(WriterWeights(s.writers))
      + (if s.recordCloser then 1 else 0) + (if s.batchCloser then 1 else 0) + (if s.cancelled then 0 else 1)
  }

  lemma LaneUpdate(ls: seq<Lane>, i: nat, l: Lane)
    requires i < |ls|
    ensures Sum(LaneWeights(ls[i := l])) + LaneWeight(ls[i]) == Sum(LaneWeights(ls)) + LaneWeight(l)
  {
    assert LaneWeights(ls[i := l]) == LaneWeights(ls)[i := LaneWeight(l)];
    SumUpdate(LaneWeights(ls), i, LaneWeight(l));
  }

  lemma TransformerUpdate(ts: seq<Transformer>, j: nat, t: Transformer)
    requires j < |ts|
    ensures Sum(TransformerWeights(ts[j := t])) + TransformerWeight(ts[j])
        == Sum(TransformerWeights(ts)) + TransformerWeight(t)
  {
    assert TransformerWeights(ts[j := t]) == TransformerWeights(ts)[j := TransformerWeight(t)];
    SumUpdate(TransformerWeights(ts), j, TransformerWeight(t));
  }

  lemma WriterUpdate(ws: seq<Writer>, k: nat, w: Writer)
    requires k < |ws|
    ensures Sum(WriterWeights(ws[k := w])) + WriterWeight(ws[k].phase) == Sum(WriterWeights(ws)) + WriterWeight(w.phase)
  {
    assert WriterWeights(ws[k := w]) == WriterWeights(ws)[k := WriterWeight(w.phase)];
    SumUpdate(WriterWeights(ws), k, WriterWeight(w.phase));
  }

  lemma {:induction false} FewMarks(batch: seq<Record>)
    ensures |Marks(batch)| <= |batch|
    decreases |batch|
  {
    if batch != [] {
      FewMarks(batch[..|batch| - 1]);
      var m, pid := Marks(batch[..|batch| - 1]), batch[|batch| - 1].pid;
      assert Marks(batch).Keys == m.Keys + {pid};
      assert |Marks(batch).Keys| <= |m.Keys| + 1;
    }
  }

  lemma LaneDecreases(cfg: Config, cancelled: bool, l: Lane, act: LaneAction)
    requires LaneEnabled(cfg, cancelled, l, act)
    ensures LaneWeight(LaneApply(cfg, cancelled, l, act)) < LaneWeight(l)
  {
  }

  lemma WriterDecreases(cfg: Config, s: State, w: Writer, act: WriterAction)
    requires WriterEnabled(cfg, w.phase, act) && WriterOk(s, w)
    ensures WriterWeight(WriterApply(cfg, w, s.disk, s.ledger, act).0.phase) < WriterWeight(w.phase)
  {
    match act
    case WriteOk => FewMarks(w.phase.batch);
    case WriteFail(_) =>
    case RetryOk =>
    case RetryFail(_) =>
    case DeadLetter(_) =>
    case LoadCheckpoint(pid, _) =>
      assert (w.phase.pending - {pid}).Keys == w.phase.pending.Keys - {pid};
      assert |(w.phase.pending - {pid}).Keys| == |w.phase.pending.Keys| - 1;
    case SaveCheckpoint(_) =>
  }

  lemma ReaderDecreases(cfg: Config, s: State, a: Action)
    requires Inv(cfg, s) && Enabled(cfg, s, a) && OfReader(a)
    ensures Measure(Apply(cfg, s, a)) < Measure(s)
  {
    var t := Apply(cfg, s, a);
    if !a.CloseRecordCh? {
      LaneUpdate(s.lanes, a.i, t.lanes[a.i]);
    }
    if a.LaneStep? {
      LaneDecreases(cfg, s.cancelled, s.lanes[a.i], a.act);
    } else if a.ReaderHandOver? {
      TransformerUpdate(s.transformers, a.j, t.transformers[a.j]);
    }
  }

  lemma TransformerDecreases(cfg: Config, s: State, a: Action)
    requires Inv(cfg, s) && Enabled(cfg, s, a)
    requires a.TransformerReceive? || a.TransformerTick? || a.TransformerEnd? || a.TransformerCancel?
    ensures Measure(Apply(cfg, s, a)) < Measure(s)
  {
    var t := Apply(cfg, s, a);
    TransformerUpdate(s.transformers, a.j, t.transformers[a.j]);
  }

  lemma SendDecreases(cfg: Config, s: State, j: nat)
    requires Inv(cfg, s) && Enabled(cfg, s, TransformerSend(j))
    ensures Measure(Apply(cfg, s, TransformerSend(j))) < Measure(s)
  {
    var t, batch := Apply(cfg, s, TransformerSend(j)), s.transformers[j].batch;
    assert TransformerOk(s, s.transformers[j]);
    TransformerUpdate(s.transformers, j, t.transformers[j]);
    assert BatchWeights(t.batchCh) == BatchWeights(s.batchCh) + [6 * |batch|];
    SumConcat(BatchWeights(s.batchCh), [6 * |batch|]);
    assert Sum([6 * |batch|]) == 6 * |batch|;
  }

  lemma BusyWriterDecreases(cfg: Config, s: State, k: nat, act: WriterAction)
    requires Inv(cfg, s) && Enabled(cfg, s, WriterStep(k, act))
    ensures Measure(Apply(cfg, s, WriterStep(k, act))) < Measure(s)
  {
    var w := WriterApply(cfg, s.writers[k], s.disk, s.ledger, act).0;
    assert WriterOk(s, s.writers[k]);
    WriterDecreases(cfg, s, s.writers[k], act);
    QuietUpdate(s, Apply(cfg, s, WriterStep(k, act)), k, w);
  }

  lemma ReceiveDecreases(cfg: Config, s: State, k: nat)
    requires Inv(cfg, s) && Enabled(cfg, s, WriterReceive(k))
    ensures Measure(Apply(cfg, s, WriterReceive(k))) < Measure(s)
  {
    var w, t := s.writers[k].(phase := Writing(s.batchCh[0])), Apply(cfg, s, WriterReceive(k));
    assert s.batchCh[0] != [];
    WriterUpdate(s.writers, k, w);
    BatchLeaves(s.batchCh);
    assert Sum(WriterWeights(t.writers)) == Sum(WriterWeights(s.writers)) + 5 * |s.batchCh[0]|;
    assert Sum(BatchWeights(t.batchCh)) + 6 * |s.batchCh[0]| == Sum(BatchWeights(s.batchCh));
  }

  lemma QuitDecreases(cfg: Config, s: State, a: Action)
    requires Inv(cfg, s) && Enabled(cfg, s, a) && (a.WriterEnd? || a.WriterCancel?)
    ensures Measure(Apply(cfg, s, a)) < Measure(s)
  {
    QuietUpdate(s, Apply(cfg, s, a), a.k, s.writers[a.k].(phase := Quit));
  }

  /** A step that changes one writer and nothing else the measure counts. */
  lemma QuietUpdate(s: State, t: State, k: nat, w: Writer)
    requires k < |s.writers| && t.writers == s.writers[k := w]
    requires WriterWeight(w.phase) < WriterWeight(s.writers[k].phase)
    requires t.lanes == s.lanes && t.recordCh == s.recordCh && t.transformers == s.transformers
    requires t.batchCh == s.batchCh
    requires t.recordCloser == s.recordCloser && t.batchCloser == s.batchCloser && t.cancelled == s.cancelled
    ensures Measure(t) < Measure(s)
  {
    WriterUpdate(s.writers, k, w);
  }

  lemma BatchLeaves(bs: seq<seq<Record>>)
    requires bs != []
    ensures Sum(BatchWeights(bs)) == 6 * |bs[0]| + Sum(BatchWeights(bs[1..]))
  {
    assert BatchWeights(bs)[1..] == BatchWeights(bs[1..]);
  }

  /** Every step of every run, cancelled or failing included, uses up some of the measure. */
  lemma StepDecreases(cfg: Config, s: State, a: Action)
    requires Inv(cfg, s) && Enabled(cfg, s, a)
    ensures Measure(Apply(cfg, s, a)) < Measure(s)
  {
    if OfReader(a) {
      ReaderDecreases(cfg, s, a);
    } else if a.WriterStep? {
      BusyWriterDecreases(cfg, s, a.k, a.wact);
    } else if a.WriterReceive? {
      ReceiveDecreases(cfg, s, a.k);
    } else if a.WriterEnd? || a.WriterCancel? {
      QuitDecreases(cfg, s, a);
    } else if a.TransformerSend? {
      SendDecreases(cfg, s, a.j);
    } else if !a.CloseBatchCh? && !a.CancelContext? {
      TransformerDecreases(cfg, s, a);
    }
  }

  lemma NextDecreases(cfg: Config, s: State, t: State)
    requires Inv(cfg, s) && Next(cfg, s, t)
    ensures Inv(cfg, t) && Measure(t) < Measure(s)
  {
    var a :| Enabled(cfg, s, a) && t == Apply(cfg, s, a);
    StepDecreases(cfg, s, a);
    StepInv(cfg, s, a);
  }

  /** Termination: a run has no more steps than its first state has weight. */
  lemma {:induction false} Termination(cfg: Config, run: seq<State>, n: nat)
    requires n < |run| && Steps(cfg, run) && Inv(cfg, run[0])
    ensures Inv(cfg, run[n]) && n + Measure(run[n]) <= Measure(run[0])
  {
    if n > 0 {
      Termination(cfg, run, n - 1);
      assert StepAt(cfg, run, n);
      NextDecreases(cfg, run[n - 1], run[n]);
    }
  }

  // ---------------------------------------------------------------- deadlock

  /** The steps the pipeline takes by itself when no call fails: everything but the
      cancellation of the caller's context, a failing source and a failing write. */
  predicate Ordinary(a: Action) {
    !a.CancelContext? && !(a.LaneStep? && a.act.SourceFail?)
      && !(a.WriterStep? && (a.wact.WriteFail? || a.wact.RetryFail?))
  }

  /** Every goroutine has ended, the two closers included. */
  predicate Finished(s: State) { Final(s) && !s.recordCloser && !s.batchCloser }

  ghost predicate Quiescent(cfg: Config, s: State) {
    forall a :: Ordinary(a) ==> !Enabled(cfg, s, a)
  }

  /** Some goroutine is blocked for ever unless the context is cancelled or a call fails. */
  ghost predicate Hung(cfg: Config, s: State) { Quiescent(cfg, s) && !Finished(s) }

  /** A step for a writer that is not waiting and has not left. */
  ghost function BusyStep(cfg: Config, s: State, w: Writer): (act: WriterAction)
    requires WriterOk(s, w) && !w.phase.Waiting? && !w.phase.Quit?
    ensures WriterEnabled(cfg, w.phase, act) && !act.WriteFail? && !act.RetryFail?
  {
    match w.phase
    case Writing(_) => WriteOk
    case Retrying(_) => RetryOk
    case Burying(_) => DeadLetter(!cfg.dlq.Absent?)
    case Marking(pending, None) => var pid :| pid in pending; LoadCheckpoint(pid, true)
    case Marking(_, Some(_)) => SaveCheckpoint(true)
  }

  /** A writer that has not left has a step once there is a batch or batchCh is closed. */
  lemma WriterMoves(cfg: Config, s: State, k: nat) returns (a: Action)
    requires Inv(cfg, s) && k < |s.writers| && !s.writers[k].phase.Quit? && (s.batchCh != [] || !s.batchOpen)
    ensures Enabled(cfg, s, a) && Ordinary(a)
  {
    assert WriterOk(s, s.writers[k]);
    if !s.writers[k].phase.Waiting? {
      a := WriterStep(k, BusyStep(cfg, s, s.writers[k]));
    } else {
      a := if s.batchCh != [] then WriterReceive(k) else WriterEnd(k);
    }
  }

  /** A lane that has not returned has a step, except that a send needs the context to be
      cancelled, a free place in recordCh or a transformer that waits at an empty one. */
  lemma LaneMoves(cfg: Config, s: State, i: nat, j: nat) returns (a: Action)
    requires i < |s.lanes| && !s.lanes[i].phase.Returned?
    requires AtSend(s.lanes[i]) ==>
      || s.cancelled || |s.recordCh| < cfg.RecordCapacity()
      || (j < |s.transformers| && s.transformers[j].phase.Collecting? && s.recordCh == [])
    ensures Enabled(cfg, s, a) && Ordinary(a)
  {
    var l := s.lanes[i];
    if AtSend(l) {
      a := if s.cancelled then LaneStep(i, Cancel)
           else if |s.recordCh| < cfg.RecordCapacity() then ReaderSend(i)
           else ReaderHandOver(i, j);
    } else if l.part != [] {
      a := LaneStep(i, Receive);
    } else if !l.sourceOpen {
      a := ReaderReturn(i);
    } else {
      a := LaneStep(i, if l.unread == [] then SourceClose else SourceHandOver);
    }
  }

  /** A collecting transformer, or somebody before it, has a step. */
  lemma CollectorMoves(cfg: Config, s: State, j: nat) returns (a: Action)
    requires Inv(cfg, s) && j < |s.transformers| && s.transformers[j].phase.Collecting?
    ensures Enabled(cfg, s, a) && Ordinary(a)
  {
    if s.recordCh != [] {
      a := TransformerReceive(j);
    } else if !s.recordOpen {
      a := TransformerEnd(j);
    } else if AllReturned(s) {
      a := CloseRecordCh;
    } else {
      var i :| 0 <= i < |s.lanes| && !s.lanes[i].phase.Returned?;
      a := LaneMoves(cfg, s, i, j);
    }
  }

  /** When all transformers have stopped, somebody has a step until everything has ended, or
      a reader of an uncancelled run is blocked before a full recordCh. */
  lemma RestMoves(cfg: Config, s: State) returns (a: Action)
    requires Inv(cfg, s) && AllStopped(s) && !Finished(s)
    requires s.cancelled || |s.recordCh| < cfg.RecordCapacity() || cfg.numTransformers > 0
      || forall i :: 0 <= i < |s.lanes| ==> !AtSend(s.lanes[i])
    ensures Enabled(cfg, s, a) && Ordinary(a)
  {
    if s.batchCloser {
      a := CloseBatchCh;
    } else if k :| 0 <= k < |s.writers| && !s.writers[k].phase.Quit? {
      a := WriterMoves(cfg, s, k);
    } else if AllReturned(s) {
      a := CloseRecordCh;
    } else {
      var i :| 0 <= i < |s.lanes| && !s.lanes[i].phase.Returned?;
      if cfg.numTransformers > 0 {
        assert TransformerOk(s, s.transformers[0]);
      }
      a := LaneMoves(cfg, s, i, 0);
    }
  }

  /** With transformers, a hung state has a full batchCh and a transformer at a send to it
      that does not watch the context; with writers too, it is a cancelled one. */
  lemma HungInFlush(cfg: Config, s: State) returns (j: nat)
    requires Inv(cfg, s) && Hung(cfg, s) && cfg.numTransformers > 0
    ensures j < |s.transformers| && s.transformers[j].phase.Sending? && |s.batchCh| >= cfg.BatchCapacity()
    ensures cfg.numWriters > 0 ==> s.cancelled
  {
    if i :| 0 <= i < |s.transformers| && s.transformers[i].phase.Collecting? {
      var a := CollectorMoves(cfg, s, i);
    } else if AllStopped(s) {
      var a := RestMoves(cfg, s);
    }
    j :| 0 <= j < |s.transformers| && s.transformers[j].phase.Sending?;
    assert !Enabled(cfg, s, TransformerSend(j));
    if cfg.numWriters > 0 {
      if !s.writers[0].phase.Quit? {
        var a := WriterMoves(cfg, s, 0);
      }
      assert WriterOk(s, s.writers[0]);
    }
  }

  /** Without transformers it has a full recordCh and a reader blocked before it. */
  lemma HungInSend(cfg: Config, s: State) returns (i: nat)
    requires Inv(cfg, s) && Hung(cfg, s) && cfg.numTransformers == 0
    ensures i < |s.lanes| && AtSend(s.lanes[i]) && |s.recordCh| >= cfg.RecordCapacity() && !s.cancelled
  {
    if s.cancelled || |s.recordCh| < cfg.RecordCapacity() || forall k :: 0 <= k < |s.lanes| ==> !AtSend(s.lanes[k]) {
      var a := RestMoves(cfg, s);
    }
    i :| 0 <= i < |s.lanes| && AtSend(s.lanes[i]);
  }
}
