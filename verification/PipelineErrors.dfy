/** Which errors Migrate returns: those of its sources and a cancellation, and no others. */
module PipelineErrors {
  import opened Pipeline
  import opened PipelineSafety
  import opened PipelineBuild

  // ---------------------------------------------------------------- no error of a source is lost

  /** The error of a source is in the errgroup once its reader has returned. */
  predicate Reported(s: State) {
    forall i :: 0 <= i < |s.lanes| ==> LaneReported(s.failed, s.lanes[i])
  }

  predicate LaneReported(failed: bool, l: Lane) {
    l.phase.Returned? ==> !l.sourceOpen && (l.sourceFailed ==> failed)
  }

  lemma ReaderReports(cfg: Config, s: State, a: Action)
    requires Reported(s) && Enabled(cfg, s, a) && OfReader(a)
    ensures Reported(Apply(cfg, s, a))
  {
    match a
    case LaneStep(i, act) => assert LaneReported(s.failed, s.lanes[i]);
    case ReaderSend(_) =>
    case ReaderHandOver(_, _) =>
    case ReaderReturn(_) =>
    case CloseRecordCh =>
  }

  /** A step that does not touch the lanes, takes no error back, and adds none of its own. */
  predicate LanesKept(s: State, t: State) {
    && t.lanes == s.lanes && (s.failed ==> t.failed) && (s.cancelled ==> t.cancelled)
    && (t.failed && !s.failed ==> s.cancelled) && (t.cancelled && !s.cancelled ==> t == s.(cancelled := true))
  }

  lemma TransformerKeepsLanes(cfg: Config, s: State, a: Action)
    requires Enabled(cfg, s, a) && OfTransformer(a)
    ensures LanesKept(s, Apply(cfg, s, a))
  {
    match a
    case TransformerReceive(_) =>
    case TransformerTick(_) =>
    case TransformerSend(_) =>
    case TransformerEnd(_) =>
    case TransformerCancel(_) =>
  }

  lemma WriterKeepsLanes(cfg: Config, s: State, a: Action)
    requires Enabled(cfg, s, a) && OfWriter(a)
    ensures LanesKept(s, Apply(cfg, s, a))
  {
    match a
    case CloseBatchCh =>
    case WriterReceive(_) =>
    case WriterStep(_, _) =>
    case WriterEnd(_) =>
    case WriterCancel(_) =>
    case CancelContext =>
  }

  lemma OthersKeepLanes(cfg: Config, s: State, a: Action)
    requires Enabled(cfg, s, a) && !OfReader(a)
    ensures LanesKept(s, Apply(cfg, s, a))
  {
    if OfTransformer(a) {
      TransformerKeepsLanes(cfg, s, a);
    } else {
      WriterKeepsLanes(cfg, s, a);
    }
  }

  lemma NextReported(cfg: Config, s: State, t: State)
    requires Reported(s) && Next(cfg, s, t)
    ensures Reported(t)
  {
    var a :| Enabled(cfg, s, a) && t == Apply(cfg, s, a);
    if OfReader(a) {
      ReaderReports(cfg, s, a);
    } else {
      OthersKeepLanes(cfg, s, a);
      forall i | 0 <= i < |t.lanes| ensures LaneReported(t.failed, t.lanes[i]) {
        assert LaneReported(s.failed, s.lanes[i]);
      }
    }
  }

  lemma {:induction false} RunReported(cfg: Config, table: seq<Row>, all: seq<Partition>, listed: bool, disk: Disk,
                                       run: seq<State>, n: nat)
    requires n < |run| && Runs(cfg, table, all, listed, disk, run)
    ensures Reported(run[n])
  {
    if n > 0 {
      RunReported(cfg, table, all, listed, disk, run, n - 1);
      assert StepAt(cfg, run, n);
      NextReported(cfg, run[n - 1], run[n]);
    }
  }

  /** A nil return means that no source has reported an error, not even after its last record. */
  lemma NilMeansNoSourceFailed(cfg: Config, table: seq<Row>, all: seq<Partition>, listed: bool, disk: Disk,
                               run: seq<State>)
    requires Completes(cfg, table, all, listed, disk, run)
    ensures forall i :: 0 <= i < |End(run).lanes| ==> !End(run).lanes[i].sourceFailed
  {
    RunReported(cfg, table, all, listed, disk, run, |run| - 1);
    forall i | 0 <= i < |End(run).lanes| ensures !End(run).lanes[i].sourceFailed {
      assert LaneReported(End(run).failed, End(run).lanes[i]);
    }
  }

  // ---------------------------------------------------------------- no error from anywhere else

  predicate SomeSourceFailed(s: State) {
    exists i :: 0 <= i < |s.lanes| && s.lanes[i].sourceFailed
  }

  /** By this step of the run the caller cancels the context, and nothing else happens. */
  predicate CallerCancels(run: seq<State>, n: nat) {
    0 < n < |run| && !run[n - 1].cancelled && run[n] == run[n - 1].(cancelled := true)
  }

  /** Trouble has a cause. */
  predicate Caused(s: State) {
    (s.failed || s.cancelled || exists i :: 0 <= i < |s.lanes| && s.lanes[i].phase.Draining?) ==> SomeSourceFailed(s)
  }

  lemma ReaderCaused(cfg: Config, s: State, a: Action)
    requires Caused(s) && Enabled(cfg, s, a) && OfReader(a)
    ensures Caused(Apply(cfg, s, a))
  {
    var t := Apply(cfg, s, a);
    FailedSourcesStay(cfg, s, a);
    if a.LaneStep? && a.act.SourceFail? {
      assert t.lanes[a.i].sourceFailed;
    } else if a.ReaderReturn? && s.lanes[a.i].sourceFailed {
      assert t.lanes[a.i].sourceFailed;
    } else if !SomeSourceFailed(s) {
      QuietReader(cfg, s, a);
    }
  }

  lemma FailedSourcesStay(cfg: Config, s: State, a: Action)
    requires Enabled(cfg, s, a) && OfReader(a)
    ensures |Apply(cfg, s, a).lanes| == |s.lanes|
    ensures forall i :: 0 <= i < |s.lanes| && s.lanes[i].sourceFailed ==> Apply(cfg, s, a).lanes[i].sourceFailed
    ensures SomeSourceFailed(s) ==> SomeSourceFailed(Apply(cfg, s, a))
  {
    match a
    case LaneStep(_, _) =>
    case ReaderSend(_) =>
    case ReaderHandOver(_, _) =>
    case ReaderReturn(_) =>
    case CloseRecordCh =>
  }

  lemma QuietReader(cfg: Config, s: State, a: Action)
    requires Enabled(cfg, s, a) && OfReader(a) && !(a.LaneStep? && a.act.SourceFail?)
    requires !s.failed && !s.cancelled && !SomeSourceFailed(s)
    requires forall i :: 0 <= i < |s.lanes| ==> !s.lanes[i].phase.Draining?
    ensures var t := Apply(cfg, s, a);
      !t.failed && !t.cancelled && forall i :: 0 <= i < |t.lanes| ==> !t.lanes[i].phase.Draining?
  {
    match a
    case LaneStep(_, _) =>
    case ReaderSend(_) =>
    case ReaderHandOver(_, _) =>
    case ReaderReturn(_) =>
    case CloseRecordCh =>
  }

  lemma NextCaused(cfg: Config, s: State, t: State)
    requires Caused(s) && Next(cfg, s, t) && (s.cancelled || t != s.(cancelled := true))
    ensures Caused(t)
  {
    var a :| Enabled(cfg, s, a) && t == Apply(cfg, s, a);
    if OfReader(a) {
      ReaderCaused(cfg, s, a);
    } else {
      OthersKeepLanes(cfg, s, a);
    }
  }

  /** A run fails only when a source has failed or the caller has cancelled it: no failing write,
      dead letter or checkpoint does that. */
  lemma {:induction false} FailureHasCause(cfg: Config, table: seq<Row>, all: seq<Partition>, listed: bool, disk: Disk,
                                           run: seq<State>, n: nat)
    requires n < |run| && Runs(cfg, table, all, listed, disk, run)
    requires forall k :: 0 < k <= n ==> !CallerCancels(run, k)
    ensures Caused(run[n])
    ensures run[n].failed ==> SomeSourceFailed(run[n])
  {
    if n > 0 {
      FailureHasCause(cfg, table, all, listed, disk, run, n - 1);
      assert StepAt(cfg, run, n) && !CallerCancels(run, n);
      NextCaused(cfg, run[n - 1], run[n]);
    }
  }

  /** And a source can fail at any point of a run before it has closed its channel. */
  lemma SourceMayFail(cfg: Config, table: seq<Row>, all: seq<Partition>, listed: bool, disk: Disk, run: seq<State>,
                      i: nat) returns (longer: seq<State>)
    requires Runs(cfg, table, all, listed, disk, run) && i < |End(run).lanes| && End(run).lanes[i].sourceOpen
    ensures Runs(cfg, table, all, listed, disk, longer) && |longer| > |run| && longer[..|run|] == run
    ensures i < |End(longer).lanes| && End(longer).lanes[i].sourceFailed
  {
    longer := Extend(cfg, run[0], run, LaneStep(i, SourceFail));
  }
}
