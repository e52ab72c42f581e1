/** No record is lost or duplicated, whatever the number of goroutines and their interleaving. */
module PipelineConservation {
  import opened Common
  import opened SchemaMapper
  import opened Pipeline
  import opened PipelineSafety

  /** What the transformers make of a list of records. */
  function Images(m: Option<Mapper>, rs: seq<Record>): (ms: seq<Record>)
    ensures |ms| == |rs| && forall i :: 0 <= i < |rs| ==> ms[i] == Mapped(m, rs[i])
  {
    seq(|rs|, i requires 0 <= i < |rs| => Mapped(m, rs[i]))
  }

  function LaneFlows(m: Option<Mapper>, lanes: seq<Lane>): (fs: seq<seq<Record>>)
    ensures |fs| == |lanes| && forall i :: 0 <= i < |fs| ==> fs[i] == Images(m, LaneFlow(lanes[i]))
  {
    seq(|lanes|, i requires 0 <= i < |lanes| => Images(m, LaneFlow(lanes[i])))
  }

  function Batches(ts: seq<Transformer>): (bs: seq<seq<Record>>)
    ensures |bs| == |ts| && forall i :: 0 <= i < |bs| ==> bs[i] == ts[i].batch
  {
    seq(|ts|, i requires 0 <= i < |ts| => ts[i].batch)
  }

  function InHand(p: WriterPhase): seq<Record> {
    match p
    case Writing(batch) => batch
    case Retrying(rest) => rest
    case Burying(rest) => rest
    case _ => []
  }

  function InHands(ws: seq<Writer>): (hs: seq<seq<Record>>)
    ensures |hs| == |ws| && forall i :: 0 <= i < |hs| ==> hs[i] == InHand(ws[i].phase)
  {
    seq(|ws|, i requires 0 <= i < |ws| => InHand(ws[i].phase))
  }

  /** Records without a disposition yet, as they will look to the target. */
  ghost function InFlight(m: Option<Mapper>, s: State): multiset<Record> {
    Bag(LaneFlows(m, s.lanes)) + multiset(Images(m, s.recordCh)) + Bag(Batches(s.transformers))
      + Bag(s.batchCh) + Bag(InHands(s.writers))
  }

  ghost function Disposed(l: Ledger): multiset<Record> { l.written + l.dead + l.dropped }

  /** How often a record occurs in a state, stage by stage. */
  ghost function Count(m: Option<Mapper>, s: State, r: Record): nat {
    Bag(LaneFlows(m, s.lanes))[r] + multiset(Images(m, s.recordCh))[r] + Bag(Batches(s.transformers))[r]
      + Bag(s.batchCh)[r] + Bag(InHands(s.writers))[r] + Disposed(s.ledger)[r]
  }

  ghost function Total(m: Option<Mapper>, s: State): multiset<Record> { InFlight(m, s) + Disposed(s.ledger) }

  lemma ImagesConcat(m: Option<Mapper>, a: seq<Record>, b: seq<Record>)
    ensures Images(m, a + b) == Images(m, a) + Images(m, b)
  {
  }

  lemma LaneFlowsUpdate(m: Option<Mapper>, lanes: seq<Lane>, i: nat, l: Lane)
    requires i < |lanes|
    ensures LaneFlows(m, lanes[i := l]) == LaneFlows(m, lanes)[i := Images(m, LaneFlow(l))]
  {
  }

  /** Moving a lane's held record out of the lane. */
  lemma LaneSends(m: Option<Mapper>, lanes: seq<Lane>, i: nat)
    requires i < |lanes| && lanes[i].held != []
    ensures var l := lanes[i].(held := lanes[i].held[1..]);
      Bag(LaneFlows(m, lanes)) == Bag(LaneFlows(m, lanes[i := l])) + multiset{Mapped(m, lanes[i].held[0])}
  {
    var l, x := lanes[i].(held := lanes[i].held[1..]), lanes[i].held[0];
    var flow := Images(m, LaneFlow(lanes[i]));
    assert LaneFlow(lanes[i]) == [x] + LaneFlow(l);
    assert flow[1..] == Images(m, LaneFlow(l)) && flow[0] == Mapped(m, x);
    LaneFlowsUpdate(m, lanes, i, l);
    BagPop(LaneFlows(m, lanes), i);
  }

  lemma TransformerCollects(cfg: Config, ts: seq<Transformer>, j: nat, r: Record)
    requires j < |ts|
    ensures Bag(Batches(ts[j := Collect(cfg, ts[j], r)])) == Bag(Batches(ts)) + multiset{Mapped(cfg.mapper, r)}
  {
    var t := Collect(cfg, ts[j], r);
    assert Batches(ts[j := t]) == Batches(ts)[j := t.batch];
    BagPush(Batches(ts), j, Mapped(cfg.mapper, r));
  }

  lemma LaneKeepsFlow(cfg: Config, cancelled: bool, l: Lane, act: LaneAction)
    requires LaneEnabled(cfg, cancelled, l, act)
    ensures LaneFlow(LaneApply(cfg, cancelled, l, act)) == LaneFlow(l)
  {
  }

  lemma LaneStepConserves(cfg: Config, s: State, i: nat, act: LaneAction)
    requires Enabled(cfg, s, LaneStep(i, act))
    ensures LaneFlows(cfg.mapper, Apply(cfg, s, LaneStep(i, act)).lanes) == LaneFlows(cfg.mapper, s.lanes)
  {
    LaneKeepsFlow(cfg, s.cancelled, s.lanes[i], act);
    LaneFlowsUpdate(cfg.mapper, s.lanes, i, LaneApply(cfg, s.cancelled, s.lanes[i], act));
  }

  lemma ReaderSendConserves(cfg: Config, s: State, i: nat)
    requires Enabled(cfg, s, ReaderSend(i))
    ensures forall r :: Count(cfg.mapper, Apply(cfg, s, ReaderSend(i)), r) == Count(cfg.mapper, s, r)
  {
    var m, x, t := cfg.mapper, s.lanes[i].held[0], Apply(cfg, s, ReaderSend(i));
    LaneSends(m, s.lanes, i);
    assert Images(m, t.recordCh) == Images(m, s.recordCh) + [Mapped(m, x)];
  }

  lemma HandOverConserves(cfg: Config, s: State, i: nat, j: nat)
    requires Enabled(cfg, s, ReaderHandOver(i, j))
    ensures forall r :: Count(cfg.mapper, Apply(cfg, s, ReaderHandOver(i, j)), r) == Count(cfg.mapper, s, r)
  {
    LaneSends(cfg.mapper, s.lanes, i);
    TransformerCollects(cfg, s.transformers, j, s.lanes[i].held[0]);
  }

  lemma CollectConserves(cfg: Config, s: State, j: nat, r: Record)
    requires Enabled(cfg, s, TransformerReceive(j))
    ensures Count(cfg.mapper, Apply(cfg, s, TransformerReceive(j)), r) == Count(cfg.mapper, s, r)
  {
    var t, x := Apply(cfg, s, TransformerReceive(j)), multiset{Mapped(cfg.mapper, s.recordCh[0])};
    TransformerCollects(cfg, s.transformers, j, s.recordCh[0]);
    ImagesPop(cfg.mapper, s.recordCh);
    assert Bag(Batches(t.transformers))[r] == Bag(Batches(s.transformers))[r] + x[r];
    assert multiset(Images(cfg.mapper, s.recordCh))[r] == x[r] + multiset(Images(cfg.mapper, t.recordCh))[r];
  }

  lemma ImagesPop(m: Option<Mapper>, rs: seq<Record>)
    requires rs != []
    ensures multiset(Images(m, rs)) == multiset{Mapped(m, rs[0])} + multiset(Images(m, rs[1..]))
  {
    assert Images(m, rs)[1..] == Images(m, rs[1..]);
    PopFront(Images(m, rs));
  }

  lemma FlushConserves(cfg: Config, s: State, j: nat)
    requires Enabled(cfg, s, TransformerSend(j))
    ensures forall r :: Count(cfg.mapper, Apply(cfg, s, TransformerSend(j)), r) == Count(cfg.mapper, s, r)
  {
    var t, batch := Apply(cfg, s, TransformerSend(j)), s.transformers[j].batch;
    assert Batches(t.transformers) == Batches(s.transformers)[j := []];
    BagConcat(s.batchCh, [batch]);
    assert Bag([batch]) == multiset(batch) + Bag<Record>([]);
    forall r ensures Count(cfg.mapper, t, r) == Count(cfg.mapper, s, r) {
      BagUpdateCount(Batches(s.transformers), j, [], r);
      assert Bag(t.batchCh)[r] == Bag(s.batchCh)[r] + multiset(batch)[r];
    }
  }

  lemma InHandOfNext(rest: seq<Record>, pending: map<string, Mark>)
    ensures InHand(Retry(rest)) == rest && InHand(StartMarking(pending)) == []
  {
  }

  /** How often a record is in a writer's hand or disposed of. */
  ghost function Held(p: WriterPhase, l: Ledger, r: Record): nat { multiset(InHand(p))[r] + Disposed(l)[r] }

  lemma HeadLeaves(rest: seq<Record>)
    requires rest != []
    ensures multiset(rest) == multiset{rest[0]} + multiset(InHand(Retry(rest[1..])))
  {
    PopFront(rest);
    InHandOfNext(rest[1..], map[]);
  }

  lemma WriteOkConserves(cfg: Config, w: Writer, disk: Disk, ledger: Ledger, r: Record)
    requires WriterEnabled(cfg, w.phase, WriteOk)
    ensures var next := WriterApply(cfg, w, disk, ledger, WriteOk);
      Held(next.0.phase, next.2, r) == Held(w.phase, ledger, r)
  {
    InHandOfNext([], Marks(w.phase.batch));
  }

  lemma RetryOkConserves(cfg: Config, w: Writer, disk: Disk, ledger: Ledger, r: Record)
    requires WriterEnabled(cfg, w.phase, RetryOk)
    ensures var next := WriterApply(cfg, w, disk, ledger, RetryOk);
      Held(next.0.phase, next.2, r) == Held(w.phase, ledger, r)
  {
    HeadLeaves(w.phase.rest);
  }

  lemma DeadLetterConserves(cfg: Config, w: Writer, disk: Disk, ledger: Ledger, r: Record, accepted: bool)
    requires WriterEnabled(cfg, w.phase, DeadLetter(accepted))
    ensures var next := WriterApply(cfg, w, disk, ledger, DeadLetter(accepted));
      Held(next.0.phase, next.2, r) == Held(w.phase, ledger, r)
  {
    HeadLeaves(w.phase.rest);
  }

  lemma HandKept(cfg: Config, w: Writer, disk: Disk, ledger: Ledger, a: WriterAction)
    requires WriterEnabled(cfg, w.phase, a) && !a.WriteOk? && !a.RetryOk? && !a.DeadLetter?
    ensures var next := WriterApply(cfg, w, disk, ledger, a);
      InHand(next.0.phase) == InHand(w.phase) && next.2 == ledger
  {
    match a
    case WriteFail(_) => InHandOfNext(w.phase.batch, map[]);
    case RetryFail(_) =>
    case LoadCheckpoint(_, _) =>
    case SaveCheckpoint(_) => InHandOfNext([], w.phase.pending);
  }

  /** A busy writer's hand and the ledger change together. */
  lemma WriterConserves(cfg: Config, w: Writer, disk: Disk, ledger: Ledger, a: WriterAction, r: Record)
    requires WriterEnabled(cfg, w.phase, a)
    ensures var next := WriterApply(cfg, w, disk, ledger, a);
      Held(next.0.phase, next.2, r) == Held(w.phase, ledger, r)
  {
    match a
    case WriteOk => WriteOkConserves(cfg, w, disk, ledger, r);
    case RetryOk => RetryOkConserves(cfg, w, disk, ledger, r);
    case DeadLetter(accepted) => DeadLetterConserves(cfg, w, disk, ledger, r, accepted);
    case WriteFail(_) => HandKept(cfg, w, disk, ledger, a);
    case RetryFail(_) => HandKept(cfg, w, disk, ledger, a);
    case LoadCheckpoint(_, _) => HandKept(cfg, w, disk, ledger, a);
    case SaveCheckpoint(_) => HandKept(cfg, w, disk, ledger, a);
  }

  lemma HandChanges(ws: seq<Writer>, k: nat, w: Writer, r: Record)
    requires k < |ws|
    ensures Bag(InHands(ws[k := w]))[r] + multiset(InHand(ws[k].phase))[r]
        == Bag(InHands(ws))[r] + multiset(InHand(w.phase))[r]
  {
    assert InHands(ws[k := w]) == InHands(ws)[k := InHand(w.phase)];
    BagUpdateCount(InHands(ws), k, InHand(w.phase), r);
  }

  /** A step that changes one writer, batchCh and the ledger. */
  lemma WriterCounts(m: Option<Mapper>, s: State, t: State, k: nat, w: Writer, r: Record)
    requires k < |s.writers| && t.writers == s.writers[k := w]
    requires t.lanes == s.lanes && t.recordCh == s.recordCh && t.transformers == s.transformers
    requires Bag(t.batchCh)[r] + Held(w.phase, t.ledger, r) == Bag(s.batchCh)[r] + Held(s.writers[k].phase, s.ledger, r)
    ensures Count(m, t, r) == Count(m, s, r)
  {
    HandChanges(s.writers, k, w, r);
  }

  lemma WriterStepCounts(cfg: Config, s: State, k: nat, act: WriterAction, r: Record)
    requires Enabled(cfg, s, WriterStep(k, act))
    ensures Count(cfg.mapper, Apply(cfg, s, WriterStep(k, act)), r) == Count(cfg.mapper, s, r)
  {
    WriterConserves(cfg, s.writers[k], s.disk, s.ledger, act, r);
    WriterCounts(cfg.mapper, s, Apply(cfg, s, WriterStep(k, act)), k,
                 WriterApply(cfg, s.writers[k], s.disk, s.ledger, act).0, r);
  }

  lemma WriterReceiveCounts(cfg: Config, s: State, k: nat, r: Record)
    requires Enabled(cfg, s, WriterReceive(k))
    ensures Count(cfg.mapper, Apply(cfg, s, WriterReceive(k)), r) == Count(cfg.mapper, s, r)
  {
    assert Bag(s.batchCh) == multiset(s.batchCh[0]) + Bag(s.batchCh[1..]);
    WriterCounts(cfg.mapper, s, Apply(cfg, s, WriterReceive(k)), k, s.writers[k].(phase := Writing(s.batchCh[0])), r);
  }

  lemma WriterQuitCounts(cfg: Config, s: State, a: Action, r: Record)
    requires Enabled(cfg, s, a) && (a.WriterEnd? || a.WriterCancel?)
    ensures Count(cfg.mapper, Apply(cfg, s, a), r) == Count(cfg.mapper, s, r)
  {
    WriterCounts(cfg.mapper, s, Apply(cfg, s, a), a.k, s.writers[a.k].(phase := Quit), r);
  }

  lemma ReaderCounts(cfg: Config, s: State, a: Action, r: Record)
    requires Enabled(cfg, s, a) && OfReader(a)
    ensures Count(cfg.mapper, Apply(cfg, s, a), r) == Count(cfg.mapper, s, r)
  {
    match a
    case LaneStep(i, act) => LaneStepConserves(cfg, s, i, act);
    case ReaderSend(i) => ReaderSendConserves(cfg, s, i);
    case ReaderHandOver(i, j) => HandOverConserves(cfg, s, i, j);
    case ReaderReturn(_) => assert LaneFlows(cfg.mapper, Apply(cfg, s, a).lanes) == LaneFlows(cfg.mapper, s.lanes);
    case CloseRecordCh =>
  }

  lemma TransformerCounts(cfg: Config, s: State, a: Action, r: Record)
    requires Enabled(cfg, s, a) && OfTransformer(a)
    ensures Count(cfg.mapper, Apply(cfg, s, a), r) == Count(cfg.mapper, s, r)
  {
    match a
    case TransformerReceive(j) => CollectConserves(cfg, s, j, r);
    case TransformerSend(j) => FlushConserves(cfg, s, j);
    case TransformerTick(_) => assert Batches(Apply(cfg, s, a).transformers) == Batches(s.transformers);
    case TransformerEnd(_) => assert Batches(Apply(cfg, s, a).transformers) == Batches(s.transformers);
    case TransformerCancel(_) => assert Batches(Apply(cfg, s, a).transformers) == Batches(s.transformers);
  }

  lemma WriterActionCounts(cfg: Config, s: State, a: Action, r: Record)
    requires Enabled(cfg, s, a) && OfWriter(a)
    ensures Count(cfg.mapper, Apply(cfg, s, a), r) == Count(cfg.mapper, s, r)
  {
    match a
    case CloseBatchCh =>
    case WriterReceive(k) => WriterReceiveCounts(cfg, s, k, r);
    case WriterStep(k, act) => WriterStepCounts(cfg, s, k, act, r);
    case WriterEnd(_) => WriterQuitCounts(cfg, s, a, r);
    case WriterCancel(_) => WriterQuitCounts(cfg, s, a, r);
    case CancelContext =>
  }

  lemma StepCounts(cfg: Config, s: State, a: Action, r: Record)
    requires Enabled(cfg, s, a)
    ensures Count(cfg.mapper, Apply(cfg, s, a), r) == Count(cfg.mapper, s, r)
  {
    if OfReader(a) {
      ReaderCounts(cfg, s, a, r);
    } else if OfTransformer(a) {
      TransformerCounts(cfg, s, a, r);
    } else {
      WriterActionCounts(cfg, s, a, r);
    }
  }

  lemma CountIsTotal(m: Option<Mapper>, s: State, r: Record)
    ensures Total(m, s)[r] == Count(m, s, r)
  {
  }

  lemma StepConserves(cfg: Config, s: State, a: Action)
    requires Enabled(cfg, s, a)
    ensures Total(cfg.mapper, Apply(cfg, s, a)) == Total(cfg.mapper, s)
  {
    var b, c := Total(cfg.mapper, Apply(cfg, s, a)), Total(cfg.mapper, s);
    forall r: Record ensures b[r] == c[r] {
      StepCounts(cfg, s, a, r);
      CountIsTotal(cfg.mapper, s, r);
      CountIsTotal(cfg.mapper, Apply(cfg, s, a), r);
    }
  }
}
