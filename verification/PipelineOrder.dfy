/** With one transformer and one writer the pipeline is one queue per partition: records
    leave it in the order the source delivered them. */
module PipelineOrder {
  import opened Common
  import opened SchemaMapper
  import opened Pipeline
  import opened PipelineSafety
  import opened PipelineConservation

  /** The records of one partition in a list. */
  function Only(pid: string, rs: seq<Record>): seq<Record> {
    if rs == [] then [] else (if rs[0].pid == pid then [rs[0]] else []) + Only(pid, rs[1..])
  }

  lemma {:induction false} OnlyMember(pid: string, rs: seq<Record>, r: Record)
    ensures r in Only(pid, rs) <==> r in rs && r.pid == pid
  {
    if rs != [] {
      OnlyMember(pid, rs[1..], r);
      assert r in rs <==> r == rs[0] || r in rs[1..];
    }
  }

  lemma {:induction false} OnlyConcat(pid: string, a: seq<Record>, b: seq<Record>)
    ensures Only(pid, a + b) == Only(pid, a) + Only(pid, b)
  {
    if a == [] {
      assert a + b == b;
    } else {
      assert (a + b)[0] == a[0] && (a + b)[1..] == a[1..] + b;
      OnlyConcat(pid, a[1..], b);
    }
  }

  predicate Ascending(rs: seq<Record>) {
    forall i, j :: 0 <= i < j < |rs| ==> rs[i].offset <= rs[j].offset
  }

  predicate AtLeast(rs: seq<Record>, o: int) {
    forall r :: r in rs ==> r.offset >= o
  }

  predicate OneEach(s: State) { |s.transformers| == 1 && |s.writers| == 1 }

  /** Everything between the readers and the target, next to leave first. */
  function Stream(m: Option<Mapper>, s: State): seq<Record>
    requires OneEach(s)
  {
    InHand(s.writers[0].phase) + Behind(m, s)
  }

  function Behind(m: Option<Mapper>, s: State): seq<Record>
    requires OneEach(s)
  {
    Flat(s.batchCh) + s.transformers[0].batch + Images(m, s.recordCh)
  }

  /** What is left of the partition of lane i, in the order it will leave. */
  function Remaining(m: Option<Mapper>, s: State, i: nat): seq<Record>
    requires OneEach(s) && i < |s.lanes|
  {
    Only(s.lanes[i].pid, Stream(m, s)) + Images(m, LaneFlow(s.lanes[i]))
  }

  /** Lanes have distinct partitions and carry only their own records. */
  predicate LanesOk(s: State) {
    && (forall i, j :: 0 <= i < j < |s.lanes| ==> s.lanes[i].pid != s.lanes[j].pid)
    && (forall i, r :: 0 <= i < |s.lanes| && r in LaneFlow(s.lanes[i]) ==> r.pid == s.lanes[i].pid)
  }

  /** How many records a step takes out of the stream. */
  function Consumed(s: State, a: Action): nat
    requires OneEach(s)
  {
    if a.WriterStep? then Taken(s.writers[0].phase, a.wact) else 0
  }

  function Taken(p: WriterPhase, act: WriterAction): nat {
    if act.WriteOk? then |InHand(p)| else if act.RetryOk? || act.DeadLetter? then 1 else 0
  }

  lemma HandAfter(cfg: Config, w: Writer, disk: Disk, ledger: Ledger, act: WriterAction)
    requires WriterEnabled(cfg, w.phase, act)
    ensures Taken(w.phase, act) <= |InHand(w.phase)|
    ensures InHand(WriterApply(cfg, w, disk, ledger, act).0.phase) == InHand(w.phase)[Taken(w.phase, act)..]
  {
    match act
    case WriteOk => InHandOfNext([], Marks(w.phase.batch));
    case WriteFail(_) => InHandOfNext(w.phase.batch, map[]);
    case RetryOk => InHandOfNext(w.phase.rest[1..], map[]);
    case RetryFail(_) =>
    case DeadLetter(_) => InHandOfNext(w.phase.rest[1..], map[]);
    case LoadCheckpoint(_, _) =>
    case SaveCheckpoint(_) => InHandOfNext([], w.phase.pending);
  }

  lemma LaneStepStream(cfg: Config, s: State, i: nat, act: LaneAction)
    requires OneEach(s) && Enabled(cfg, s, LaneStep(i, act))
    ensures var t := Apply(cfg, s, LaneStep(i, act));
      Stream(cfg.mapper, t) == Stream(cfg.mapper, s)
      && forall k :: 0 <= k < |s.lanes| ==> LaneFlow(t.lanes[k]) == LaneFlow(s.lanes[k])
  {
    LaneKeepsFlow(cfg, s.cancelled, s.lanes[i], act);
  }

  lemma MoveBoundary(f: seq<Record>, b: seq<Record>, x: Record, i: seq<Record>)
    ensures (f + (b + [x])) + i == (f + b) + ([x] + i)
  {
  }

  lemma CollectStream(cfg: Config, s: State, t: State)
    requires OneEach(s) && s.recordCh != []
    requires t.transformers == [Collect(cfg, s.transformers[0], s.recordCh[0])] && t.recordCh == s.recordCh[1..]
    requires t.batchCh == s.batchCh && t.writers == s.writers
    ensures Stream(cfg.mapper, t) == Stream(cfg.mapper, s)
  {
    var m, x := cfg.mapper, s.recordCh[0];
    assert s.recordCh == [x] + t.recordCh;
    ImagesConcat(m, [x], t.recordCh);
    assert Images(m, [x]) == [Mapped(m, x)];
    MoveBoundary(Flat(s.batchCh), s.transformers[0].batch, Mapped(m, x), Images(m, t.recordCh));
  }

  lemma FlushStream(cfg: Config, s: State)
    requires OneEach(s) && Enabled(cfg, s, TransformerSend(0))
    ensures Stream(cfg.mapper, Apply(cfg, s, TransformerSend(0))) == Stream(cfg.mapper, s)
  {
    FlatSnoc(s.batchCh, s.transformers[0].batch);
    var t := Apply(cfg, s, TransformerSend(0));
    assert t.transformers[0].batch == [];
    assert Behind(cfg.mapper, t) == Behind(cfg.mapper, s);
  }

  lemma DropInside(h: seq<Record>, rest: seq<Record>, n: nat)
    requires n <= |h|
    ensures (h + rest)[n..] == h[n..] + rest
  {
  }

  lemma WriterStepStream(cfg: Config, s: State, act: WriterAction)
    requires OneEach(s) && Enabled(cfg, s, WriterStep(0, act))
    ensures Taken(s.writers[0].phase, act) <= |InHand(s.writers[0].phase)|
    ensures Stream(cfg.mapper, Apply(cfg, s, WriterStep(0, act)))
        == Stream(cfg.mapper, s)[Taken(s.writers[0].phase, act)..]
  {
    var t := Apply(cfg, s, WriterStep(0, act));
    HandAfter(cfg, s.writers[0], s.disk, s.ledger, act);
    assert Behind(cfg.mapper, t) == Behind(cfg.mapper, s);
    DropInside(InHand(s.writers[0].phase), Behind(cfg.mapper, s), Taken(s.writers[0].phase, act));
  }

  lemma WriterReceiveStream(cfg: Config, s: State)
    requires OneEach(s) && Enabled(cfg, s, WriterReceive(0))
    ensures Stream(cfg.mapper, Apply(cfg, s, WriterReceive(0))) == Stream(cfg.mapper, s)
  {
    var t := Apply(cfg, s, WriterReceive(0));
    assert t.batchCh == s.batchCh[1..] && t.transformers == s.transformers && t.recordCh == s.recordCh;
    assert InHand(t.writers[0].phase) == s.batchCh[0] && InHand(s.writers[0].phase) == [];
    TakeFirst(s.batchCh, s.transformers[0].batch, Images(cfg.mapper, s.recordCh));
  }

  lemma {:induction false} TakeFirst(batches: seq<seq<Record>>, b: seq<Record>, i: seq<Record>)
    requires batches != []
    ensures [] + (Flat(batches) + b + i) == batches[0] + (Flat(batches[1..]) + b + i)
  {
  }

  lemma SendStream(cfg: Config, s: State, a: Action)
    requires OneEach(s) && Enabled(cfg, s, a) && (a.ReaderSend? || a.ReaderHandOver?)
    ensures var r := s.lanes[a.i].held[0];
      && Stream(cfg.mapper, Apply(cfg, s, a)) == Stream(cfg.mapper, s) + [Mapped(cfg.mapper, r)]
      && LaneFlow(s.lanes[a.i]) == [r] + LaneFlow(Apply(cfg, s, a).lanes[a.i])
  {
    var m, r, t := cfg.mapper, s.lanes[a.i].held[0], Apply(cfg, s, a);
    if a.ReaderSend? {
      assert Images(m, t.recordCh) == Images(m, s.recordCh) + [Mapped(m, r)];
    } else {
      HandOverStream(cfg, s, a.i, a.j);
    }
  }

  lemma HandOverStream(cfg: Config, s: State, i: nat, j: nat)
    requires OneEach(s) && Enabled(cfg, s, ReaderHandOver(i, j))
    ensures Stream(cfg.mapper, Apply(cfg, s, ReaderHandOver(i, j)))
         == Stream(cfg.mapper, s) + [Mapped(cfg.mapper, s.lanes[i].held[0])]
  {
    assert Images(cfg.mapper, s.recordCh) == [];
  }

  lemma {:induction false} OnlySnoc(pid: string, rs: seq<Record>, r: Record)
    ensures Only(pid, rs + [r]) == Only(pid, rs) + (if r.pid == pid then [r] else [])
  {
    OnlyConcat(pid, rs, [r]);
    assert [r][1..] == [];
  }

  /** What remains of lane k when lane i sends r. */
  lemma RemainingAfterSend(m: Option<Mapper>, s: State, t: State, i: nat, k: nat, r: Record)
    requires OneEach(s) && OneEach(t) && |t.lanes| == |s.lanes| && i < |s.lanes| && k < |s.lanes|
    requires Stream(m, t) == Stream(m, s) + [Mapped(m, r)]
    requires r.pid == s.lanes[i].pid && t.lanes[k].pid == s.lanes[k].pid
    requires if k == i then LaneFlow(s.lanes[k]) == [r] + LaneFlow(t.lanes[k])
             else LaneFlow(t.lanes[k]) == LaneFlow(s.lanes[k]) && s.lanes[k].pid != s.lanes[i].pid
    ensures Remaining(m, t, k) == Remaining(m, s, k)
  {
    var o, x, rest := Only(s.lanes[k].pid, Stream(m, s)), Mapped(m, r), Images(m, LaneFlow(t.lanes[k]));
    OnlySnoc(s.lanes[k].pid, Stream(m, s), x);
    if k == i {
      ImagesConcat(m, [r], LaneFlow(t.lanes[k]));
      assert Images(m, [r]) == [x];
      assert Images(m, LaneFlow(s.lanes[k])) == [x] + rest;
      assert (o + [x]) + rest == o + ([x] + rest);
    }
  }

  lemma RemainingAfterDrop(m: Option<Mapper>, s: State, t: State, k: nat, n: nat)
    requires OneEach(s) && OneEach(t) && |t.lanes| == |s.lanes| && k < |s.lanes| && n <= |Stream(m, s)|
    requires Stream(m, t) == Stream(m, s)[n..]
    requires t.lanes[k].pid == s.lanes[k].pid && LaneFlow(t.lanes[k]) == LaneFlow(s.lanes[k])
    ensures Remaining(m, s, k) == Only(s.lanes[k].pid, Stream(m, s)[..n]) + Remaining(m, t, k)
  {
    OnlySplit(s.lanes[k].pid, Stream(m, s), n);
  }

  lemma SendFrame(cfg: Config, s: State, a: Action)
    requires OneEach(s) && Enabled(cfg, s, a) && (a.ReaderSend? || a.ReaderHandOver?)
    ensures OneEach(Apply(cfg, s, a)) && |Apply(cfg, s, a).lanes| == |s.lanes|
    ensures Consumed(s, a) == 0
    ensures forall k :: 0 <= k < |s.lanes| ==> Apply(cfg, s, a).lanes[k].pid == s.lanes[k].pid
    ensures forall k :: 0 <= k < |s.lanes| && k != a.i ==> Apply(cfg, s, a).lanes[k] == s.lanes[k]
  {
  }

  /** Queue discipline: a step removes the next records of the stream and nothing else, so
      each partition keeps a suffix of what it had. */
  lemma StepKeepsOrder(cfg: Config, s: State, a: Action, t: State, k: nat)
    requires OneEach(s) && LanesOk(s) && Enabled(cfg, s, a) && t == Apply(cfg, s, a) && k < |s.lanes|
    ensures OneEach(t) && |t.lanes| == |s.lanes| && t.lanes[k].pid == s.lanes[k].pid
    ensures Consumed(s, a) <= |Stream(cfg.mapper, s)|
    ensures Remaining(cfg.mapper, s, k)
         == Only(s.lanes[k].pid, Stream(cfg.mapper, s)[..Consumed(s, a)]) + Remaining(cfg.mapper, t, k)
  {
    if a.ReaderSend? || a.ReaderHandOver? {
      SendKeepsOrder(cfg, s, a, t, k);
    } else {
      DropKeepsOrder(cfg, s, a, t, k);
    }
  }

  lemma SendKeepsOrder(cfg: Config, s: State, a: Action, t: State, k: nat)
    requires OneEach(s) && LanesOk(s) && Enabled(cfg, s, a) && t == Apply(cfg, s, a) && k < |s.lanes|
    requires a.ReaderSend? || a.ReaderHandOver?
    ensures OneEach(t) && |t.lanes| == |s.lanes| && t.lanes[k].pid == s.lanes[k].pid && Consumed(s, a) == 0
    ensures Remaining(cfg.mapper, s, k)
         == Only(s.lanes[k].pid, Stream(cfg.mapper, s)[..Consumed(s, a)]) + Remaining(cfg.mapper, t, k)
  {
    var r := s.lanes[a.i].held[0];
    SendFrame(cfg, s, a);
    SendStream(cfg, s, a);
    assert r in LaneFlow(s.lanes[a.i]);
    RemainingAfterSend(cfg.mapper, s, t, a.i, k, r);
    assert Stream(cfg.mapper, s)[..0] == [];
  }

  lemma DropKeepsOrder(cfg: Config, s: State, a: Action, t: State, k: nat)
    requires OneEach(s) && Enabled(cfg, s, a) && t == Apply(cfg, s, a) && k < |s.lanes|
    requires !a.ReaderSend? && !a.ReaderHandOver?
    ensures OneEach(t) && |t.lanes| == |s.lanes| && t.lanes[k].pid == s.lanes[k].pid
    ensures Consumed(s, a) <= |Stream(cfg.mapper, s)|
    ensures Remaining(cfg.mapper, s, k)
         == Only(s.lanes[k].pid, Stream(cfg.mapper, s)[..Consumed(s, a)]) + Remaining(cfg.mapper, t, k)
  {
    StreamAfter(cfg, s, a);
    RemainingAfterDrop(cfg.mapper, s, t, k, Consumed(s, a));
  }

  lemma {:induction false} OnlySplit(pid: string, rs: seq<Record>, n: nat)
    requires n <= |rs|
    ensures Only(pid, rs) == Only(pid, rs[..n]) + Only(pid, rs[n..])
  {
    assert rs == rs[..n] + rs[n..];
    OnlyConcat(pid, rs[..n], rs[n..]);
  }

  /** A step that takes n records out of the stream and leaves the lanes' flows alone. */
  ghost predicate Shifts(m: Option<Mapper>, s: State, t: State, n: nat) {
    && OneEach(s) && OneEach(t) && |t.lanes| == |s.lanes|
    && n <= |Stream(m, s)| && Stream(m, t) == Stream(m, s)[n..]
    && forall k :: 0 <= k < |s.lanes| ==> SameFlow(s.lanes[k], t.lanes[k])
  }

  predicate SameFlow(l: Lane, l': Lane) { l'.pid == l.pid && LaneFlow(l') == LaneFlow(l) }

  lemma ReaderStream(cfg: Config, s: State, a: Action)
    requires OneEach(s) && Enabled(cfg, s, a) && OfReader(a) && !a.ReaderSend? && !a.ReaderHandOver?
    ensures Shifts(cfg.mapper, s, Apply(cfg, s, a), 0)
  {
    match a
    case LaneStep(i, act) => LaneStepStream(cfg, s, i, act);
    case ReaderReturn(_) =>
    case CloseRecordCh =>
  }

  lemma TransformerStream(cfg: Config, s: State, a: Action)
    requires OneEach(s) && Enabled(cfg, s, a) && OfTransformer(a)
    ensures Shifts(cfg.mapper, s, Apply(cfg, s, a), 0)
  {
    match a
    case TransformerReceive(_) => ReceiveStream(cfg, s);
    case TransformerTick(_) =>
    case TransformerSend(_) => FlushStream(cfg, s);
    case TransformerEnd(_) =>
    case TransformerCancel(_) =>
  }

  lemma ReceiveStream(cfg: Config, s: State)
    requires OneEach(s) && Enabled(cfg, s, TransformerReceive(0))
    ensures Shifts(cfg.mapper, s, Apply(cfg, s, TransformerReceive(0)), 0)
  {
    var t := Apply(cfg, s, TransformerReceive(0));
    assert t.transformers == [Collect(cfg, s.transformers[0], s.recordCh[0])];
    CollectStream(cfg, s, t);
  }

  lemma WriterStream(cfg: Config, s: State, a: Action)
    requires OneEach(s) && Enabled(cfg, s, a) && OfWriter(a)
    ensures Shifts(cfg.mapper, s, Apply(cfg, s, a), Consumed(s, a))
  {
    match a
    case CloseBatchCh =>
    case WriterReceive(_) => WriterReceiveStream(cfg, s);
    case WriterStep(_, act) => WriterStepStream(cfg, s, act);
    case WriterEnd(_) =>
    case WriterCancel(_) =>
    case CancelContext =>
  }

  lemma StreamAfter(cfg: Config, s: State, a: Action)
    requires OneEach(s) && Enabled(cfg, s, a) && !a.ReaderSend? && !a.ReaderHandOver?
    ensures Shifts(cfg.mapper, s, Apply(cfg, s, a), Consumed(s, a))
  {
    if OfReader(a) {
      ReaderStream(cfg, s, a);
    } else if OfTransformer(a) {
      TransformerStream(cfg, s, a);
    } else {
      WriterStream(cfg, s, a);
    }
  }

  lemma StepKeepsLanes(cfg: Config, s: State, a: Action)
    requires OneEach(s) && LanesOk(s) && Enabled(cfg, s, a)
    ensures LanesOk(Apply(cfg, s, a))
  {
    var t := Apply(cfg, s, a);
    if a.ReaderSend? || a.ReaderHandOver? {
      SendFrame(cfg, s, a);
      SendStream(cfg, s, a);
      FlowsShrink(s, t, a.i);
    } else {
      StreamAfter(cfg, s, a);
      FlowsShrink(s, t, |s.lanes|);
    }
  }

  lemma FlowsShrink(s: State, t: State, i: nat)
    requires LanesOk(s) && |t.lanes| == |s.lanes|
    requires forall k :: 0 <= k < |s.lanes| ==> t.lanes[k].pid == s.lanes[k].pid
    requires forall k :: 0 <= k < |s.lanes| && k != i ==> LaneFlow(t.lanes[k]) == LaneFlow(s.lanes[k])
    requires i < |s.lanes| ==> LaneFlow(s.lanes[i]) != [] && LaneFlow(t.lanes[i]) == LaneFlow(s.lanes[i])[1..]
    ensures LanesOk(t)
  {
    forall k, r | 0 <= k < |t.lanes| && r in LaneFlow(t.lanes[k]) ensures r.pid == t.lanes[k].pid {
      assert r in LaneFlow(s.lanes[k]);
    }
  }
}
