/** The migration pipeline as a state machine. One action is one atomic step of one
    goroutine: a channel operation, a return, or one call to a target, a dead-letter
    file or the checkpoint store. An interleaving is a sequence of actions. */
module Pipeline {
  import opened Common
  import opened SchemaMapper

  // ---------------------------------------------------------------- configuration

  /** No dead-letter queue, one whose writes may fail, or one whose writes succeed. */
  datatype DeadLetters = Absent | Flaky | Reliable

  datatype Config = Config(numReaders: nat, numTransformers: nat, numWriters: nat, batchSize: nat,
                           flushEveryNBatches: int, mapper: Option<Mapper>, dlq: DeadLetters)
  {
    function RecordCapacity(): nat { numReaders * batchSize }

    function BatchCapacity(): nat { numWriters * 2 }

    function FlushEvery(): (n: nat)
      ensures n > 0
    {
      if flushEveryNBatches <= 0 then 10 else flushEveryNBatches
    }
  }

  // ---------------------------------------------------------------- durable state

  datatype Status = Pending | InProgress | Done | Failed

  datatype Checkpoint = Checkpoint(status: Status, lastCommitted: Option<int>, rowsWritten: int)

  /** What survives a crash: the checkpoints of this operation, the rows of an upsert
      target by record id, and the dead-letter file. */
  datatype Disk = Disk(store: map<string, Checkpoint>, target: map<string, Data>, dlq: multiset<Record>)

  function Upsert(target: map<string, Data>, batch: seq<Record>): (t: map<string, Data>)
    decreases |batch|
  {
    if batch == [] then target
    else var last := batch[|batch| - 1]; Upsert(target, batch[..|batch| - 1])[last.id := last.data]
  }

  // ---------------------------------------------------------------- run state

  datatype ReaderPhase = Running | Draining | Returned

  /** One partition: its source goroutine, its channel and its reader. `held` is the record
      a running reader is about to send; a draining reader collects what it throws away. */
  datatype Lane = Lane(pid: string, unread: seq<Record>, sourceOpen: bool, sourceFailed: bool,
                       part: seq<Record>, held: seq<Record>, phase: ReaderPhase)

  datatype TransformerPhase = Collecting | Sending(last: bool) | Stopped

  datatype Transformer = Transformer(batch: seq<Record>, phase: TransformerPhase)

  /** The last offset and the number of records of one partition in a batch. */
  datatype Mark = Mark(offset: int, count: int)

  datatype Loaded = Loaded(pid: string, mark: Mark, checkpoint: Checkpoint)

  datatype WriterPhase =
    | Waiting
    | Writing(batch: seq<Record>)
    | Retrying(rest: seq<Record>)
    | Burying(rest: seq<Record>)
    | Marking(pending: map<string, Mark>, loaded: Option<Loaded>)
    | Quit

  datatype Writer = Writer(batches: nat, phase: WriterPhase)

  /** How records left this run: acknowledged by the target, dead-lettered, or lost
      because both the target and the dead-letter queue refused them. */
  datatype Ledger = Ledger(written: multiset<Record>, dead: multiset<Record>, dropped: multiset<Record>)

  /** A closer is true while its goroutine is still waiting to close its channel. */
  datatype State = State(lanes: seq<Lane>,
                         recordCh: seq<Record>, recordOpen: bool, recordCloser: bool,
                         transformers: seq<Transformer>,
                         batchCh: seq<seq<Record>>, batchOpen: bool, batchCloser: bool,
                         writers: seq<Writer>,
                         disk: Disk, ledger: Ledger,
                         cancelled: bool, failed: bool)

  // ---------------------------------------------------------------- marks

  /** What one batch says about each partition in it. */
  function Marks(batch: seq<Record>): (m: map<string, Mark>)
    ensures forall pid :: pid in m <==> exists r :: r in batch && r.pid == pid
  {
    if batch == [] then map[]
    else
      var front, last := batch[..|batch| - 1], batch[|batch| - 1];
      assert batch == front + [last];
      var m := Marks(front);
      m[last.pid := Mark(last.offset, (if last.pid in m then m[last.pid].count else 0) + 1)]
  }

  function Merge(loaded: Loaded): Checkpoint {
    loaded.checkpoint.(lastCommitted := Some(loaded.mark.offset),
                       rowsWritten := loaded.checkpoint.rowsWritten + loaded.mark.count)
  }

  // ---------------------------------------------------------------- steps inside one lane

  datatype LaneAction = SourceSend | SourceHandOver | SourceClose | SourceFail | Receive | Cancel

  /** The reader is blocked sending a record, with the context as the alternative. */
  predicate AtSend(l: Lane) { l.phase.Running? && l.held != [] }

  /** The reader is ranging over its partition's channel. */
  predicate CanReceive(l: Lane) { l.phase.Draining? || (l.phase.Running? && l.held == []) }

  predicate LaneEnabled(cfg: Config, cancelled: bool, l: Lane, a: LaneAction) {
    match a
    case SourceSend => l.sourceOpen && l.unread != [] && |l.part| < cfg.batchSize
    case SourceHandOver => l.sourceOpen && l.unread != [] && l.part == [] && CanReceive(l)
    case SourceClose => l.sourceOpen && l.unread == []
    case SourceFail => l.sourceOpen
    case Receive => l.part != [] && CanReceive(l)
    case Cancel => AtSend(l) && cancelled
  }

  function LaneApply(cfg: Config, cancelled: bool, l: Lane, a: LaneAction): Lane
    requires LaneEnabled(cfg, cancelled, l, a)
  {
    match a
    case SourceSend => l.(unread := l.unread[1..], part := l.part + [l.unread[0]])
    case SourceHandOver => l.(unread := l.unread[1..], held := l.held + [l.unread[0]])
    case SourceClose => l.(sourceOpen := false)
    case SourceFail => l.(sourceOpen := false, sourceFailed := true)
    case Receive => l.(part := l.part[1..], held := l.held + [l.part[0]])
    case Cancel => l.(phase := Draining)
  }

  // ---------------------------------------------------------------- steps of a busy writer

  datatype WriterAction =
    | WriteOk
    | WriteFail(applied: seq<Record>)
    | RetryOk
    | RetryFail(landed: bool)
    | DeadLetter(accepted: bool)
    | LoadCheckpoint(pid: string, readable: bool)
    | SaveCheckpoint(saved: bool)

  predicate WriterEnabled(cfg: Config, p: WriterPhase, a: WriterAction) {
    match a
    case WriteOk => p.Writing?
    case WriteFail(applied) => p.Writing? && forall r :: r in applied ==> r in p.batch
    case RetryOk => p.Retrying? && p.rest != []
    case RetryFail(_) => p.Retrying? && p.rest != []
    case DeadLetter(accepted) => p.Burying? && p.rest != []
      && (accepted ==> !cfg.dlq.Absent?) && (!accepted ==> !cfg.dlq.Reliable?)
    case LoadCheckpoint(pid, _) => p.Marking? && p.loaded.None? && pid in p.pending
    case SaveCheckpoint(_) => p.Marking? && p.loaded.Some?
  }

  function Retry(rest: seq<Record>): WriterPhase {
    if rest == [] then Waiting else Retrying(rest)
  }

  function StartMarking(pending: map<string, Mark>): WriterPhase {
    if pending == map[] then Waiting else Marking(pending, None)
  }

  /** One step of a writer with a batch: a write, a fallback write, a dead letter, or half
      of a checkpoint's read-modify-write. A failed write may have applied any of its rows. */
  function WriterApply(cfg: Config, w: Writer, disk: Disk, ledger: Ledger, a: WriterAction): (Writer, Disk, Ledger)
    requires WriterEnabled(cfg, w.phase, a)
  {
    match a
    case WriteOk =>
      var b, n := w.phase.batch, w.batches + 1;
      (Writer(n, if n % cfg.FlushEvery() == 0 then StartMarking(Marks(b)) else Waiting),
       disk.(target := Upsert(disk.target, b)),
       ledger.(written := ledger.written + multiset(b)))
    case WriteFail(applied) =>
      (w.(phase := Retry(w.phase.batch)), disk.(target := Upsert(disk.target, applied)), ledger)
    case RetryOk =>
      var rest := w.phase.rest;
      (w.(phase := Retry(rest[1..])),
       disk.(target := Upsert(disk.target, [rest[0]])),
       ledger.(written := ledger.written + multiset{rest[0]}))
    case RetryFail(landed) =>
      var rest := w.phase.rest;
      (w.(phase := Burying(rest)),
       if landed then disk.(target := Upsert(disk.target, [rest[0]])) else disk,
       ledger)
    case DeadLetter(accepted) =>
      var rest := w.phase.rest;
      (w.(phase := Retry(rest[1..])),
       if accepted then disk.(dlq := disk.dlq + multiset{rest[0]}) else disk,
       if accepted then ledger.(dead := ledger.dead + multiset{rest[0]})
       else ledger.(dropped := ledger.dropped + multiset{rest[0]}))
    case LoadCheckpoint(pid, readable) =>
      var pending := w.phase.pending;
      var found := if readable && pid in disk.store then disk.store[pid] else Checkpoint(InProgress, None, 0);
      (w.(phase := Marking(pending - {pid}, Some(Loaded(pid, pending[pid], found)))), disk, ledger)
    case SaveCheckpoint(saved) =>
      var l := w.phase.loaded.value;
      (w.(phase := StartMarking(w.phase.pending)),
       if saved then disk.(store := disk.store[l.pid := Merge(l)]) else disk,
       ledger)
  }

  // ---------------------------------------------------------------- actions

  datatype Action =
    | LaneStep(i: nat, act: LaneAction)
    | ReaderSend(i: nat)
    | ReaderHandOver(i: nat, j: nat)
    | ReaderReturn(i: nat)
    | CloseRecordCh
    | TransformerReceive(j: nat)
    | TransformerTick(j: nat)
    | TransformerSend(j: nat)
    | TransformerEnd(j: nat)
    | TransformerCancel(j: nat)
    | CloseBatchCh
    | WriterReceive(k: nat)
    | WriterStep(k: nat, wact: WriterAction)
    | WriterEnd(k: nat)
    | WriterCancel(k: nat)
    | CancelContext

  predicate AllReturned(s: State) { forall i :: 0 <= i < |s.lanes| ==> s.lanes[i].phase.Returned? }

  predicate AllStopped(s: State) { forall j :: 0 <= j < |s.transformers| ==> s.transformers[j].phase.Stopped? }

  predicate AllQuit(s: State) { forall k :: 0 <= k < |s.writers| ==> s.writers[k].phase.Quit? }

  /** When an action can happen. No guard of a send or a close asks whether the channel is
      still open: that none of them panics is a theorem. A hand-over is a send that meets a
      waiting receiver on an empty channel, which is how unbuffered channels work. */
  predicate Enabled(cfg: Config, s: State, a: Action) {
    match a
    case LaneStep(i, act) => i < |s.lanes| && LaneEnabled(cfg, s.cancelled, s.lanes[i], act)
    case ReaderSend(i) => i < |s.lanes| && AtSend(s.lanes[i]) && |s.recordCh| < cfg.RecordCapacity()
    case ReaderHandOver(i, j) => i < |s.lanes| && j < |s.transformers| && AtSend(s.lanes[i])
      && s.recordCh == [] && s.transformers[j].phase.Collecting?
    case ReaderReturn(i) => i < |s.lanes| && CanReceive(s.lanes[i]) && s.lanes[i].part == [] && !s.lanes[i].sourceOpen
    case CloseRecordCh => s.recordCloser && AllReturned(s)
    case TransformerReceive(j) => j < |s.transformers| && s.transformers[j].phase.Collecting? && s.recordCh != []
    case TransformerTick(j) => j < |s.transformers| && s.transformers[j].phase.Collecting?
      && s.transformers[j].batch != []
    case TransformerSend(j) => j < |s.transformers| && s.transformers[j].phase.Sending?
      && |s.batchCh| < cfg.BatchCapacity()
    case TransformerEnd(j) => j < |s.transformers| && s.transformers[j].phase.Collecting?
      && !s.recordOpen && s.recordCh == []
    case TransformerCancel(j) => j < |s.transformers| && s.transformers[j].phase.Collecting? && s.cancelled
    case CloseBatchCh => s.batchCloser && AllStopped(s)
    case WriterReceive(k) => k < |s.writers| && s.writers[k].phase.Waiting? && s.batchCh != []
    case WriterStep(k, wact) => k < |s.writers| && WriterEnabled(cfg, s.writers[k].phase, wact)
    case WriterEnd(k) => k < |s.writers| && s.writers[k].phase.Waiting? && !s.batchOpen && s.batchCh == []
    case WriterCancel(k) => k < |s.writers| && s.writers[k].phase.Waiting? && s.cancelled
    case CancelContext => !s.cancelled
  }

  function SetLane(s: State, i: nat, l: Lane): State
    requires i < |s.lanes|
  {
    s.(lanes := s.lanes[i := l])
  }

  function SetTransformer(s: State, j: nat, t: Transformer): State
    requires j < |s.transformers|
  {
    s.(transformers := s.transformers[j := t])
  }

  function SetWriter(s: State, k: nat, w: Writer): State
    requires k < |s.writers|
  {
    s.(writers := s.writers[k := w])
  }

  /** A transformer maps a record, appends it, and starts a flush once the batch is full. */
  function Collect(cfg: Config, t: Transformer, r: Record): Transformer {
    var batch := t.batch + [Mapped(cfg.mapper, r)];
    Transformer(batch, if |batch| >= cfg.batchSize then Sending(false) else Collecting)
  }

  function Apply(cfg: Config, s: State, a: Action): State
    requires Enabled(cfg, s, a)
  {
    match a
    case LaneStep(i, act) => SetLane(s, i, LaneApply(cfg, s.cancelled, s.lanes[i], act))
    case ReaderSend(i) =>
      var l := s.lanes[i];
      SetLane(s, i, l.(held := l.held[1..])).(recordCh := s.recordCh + [l.held[0]])
    case ReaderHandOver(i, j) =>
      var l := s.lanes[i];
      SetTransformer(SetLane(s, i, l.(held := l.held[1..])), j, Collect(cfg, s.transformers[j], l.held[0]))
    case ReaderReturn(i) =>
      var l := s.lanes[i];
      var bad := l.phase.Draining? || l.sourceFailed;
      SetLane(s, i, l.(phase := Returned)).(failed := s.failed || bad, cancelled := s.cancelled || bad)
    case CloseRecordCh => s.(recordOpen := false, recordCloser := false)
    case TransformerReceive(j) =>
      SetTransformer(s, j, Collect(cfg, s.transformers[j], s.recordCh[0])).(recordCh := s.recordCh[1..])
    case TransformerTick(j) => SetTransformer(s, j, s.transformers[j].(phase := Sending(false)))
    case TransformerSend(j) =>
      var t := s.transformers[j];
      SetTransformer(s, j, Transformer([], if t.phase.last then Stopped else Collecting))
        .(batchCh := s.batchCh + [t.batch])
    case TransformerEnd(j) =>
      var t := s.transformers[j];
      SetTransformer(s, j, t.(phase := if t.batch == [] then Stopped else Sending(true)))
    case TransformerCancel(j) => SetTransformer(s, j, s.transformers[j].(phase := Stopped)).(failed := true)
    case CloseBatchCh => s.(batchOpen := false, batchCloser := false)
    case WriterReceive(k) =>
      SetWriter(s, k, s.writers[k].(phase := Writing(s.batchCh[0]))).(batchCh := s.batchCh[1..])
    case WriterStep(k, wact) =>
      var (w, disk, ledger) := WriterApply(cfg, s.writers[k], s.disk, s.ledger, wact);
      SetWriter(s, k, w).(disk := disk, ledger := ledger)
    case WriterEnd(k) => SetWriter(s, k, s.writers[k].(phase := Quit))
    case WriterCancel(k) => SetWriter(s, k, s.writers[k].(phase := Quit)).(failed := true)
    case CancelContext => s.(cancelled := true)
  }

  /** All goroutines of the errgroup have returned, so Migrate returns; it returns nil iff !failed. */
  predicate Final(s: State) { AllReturned(s) && AllStopped(s) && AllQuit(s) }

  // ---------------------------------------------------------------- start of a run

  /** A table row: its record id, its partitioning key and its columns. */
  datatype Row = Row(id: string, key: int, data: Data)

  /** A half-open key range; an absent bound is open. */
  datatype Partition = Partition(id: string, start: Option<int>, end: Option<int>)
  {
    predicate Holds(key: int) {
      (start.Some? ==> start.value <= key) && (end.Some? ==> key < end.value)
    }
  }

  /** The records ReadPartition has to deliver for a partition. */
  function Read(p: Partition, table: seq<Row>): (rs: seq<Record>)
    ensures forall r :: r in rs <==>
        exists row :: row in table && p.Holds(row.key) && r == Record(row.id, p.id, row.key, row.data)
  {
    if table == [] then []
    else
      var rest := Read(p, table[1..]);
      assert forall row :: row in table <==> row == table[0] || row in table[1..];
      if p.Holds(table[0].key) then [Record(table[0].id, p.id, table[0].key, table[0].data)] + rest else rest
  }

  /** The resume filter: completed partitions are skipped, others start at their last offset. */
  function Resume(all: seq<Partition>, store: map<string, Checkpoint>): (ps: seq<Partition>) {
    if all == [] then []
    else
      var p, rest := all[0], Resume(all[1..], store);
      if p.id !in store then [p] + rest
      else if store[p.id].status.Done? then rest
      else if store[p.id].lastCommitted.Some? then [p.(start := store[p.id].lastCommitted)] + rest
      else [p] + rest
  }

  /** A fresh run over the selected partitions. A source may deliver a partition in any
      order; the properties that need an order say so. `listed` is false when reading the
      checkpoints failed, an error Migrate ignores. */
  ghost predicate Init(cfg: Config, table: seq<Row>, all: seq<Partition>, listed: bool, disk: Disk, s: State) {
    var chosen := Resume(all, if listed then disk.store else map[]);
    && |s.lanes| == |chosen|
    && (forall i :: 0 <= i < |chosen| ==>
          && s.lanes[i] == Lane(chosen[i].id, s.lanes[i].unread, true, false, [], [], Running)
          && multiset(s.lanes[i].unread) == multiset(Read(chosen[i], table)))
    && s == State(s.lanes, [], true, true, seq(cfg.numTransformers, _ => Transformer([], Collecting)),
                  [], true, true, seq(cfg.numWriters, _ => Writer(0, Waiting)),
                  disk, Ledger(multiset{}, multiset{}, multiset{}), false, false)
  }

  /** A run: each state follows from the one before by an action. */
  ghost predicate Steps(cfg: Config, run: seq<State>) {
    forall n :: 0 < n < |run| ==> StepAt(cfg, run, n)
  }

  ghost predicate StepAt(cfg: Config, run: seq<State>, n: nat)
    requires 0 < n < |run|
  {
    Next(cfg, run[n - 1], run[n])
  }

  ghost predicate Next(cfg: Config, s: State, t: State) {
    exists a :: Enabled(cfg, s, a) && t == Apply(cfg, s, a)
  }

  /** A run of Migrate that may stop anywhere. */
  ghost predicate Runs(cfg: Config, table: seq<Row>, all: seq<Partition>, listed: bool, disk: Disk, run: seq<State>) {
    run != [] && Steps(cfg, run) && Init(cfg, table, all, listed, disk, run[0])
  }

  /** One that has come to a nil return. */
  ghost predicate Completes(cfg: Config, table: seq<Row>, all: seq<Partition>, listed: bool, disk: Disk,
                            run: seq<State>) {
    Runs(cfg, table, all, listed, disk, run) && Final(End(run)) && !End(run).failed
  }

  function End(run: seq<State>): State
    requires run != []
  {
    run[|run| - 1]
  }
}
