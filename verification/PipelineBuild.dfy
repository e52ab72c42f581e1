/** Building runs step by step. */
module PipelineBuild {
  import opened Common
  import opened SchemaMapper
  import opened Pipeline
  import opened PipelineOrder

  /** A run from a given state. */
  ghost predicate Leads(cfg: Config, start: State, run: seq<State>) {
    run != [] && run[0] == start && Steps(cfg, run)
  }

  lemma Stand(cfg: Config, start: State) returns (run: seq<State>)
    ensures Leads(cfg, start, run) && End(run) == start
  {
    run := [start];
  }

  lemma Extend(cfg: Config, start: State, run: seq<State>, a: Action) returns (longer: seq<State>)
    requires Leads(cfg, start, run) && Enabled(cfg, End(run), a)
    ensures Leads(cfg, start, longer) && longer == run + [Apply(cfg, End(run), a)]
  {
    longer := run + [Apply(cfg, End(run), a)];
    forall k | 0 < k < |longer| ensures StepAt(cfg, longer, k) {
      if k < |run| {
        assert StepAt(cfg, run, k);
      } else {
        assert Next(cfg, longer[k - 1], longer[k]);
      }
    }
  }

  // ---------------------------------------------------------------- one record at a time

  /** A lane with nothing under way between its source and the transformers. */
  predicate CalmLane(l: Lane) { l == Lane(l.pid, l.unread, true, false, [], [], Running) }

  predicate Calm(s: State) {
    s.recordCh == [] && forall i :: 0 <= i < |s.lanes| ==> CalmLane(s.lanes[i])
  }

  function Advanced(l: Lane): Lane
    requires l.unread != []
  {
    l.(unread := l.unread[1..])
  }

  /** A source hands its next record over, and so does the reader. */
  lemma HandOver(cfg: Config, start: State, run: seq<State>, i: nat, b: nat) returns (longer: seq<State>)
    requires Leads(cfg, start, run) && Calm(End(run)) && i < |End(run).lanes| && End(run).lanes[i].unread != []
    requires b < |End(run).transformers| && End(run).transformers[b] == Transformer([], Collecting)
    ensures Leads(cfg, start, longer) && Calm(End(longer))
    ensures var s := End(run);
      End(longer) == s.(lanes := s.lanes[i := Advanced(s.lanes[i])],
                        transformers := s.transformers[b := Collect(cfg, s.transformers[b], s.lanes[i].unread[0])])
  {
    var l := End(run).lanes[i];
    var x := l.unread[0];
    assert CalmLane(l);
    assert [] + [x] == [x] && [x][1..] == [];
    longer := Extend(cfg, start, run, LaneStep(i, SourceHandOver));
    assert End(longer).lanes[i] == Lane(l.pid, l.unread[1..], true, false, [], [x], Running);
    longer := Extend(cfg, start, longer, ReaderHandOver(i, b));
    assert End(longer).lanes == End(run).lanes[i := Advanced(l)];
  }

  /** The next record of lane i goes to transformer b, which begins a flush with it alone. */
  lemma Hand(cfg: Config, start: State, run: seq<State>, i: nat, b: nat) returns (longer: seq<State>)
    requires Leads(cfg, start, run) && Calm(End(run)) && i < |End(run).lanes| && End(run).lanes[i].unread != []
    requires b < |End(run).transformers| && End(run).transformers[b] == Transformer([], Collecting)
    ensures Leads(cfg, start, longer) && Calm(End(longer))
    ensures var s := End(run);
      var batch := [Mapped(cfg.mapper, s.lanes[i].unread[0])];
      End(longer) == s.(lanes := s.lanes[i := Advanced(s.lanes[i])],
                        transformers := s.transformers[b := Transformer(batch, Sending(false))])
  {
    var x := Mapped(cfg.mapper, End(run).lanes[i].unread[0]);
    assert [] + [x] == [x];
    longer := HandOver(cfg, start, run, i, b);
    if End(longer).transformers[b].phase.Collecting? {
      longer := Extend(cfg, start, longer, TransformerTick(b));
    }
  }

  /** Its flush goes through the channel to a waiting writer. */
  lemma Deliver(cfg: Config, start: State, run: seq<State>, b: nat, w: nat) returns (longer: seq<State>)
    requires Leads(cfg, start, run) && End(run).batchCh == [] && cfg.numWriters > 0
    requires b < |End(run).transformers| && End(run).transformers[b].phase == Sending(false)
    requires w < |End(run).writers| && End(run).writers[w].phase.Waiting?
    ensures Leads(cfg, start, longer)
    ensures var s := End(run);
      End(longer) == s.(transformers := s.transformers[b := Transformer([], Collecting)],
                        writers := s.writers[w := s.writers[w].(phase := Writing(s.transformers[b].batch))])
  {
    var batch := End(run).transformers[b].batch;
    longer := Extend(cfg, start, run, TransformerSend(b));
    assert [] + [batch] == [batch] && [batch][1..] == [];
    longer := Extend(cfg, start, longer, WriterReceive(w));
  }

  lemma {:induction false} UpsertOne(target: map<string, Data>, r: Record)
    ensures Upsert(target, [r]) == target[r.id := r.data]
  {
    assert [r][..0] == [];
  }

  /** What a writer does after its n-th batch, when that was one record. */
  function AfterWriting(cfg: Config, n: nat, r: Record): Writer {
    Writer(n, if n % cfg.FlushEvery() == 0 then Marking(map[r.pid := Mark(r.offset, 1)], None) else Waiting)
  }

  /** A writer that holds one record writes it. */
  lemma WriteHeld(cfg: Config, start: State, run: seq<State>, w: nat, r: Record) returns (longer: seq<State>)
    requires Leads(cfg, start, run) && w < |End(run).writers| && End(run).writers[w].phase == Writing([r])
    ensures Leads(cfg, start, longer)
    ensures var s := End(run);
      End(longer) == s.(writers := s.writers[w := AfterWriting(cfg, s.writers[w].batches + 1, r)],
                        disk := s.disk.(target := s.disk.target[r.id := r.data]),
                        ledger := s.ledger.(written := s.ledger.written + multiset([r])))
  {
    UpsertOne(End(run).disk.target, r);
    assert [r][..0] == [];
    assert Marks([r]) == map[r.pid := Mark(r.offset, 1)];
    longer := Extend(cfg, start, run, WriterStep(w, WriteOk));
  }

  /** A writer with one mark stores it. */
  lemma MarkHeld(cfg: Config, start: State, run: seq<State>, w: nat, pid: string, mark: Mark)
    returns (longer: seq<State>)
    requires Leads(cfg, start, run) && w < |End(run).writers|
    requires End(run).writers[w].phase == Marking(map[pid := mark], None)
    ensures Leads(cfg, start, longer)
    ensures var d, e := End(run).disk, End(longer).disk;
      && e == d.(store := e.store) && e.store.Keys == d.store.Keys + {pid}
      && e.store[pid].lastCommitted == Some(mark.offset)
  {
    longer := Extend(cfg, start, run, WriterStep(w, LoadCheckpoint(pid, true)));
    assert map[pid := mark] - {pid} == map[];
    longer := Extend(cfg, start, longer, WriterStep(w, SaveCheckpoint(true)));
  }

  // ---------------------------------------------------------------- fresh states

  function Insert(r: Record, rs: seq<Record>): seq<Record> {
    if rs == [] || r.offset <= rs[0].offset then [r] + rs else [rs[0]] + Insert(r, rs[1..])
  }

  function Sort(rs: seq<Record>): seq<Record> { if rs == [] then [] else Insert(rs[0], Sort(rs[1..])) }

  lemma {:induction false} InsertBag(r: Record, rs: seq<Record>)
    ensures multiset(Insert(r, rs)) == multiset{r} + multiset(rs)
  {
    if rs != [] && r.offset > rs[0].offset {
      InsertBag(r, rs[1..]);
      assert rs == [rs[0]] + rs[1..];
    }
  }

  lemma ConsAscending(x: Record, rs: seq<Record>)
    requires Ascending(rs) && AtLeast(rs, x.offset)
    ensures Ascending([x] + rs)
  {
  }

  lemma {:induction false} InsertSorts(r: Record, rs: seq<Record>)
    requires Ascending(rs)
    ensures Ascending(Insert(r, rs)) && multiset(Insert(r, rs)) == multiset{r} + multiset(rs)
  {
    InsertBag(r, rs);
    if rs == [] || r.offset <= rs[0].offset {
      ConsAscending(r, rs);
    } else {
      InsertSorts(r, rs[1..]);
      forall x | x in Insert(r, rs[1..]) ensures x.offset >= rs[0].offset {
        assert x in multiset(Insert(r, rs[1..]));
        assert x == r || x in rs[1..];
      }
      ConsAscending(rs[0], Insert(r, rs[1..]));
    }
  }

  lemma {:induction false} SortSorts(rs: seq<Record>)
    ensures Ascending(Sort(rs)) && multiset(Sort(rs)) == multiset(rs)
  {
    if rs != [] {
      SortSorts(rs[1..]);
      InsertSorts(rs[0], Sort(rs[1..]));
      assert rs == [rs[0]] + rs[1..];
    }
  }

  function FreshLanes(ps: seq<Partition>, table: seq<Row>): (lanes: seq<Lane>)
    ensures |lanes| == |ps|
    ensures forall i :: 0 <= i < |ps| ==>
        lanes[i] == Lane(ps[i].id, Sort(Read(ps[i], table)), true, false, [], [], Running)
  {
    seq(|ps|, i requires 0 <= i < |ps| => Lane(ps[i].id, Sort(Read(ps[i], table)), true, false, [], [], Running))
  }

  /** A start in which every source delivers in ascending order. */
  function FreshState(cfg: Config, table: seq<Row>, ps: seq<Partition>, disk: Disk): State {
    State(FreshLanes(ps, table), [], true, true, seq(cfg.numTransformers, _ => Transformer([], Collecting)),
          [], true, true, seq(cfg.numWriters, _ => Writer(0, Waiting)),
          disk, Ledger(multiset{}, multiset{}, multiset{}), false, false)
  }

  lemma FreshIsInit(cfg: Config, table: seq<Row>, all: seq<Partition>, listed: bool, disk: Disk)
    ensures var s := FreshState(cfg, table, Resume(all, if listed then disk.store else map[]), disk);
      && Init(cfg, table, all, listed, disk, s) && Calm(s)
      && (forall i :: 0 <= i < |s.lanes| ==> Ascending(s.lanes[i].unread))
  {
    var ps := Resume(all, if listed then disk.store else map[]);
    forall i | 0 <= i < |ps|
      ensures multiset(Sort(Read(ps[i], table))) == multiset(Read(ps[i], table)) && Ascending(Sort(Read(ps[i], table)))
    {
      SortSorts(Read(ps[i], table));
    }
  }
}
