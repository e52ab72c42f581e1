/** Exactly when the checkpoints are low-water marks: with one transformer, one writer and a
    dead-letter queue that accepts its writes. For every other configuration that can write at
    all there is a table and a run whose checkpoint passes a record that is nowhere. */
module PipelineMark {
  import opened Common
  import opened SchemaMapper
  import opened Pipeline
  import opened PipelineSafety
  import opened PipelineOutcome
  import opened PipelineResume
  import opened PipelineBuild
  import Decimal

  // ---------------------------------------------------------------- the table

  const WHOLE := Partition("p", None, None)

  function Rec(i: nat): Record { Record(Decimal.Print(i), "p", i, map[]) }

  function Recs(from: nat, end: nat): (rs: seq<Record>)
    requires from <= end
    ensures |rs| == end - from && forall i :: 0 <= i < |rs| ==> rs[i] == Rec(from + i)
  {
    seq(end - from, i requires 0 <= i => Rec(from + i))
  }

  function Rows(from: nat, end: nat): (rows: seq<Row>)
    requires from <= end
    ensures |rows| == end - from && forall i :: 0 <= i < |rows| ==>
        rows[i] == Row(Decimal.Print(from + i), from + i, map[])
  {
    seq(end - from, i requires 0 <= i => Row(Decimal.Print(from + i), from + i, map[]))
  }

  lemma {:induction false} ReadAll(from: nat, end: nat)
    requires from <= end
    ensures Read(WHOLE, Rows(from, end)) == Recs(from, end)
    decreases end - from
  {
    if from < end {
      ReadAll(from + 1, end);
      FirstRow(from, end);
      ReadFirst(Rows(from, end));
    }
  }

  lemma FirstRow(from: nat, end: nat)
    requires from < end
    ensures Rows(from, end)[1..] == Rows(from + 1, end)
    ensures Recs(from, end) == [Rec(from)] + Recs(from + 1, end)
  {
  }

  lemma {:induction false} ReadFirst(rows: seq<Row>)
    requires rows != []
    ensures Read(WHOLE, rows) == [Record(rows[0].id, "p", rows[0].key, rows[0].data)] + Read(WHOLE, rows[1..])
  {
  }

  // ---------------------------------------------------------------- runs over that table

  /** A fresh start on the table of n + 1 rows. */
  function Start(cfg: Config, n: nat): State {
    State([Lane("p", Recs(0, n + 1), true, false, [], [], Running)], [], true, true,
          seq(cfg.numTransformers, _ => Transformer([], Collecting)), [], true, true,
          seq(cfg.numWriters, _ => Writer(0, Waiting)),
          EMPTY, Ledger(multiset{}, multiset{}, multiset{}), false, false)
  }

  lemma StartIsFresh(cfg: Config, n: nat)
    ensures Init(cfg, Rows(0, n + 1), [WHOLE], true, EMPTY, Start(cfg, n)) && Sorted(Start(cfg, n))
  {
    FreshSelectsAll([WHOLE]);
    ReadAll(0, n + 1);
    assert Selected([WHOLE], true, EMPTY) == [WHOLE];
  }

  /** Records from k on are unread and nothing is under way before the transformers;
      transformer b and writer w are free, and w has written some batches. */
  predicate Free(s: State, n: nat, k: nat, b: nat, w: nat, batches: nat)
    requires k <= n + 1
  {
    && s.lanes == [Lane("p", Recs(k, n + 1), true, false, [], [], Running)] && s.recordCh == [] && s.batchCh == []
    && b < |s.transformers| && s.transformers[b] == Transformer([], Collecting)
    && w < |s.writers| && s.writers[w] == Writer(batches, Waiting)
  }

  /** The first record is nowhere on the disk, and nothing is checkpointed. */
  predicate Missing(disk: Disk) {
    Decimal.Print(0) !in disk.target && disk.dlq == multiset{} && disk.store == map[]
  }

  lemma NextUnread(n: nat, k: nat)
    requires k <= n
    ensures Recs(k, n + 1)[0] == Rec(k) && Recs(k, n + 1)[1..] == Recs(k + 1, n + 1)
  {
  }

  /** Record k goes through transformer b into the hand of writer w. */
  lemma Through(cfg: Config, n: nat, run: seq<State>, k: nat, b: nat, w: nat, batches: nat) returns (longer: seq<State>)
    requires k <= n && Leads(cfg, Start(cfg, n), run) && Free(End(run), n, k, b, w, batches) && cfg.numWriters > 0
    ensures Leads(cfg, Start(cfg, n), longer)
    ensures var s := End(run);
      End(longer) == s.(lanes := [Lane("p", Recs(k + 1, n + 1), true, false, [], [], Running)],
                        writers := s.writers[w := Writer(batches, Writing([Mapped(cfg.mapper, Rec(k))]))])
  {
    NextUnread(n, k);
    longer := Hand(cfg, Start(cfg, n), run, 0, b);
    longer := Deliver(cfg, Start(cfg, n), longer, b, w);
    assert End(longer).transformers == End(run).transformers;
  }

  lemma Remainders(k: nat, n: nat)
    requires 0 < k <= n
    ensures k % n == 0 <==> k == n
  {
  }

  /** Record k goes through and is written; the writer does not mark yet. */
  lemma WriteNext(cfg: Config, n: nat, run: seq<State>, b: nat, w: nat, k: nat) returns (longer: seq<State>)
    requires 0 < k < cfg.FlushEvery() == n && cfg.numWriters > 0
    requires Leads(cfg, Start(cfg, n), run) && Free(End(run), n, k, b, w, k - 1) && Missing(End(run).disk)
    ensures Leads(cfg, Start(cfg, n), longer) && Free(End(longer), n, k + 1, b, w, k) && Missing(End(longer).disk)
  {
    longer := Through(cfg, n, run, k, b, w, k - 1);
    longer := WriteHeld(cfg, Start(cfg, n), longer, w, Mapped(cfg.mapper, Rec(k)));
    Remainders(k, n);
    Decimal.PrintInjective(0, k);
  }

  /** Records 1 to k go through transformer b and writer w, one batch each. */
  lemma {:induction false} WriteUpTo(cfg: Config, n: nat, run: seq<State>, b: nat, w: nat, k: nat)
    returns (longer: seq<State>)
    requires k < cfg.FlushEvery() == n && cfg.numWriters > 0
    requires Leads(cfg, Start(cfg, n), run) && Free(End(run), n, 1, b, w, 0) && Missing(End(run).disk)
    ensures Leads(cfg, Start(cfg, n), longer) && Free(End(longer), n, k + 1, b, w, k) && Missing(End(longer).disk)
    decreases k
  {
    if k == 0 {
      longer := run;
    } else {
      longer := WriteUpTo(cfg, n, run, b, w, k - 1);
      longer := WriteNext(cfg, n, longer, b, w, k);
    }
  }

  /** The checkpoint has passed the first record, which is nowhere. */
  predicate Passed(disk: Disk, n: nat) {
    && Decimal.Print(0) !in disk.target && disk.dlq == multiset{}
    && "p" in disk.store && disk.store["p"].lastCommitted == Some(n)
  }

  /** The last record completes the count and is checkpointed. */
  lemma WriteAndMark(cfg: Config, n: nat, run: seq<State>, b: nat, w: nat) returns (longer: seq<State>)
    requires cfg.FlushEvery() == n && cfg.numWriters > 0
    requires Leads(cfg, Start(cfg, n), run) && Free(End(run), n, n, b, w, n - 1) && Missing(End(run).disk)
    ensures Leads(cfg, Start(cfg, n), longer) && Passed(End(longer).disk, n)
  {
    longer := Through(cfg, n, run, n, b, w, n - 1);
    longer := WriteHeld(cfg, Start(cfg, n), longer, w, Mapped(cfg.mapper, Rec(n)));
    Remainders(n, n);
    Decimal.PrintInjective(0, n);
    longer := MarkHeld(cfg, Start(cfg, n), longer, w, "p", Mark(n, 1));
  }

  // ---------------------------------------------------------------- one record aside

  /** The ways in which the first record can be left behind while a transformer b and a
      writer w go on. */
  lemma SetAside(cfg: Config, n: nat) returns (run: seq<State>, b: nat, w: nat)
    requires cfg.numTransformers > 0 && cfg.numWriters > 0
    requires cfg.numTransformers > 1 || cfg.numWriters > 1 || !cfg.dlq.Reliable?
    ensures Leads(cfg, Start(cfg, n), run) && Free(End(run), n, 1, b, w, 0) && Missing(End(run).disk)
  {
    run := Stand(cfg, Start(cfg, n));
    NextUnread(n, 0);
    assert Free(End(run), n, 0, 0, 0, 0);
    b := if cfg.numTransformers > 1 then 1 else 0;
    w := if cfg.numTransformers == 1 && cfg.numWriters > 1 then 1 else 0;
    if cfg.numTransformers > 1 {
      run := Hand(cfg, Start(cfg, n), run, 0, 0);
    } else {
      run := Through(cfg, n, run, 0, 0, 0, 0);
      if cfg.numWriters == 1 {
        run := DropHeld(cfg, n, run, Mapped(cfg.mapper, Rec(0)));
      }
    }
  }

  /** A record that neither the target nor the dead-letter queue takes. */
  lemma DropHeld(cfg: Config, n: nat, run: seq<State>, r: Record) returns (longer: seq<State>)
    requires Leads(cfg, Start(cfg, n), run) && !cfg.dlq.Reliable?
    requires End(run).writers != [] && End(run).writers[0] == Writer(0, Writing([r]))
    ensures Leads(cfg, Start(cfg, n), longer)
    ensures var s, t := End(run), End(longer);
      t == s.(writers := s.writers[0 := Writer(0, Waiting)], ledger := t.ledger)
  {
    longer := Extend(cfg, Start(cfg, n), run, WriterStep(0, WriteFail([])));
    longer := Extend(cfg, Start(cfg, n), longer, WriterStep(0, RetryFail(false)));
    longer := Extend(cfg, Start(cfg, n), longer, WriterStep(0, DeadLetter(false)));
    assert [r][1..] == [];
  }

  // ---------------------------------------------------------------- the theorem

  /** Every run from an empty disk over distinct partitions, read in order, has low-water marks. */
  ghost predicate AlwaysMarks(cfg: Config) {
    forall table, all, listed, run :: DistinctIds(all) && OrderedRun(cfg, table, all, listed, run) ==>
        DiskOk(cfg.mapper, table, all, End(run).disk)
  }

  /** From an empty disk, and with sources that deliver in ascending order. */
  ghost predicate OrderedRun(cfg: Config, table: seq<Row>, all: seq<Partition>, listed: bool, run: seq<State>) {
    Runs(cfg, table, all, listed, EMPTY, run) && Sorted(run[0])
  }

  lemma Overtaken(cfg: Config) returns (n: nat, run: seq<State>)
    requires cfg.numTransformers > 0 && cfg.numWriters > 0
    requires cfg.numTransformers > 1 || cfg.numWriters > 1 || !cfg.dlq.Reliable?
    ensures OrderedRun(cfg, Rows(0, n + 1), [WHOLE], true, run)
    ensures !DiskOk(cfg.mapper, Rows(0, n + 1), [WHOLE], End(run).disk)
  {
    n := cfg.FlushEvery();
    var b, w;
    run, b, w := SetAside(cfg, n);
    run := WriteUpTo(cfg, n, run, b, w, n - 1);
    run := WriteAndMark(cfg, n, run, b, w);
    StartIsFresh(cfg, n);
    NotLowWater(cfg.mapper, n, End(run).disk);
  }

  lemma NotLowWater(m: Option<Mapper>, n: nat, disk: Disk)
    requires n > 0 && Passed(disk, n)
    ensures !DiskOk(m, Rows(0, n + 1), [WHOLE], disk)
  {
    ReadAll(0, n + 1);
    assert Recs(0, n + 1)[0] == Rec(0);
    assert WHOLE in [WHOLE] && Rec(0) in Read(WHOLE, Rows(0, n + 1)) && !Settled(disk, Mapped(m, Rec(0)));
    assert !SettledBelow(m, Rows(0, n + 1), [WHOLE], disk, "p", n);
    assert !CheckpointOk(m, Rows(0, n + 1), [WHOLE], disk, "p", disk.store["p"]);
  }

  // ---------------------------------------------------------------- pipelines that write nothing

  ghost predicate Inert(s: State) { s.disk == EMPTY && (s.writers == [] || Idle(s)) }

  lemma NextInert(cfg: Config, s: State, t: State)
    requires |t.writers| == |s.writers| && Next(cfg, s, t) && Inert(s)
    ensures Inert(t)
  {
    var a :| Enabled(cfg, s, a) && t == Apply(cfg, s, a);
    StepKeepsDisk(cfg, s, a);
    if Idle(s) {
      StepIdle(cfg, s, a);
    }
  }

  lemma RunWriters(cfg: Config, table: seq<Row>, all: seq<Partition>, listed: bool, run: seq<State>, n: nat)
    requires OrderedRun(cfg, table, all, listed, run) && n < |run|
    ensures |run[n].writers| == cfg.numWriters
  {
    RunInv(cfg, table, all, listed, EMPTY, run, n);
  }

  lemma InertAt(cfg: Config, run: seq<State>, n: nat)
    requires Steps(cfg, run) && 0 < n < |run| && |run[n].writers| == |run[n - 1].writers| && Inert(run[n - 1])
    ensures Inert(run[n])
  {
    assert StepAt(cfg, run, n);
    NextInert(cfg, run[n - 1], run[n]);
  }

  /** Without transformers or without writers no checkpoint is ever written. */
  lemma InertRun(cfg: Config, table: seq<Row>, all: seq<Partition>, listed: bool, run: seq<State>)
    requires OrderedRun(cfg, table, all, listed, run) && (cfg.numTransformers == 0 || cfg.numWriters == 0)
    ensures End(run).disk == EMPTY
  {
    forall i | 0 < i <= |run| - 1 && Inert(run[i - 1]) ensures Inert(run[i]) {
      RunWriters(cfg, table, all, listed, run, i - 1);
      RunWriters(cfg, table, all, listed, run, i);
      InertAt(cfg, run, i);
    }
    Always(run, |run| - 1, Inert);
  }

  /** For every configuration, whatever its batch size, its number of readers and its checkpoint
      frequency: checkpoints are low-water marks in all runs if and only if there is at most
      one transformer and one writer and a dead-letter queue that does not fail, or nothing
      can be written at all. */
  lemma LowWaterMarkIff(cfg: Config)
    ensures AlwaysMarks(cfg) <==>
      || cfg.numTransformers == 0 || cfg.numWriters == 0
      || (cfg.numTransformers == 1 && cfg.numWriters == 1 && cfg.dlq.Reliable?)
  {
    if cfg.numTransformers == 0 || cfg.numWriters == 0 {
      forall table, all, listed, run | DistinctIds(all) && OrderedRun(cfg, table, all, listed, run)
        ensures DiskOk(cfg.mapper, table, all, End(run).disk)
      {
        InertRun(cfg, table, all, listed, run);
      }
    } else if cfg.numTransformers == 1 && cfg.numWriters == 1 && cfg.dlq.Reliable? {
      forall table, all, listed, run | DistinctIds(all) && OrderedRun(cfg, table, all, listed, run)
        ensures DiskOk(cfg.mapper, table, all, End(run).disk)
      {
        RunQueued(cfg, table, all, listed, EMPTY, run, |run| - 1);
      }
    } else {
      var n, run := Overtaken(cfg);
      assert DistinctIds([WHOLE]);
    }
  }
}
