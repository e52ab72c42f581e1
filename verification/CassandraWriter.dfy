/** Writing a batch to Cassandra in unlogged sub-batches. */
module CassandraWriter {
  import opened SchemaMapper
  import opened Pipeline

  const MAX_BATCH_SIZE := 100

  /** What one ExecuteBatch does: it applies everything, or fails after applying some rows. */
  datatype Outcome = Applied | Failed(landed: Record -> bool)

  function Landed(rows: seq<Record>, o: Outcome): (r: seq<Record>)
    ensures forall x :: x in r ==> x in rows
    ensures o.Applied? ==> r == rows
  {
    if o.Applied? || rows == [] then rows
    else (if o.landed(rows[0]) then [rows[0]] else []) + Landed(rows[1..], o)
  }

  lemma {:induction false} UpsertConcat(target: map<string, Data>, a: seq<Record>, b: seq<Record>)
    ensures Upsert(Upsert(target, a), b) == Upsert(target, a + b)
    decreases |b|
  {
    if b == [] {
      assert a + b == a;
    } else {
      assert (a + b)[..|a + b| - 1] == a + b[..|b| - 1];
      UpsertConcat(target, a, b[..|b| - 1]);
    }
  }

  function Min(a: int, b: int): int { if a < b then a else b }

  /** The sub-batch that starts at a position. */
  function SubBatch(batch: seq<Record>, i: nat): seq<Record>
    requires i <= |batch|
  {
    batch[i..Min(i + MAX_BATCH_SIZE, |batch|)]
  }

  /** The rows of a batch that reach the target: whole sub-batches up to the first failing
      one, and of that one whatever landed. `outcomes` says how the call for the sub-batch
      that starts at a position ends. */
  function Reached(batch: seq<Record>, i: nat, outcomes: nat -> Outcome): seq<Record>
    requires i <= |batch|
    decreases |batch| - i
  {
    if i == |batch| then []
    else
      var sub, o := SubBatch(batch, i), outcomes(i);
      Landed(sub, o) + if o.Applied? then Reached(batch, Min(i + MAX_BATCH_SIZE, |batch|), outcomes) else []
  }

  /** The number of records in whole sub-batches before the first failing one. */
  function Written(batch: seq<Record>, i: nat, outcomes: nat -> Outcome): nat
    requires i <= |batch|
    decreases |batch| - i
  {
    if i == |batch| || outcomes(i).Failed? then i else Written(batch, Min(i + MAX_BATCH_SIZE, |batch|), outcomes)
  }

  lemma BetweenMultiples(i: nat, j: nat)
    requires i % MAX_BATCH_SIZE == 0 && i < j < i + MAX_BATCH_SIZE
    ensures j % MAX_BATCH_SIZE == j - i
  {
    assert i == MAX_BATCH_SIZE * (i / MAX_BATCH_SIZE);
  }

  lemma NextMultiple(i: nat)
    requires i % MAX_BATCH_SIZE == 0
    ensures (i + MAX_BATCH_SIZE) % MAX_BATCH_SIZE == 0
  {
  }

  class Session {
    var target: map<string, Data>

    constructor ()
      ensures target == map[]
    {
      target := map[];
    }

    method ExecuteBatch(rows: seq<Record>, o: Outcome) returns (ok: bool)
      modifies this
      ensures ok == o.Applied? && target == Upsert(old(target), Landed(rows, o))
    {
      ok := o.Applied?;
      target := Upsert(target, Landed(rows, o));
    }

    /** On failure, the count is what the sub-batches before the failing one wrote. */
    method WriteBatch(batch: seq<Record>, outcomes: nat -> Outcome) returns (written: nat, ok: bool)
      modifies this
      ensures target == Upsert(old(target), Reached(batch, 0, outcomes))
      ensures written == Written(batch, 0, outcomes) && (ok <==> written == |batch|)
    {
      var i := 0;
      written, ok := 0, true;
      while i < |batch| && ok
        invariant i <= |batch| && written == i && Written(batch, i, outcomes) == Written(batch, 0, outcomes)
        invariant ok ==> Upsert(target, Reached(batch, i, outcomes)) == Upsert(old(target), Reached(batch, 0, outcomes))
        invariant !ok ==>
            i < |batch| && outcomes(i).Failed? && target == Upsert(old(target), Reached(batch, 0, outcomes))
        decreases |batch| - i, ok
      {
        var end := Min(i + MAX_BATCH_SIZE, |batch|);
        var o := outcomes(i);
        ghost var rest := if o.Applied? then Reached(batch, end, outcomes) else [];
        UpsertConcat(target, Landed(SubBatch(batch, i), o), rest);
        assert Landed(SubBatch(batch, i), o) + [] == Landed(SubBatch(batch, i), o);
        ok := ExecuteBatch(batch[i..end], o);
        if ok {
          written := written + |batch[i..end]|;
          i := end;
        }
      }
    }
  }

  /** The count is where the first failing sub-batch starts, or the whole batch. */
  lemma {:induction false} WrittenIsFirstFailure(batch: seq<Record>, i: nat, outcomes: nat -> Outcome)
    requires i <= |batch| && (i < |batch| ==> i % 100 == 0)
    ensures var n := Written(batch, i, outcomes);
      && i <= n <= |batch|
      && (n < |batch| ==> n % 100 == 0 && outcomes(n).Failed?)
      && (forall j :: i <= j < n && j % 100 == 0 ==> outcomes(j).Applied?)
    decreases |batch| - i
  {
    if i < |batch| && outcomes(i).Applied? {
      var end := Min(i + MAX_BATCH_SIZE, |batch|);
      NextMultiple(i);
      WrittenIsFirstFailure(batch, end, outcomes);
      forall j | i < j < end ensures j % MAX_BATCH_SIZE != 0 {
        BetweenMultiples(i, j);
      }
    }
  }

  lemma {:induction false} ReachedIsPart(batch: seq<Record>, i: nat, outcomes: nat -> Outcome)
    requires i <= |batch| && (i < |batch| ==> i % MAX_BATCH_SIZE == 0)
    ensures forall r :: r in Reached(batch, i, outcomes) ==> r in batch
    ensures (forall j :: i <= j < |batch| && j % MAX_BATCH_SIZE == 0 ==> outcomes(j).Applied?) ==>
        Reached(batch, i, outcomes) == batch[i..]
    decreases |batch| - i
  {
    if i < |batch| {
      var end := Min(i + MAX_BATCH_SIZE, |batch|);
      ReachedIsPart(batch, end, outcomes);
      assert batch[i..] == batch[i..end] + batch[end..];
    }
  }

  /** WriteBatch is a target as the pipeline sees one: when every sub-batch is accepted it is
      the step WriteOk, and otherwise one of the steps WriteFail allows. */
  lemma WriteBatchIsWriterStep(cfg: Config, w: Writer, disk: Disk, ledger: Ledger, outcomes: nat -> Outcome)
    requires w.phase.Writing?
    ensures var applied := Reached(w.phase.batch, 0, outcomes);
      && WriterEnabled(cfg, w.phase, WriteFail(applied))
      && WriterApply(cfg, w, disk, ledger, WriteFail(applied)).1.target == Upsert(disk.target, applied)
      && ((forall j :: 0 <= j < |w.phase.batch| && j % 100 == 0 ==> outcomes(j).Applied?) ==>
            WriterApply(cfg, w, disk, ledger, WriteOk).1.target == Upsert(disk.target, applied))
  {
    ReachedIsPart(w.phase.batch, 0, outcomes);
  }
}
