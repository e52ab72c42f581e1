/** Partitions as ranges of keys: when they cover a table exactly. */
module Ranges {
  import opened Common
  import opened SchemaMapper
  import opened Pipeline
  import opened PipelineConservation
  import opened PipelineOutcome

  predicate AtMostOne(ps: seq<Partition>, key: int) {
    forall i, j :: 0 <= i < j < |ps| ==> !(ps[i].Holds(key) && ps[j].Holds(key))
  }

  predicate ExactlyOne(ps: seq<Partition>, key: int) {
    (exists i :: 0 <= i < |ps| && ps[i].Holds(key)) && AtMostOne(ps, key)
  }

  // ---------------------------------------------------------------- chains of ranges

  /** Consecutive ranges over a list of cuts. */
  predicate Chain(ps: seq<Partition>, cuts: seq<int>) {
    |cuts| == |ps| + 1 && forall i :: 0 <= i < |ps| ==> ps[i].start == Some(cuts[i]) && ps[i].end == Some(cuts[i + 1])
  }

  /** A chain that starts at or below a key and ends above it holds the key, however its cuts
      move in between. */
  lemma ChainHolds(ps: seq<Partition>, cuts: seq<int>, key: int, lo: nat, hi: nat) returns (i: nat)
    requires Chain(ps, cuts) && lo < hi < |cuts| && cuts[lo] <= key < cuts[hi]
    ensures lo <= i < hi && ps[i].Holds(key)
    decreases hi - lo
  {
    if key < cuts[lo + 1] {
      i := lo;
    } else {
      i := ChainHolds(ps, cuts, key, lo + 1, hi);
    }
  }

  /** Cuts that ascend, the last one perhaps excepted, never hold a key twice. */
  lemma AscendingChain(ps: seq<Partition>, cuts: seq<int>, key: int)
    requires Chain(ps, cuts) && forall i, j :: 0 <= i < j < |ps| ==> cuts[i] <= cuts[j]
    ensures AtMostOne(ps, key)
  {
    forall i, j | 0 <= i < j < |ps| ensures !(ps[i].Holds(key) && ps[j].Holds(key)) {
      assert i + 1 < j ==> cuts[i + 1] <= cuts[j];
    }
  }

  // ---------------------------------------------------------------- resuming

  /** Every stored offset was read from the range it is stored for. */
  predicate OffsetsInside(all: seq<Partition>, store: map<string, Checkpoint>) {
    forall p :: p in all && p.id in store && store[p.id].lastCommitted.Some? ==>
        p.Holds(store[p.id].lastCommitted.value)
  }

  /** Resuming only shrinks ranges: it never makes two of them hold the same key. */
  lemma {:induction false} ResumeKeepsDisjoint(all: seq<Partition>, store: map<string, Checkpoint>, key: int)
    requires AtMostOne(all, key) && OffsetsInside(all, store)
    ensures AtMostOne(Resume(all, store), key)
    ensures (exists i :: 0 <= i < |Resume(all, store)| && Resume(all, store)[i].Holds(key)) ==>
        exists i :: 0 <= i < |all| && all[i].Holds(key)
  {
    if all != [] {
      var p, rest := all[0], Resume(all[1..], store);
      assert p in all;
      forall i, j | 0 <= i < j < |all[1..]| ensures !(all[1..][i].Holds(key) && all[1..][j].Holds(key)) {
        assert !(all[i + 1].Holds(key) && all[j + 1].Holds(key));
      }
      ResumeKeepsDisjoint(all[1..], store, key);
      if i :| 0 <= i < |rest| && rest[i].Holds(key) {
        var k :| 0 <= k < |all[1..]| && all[1..][k].Holds(key);
        assert all[k + 1].Holds(key);
      }
    }
  }

  // ---------------------------------------------------------------- reading a covered table

  ghost function Owner(ps: seq<Partition>, key: int): (i: nat)
    requires ExactlyOne(ps, key)
    ensures i < |ps| && ps[i].Holds(key)
  {
    var i :| 0 <= i < |ps| && ps[i].Holds(key);
    i
  }

  function RecordOf(ps: seq<Partition>, i: nat, row: Row): Record
    requires i < |ps|
  {
    Record(row.id, ps[i].id, row.key, row.data)
  }

  /** The record of each row, under the one partition that holds its key. */
  ghost function Assigned(ps: seq<Partition>, table: seq<Row>): (rs: seq<Record>)
    requires forall row :: row in table ==> ExactlyOne(ps, row.key)
    ensures |rs| == |table|
    ensures forall k :: 0 <= k < |table| ==>
        rs[k].id == table[k].id && rs[k].offset == table[k].key && rs[k].data == table[k].data
  {
    if table == [] then []
    else
      assert table[0] in table;
      [RecordOf(ps, Owner(ps, table[0].key), table[0])] + Assigned(ps, table[1..])
  }

  /** No loss and no double read: over partitions that cover the table's keys exactly, the
      pipeline's source is each row once, mapped. */
  lemma {:induction false} EachRowOnce(m: Option<Mapper>, ps: seq<Partition>, table: seq<Row>)
    requires forall row :: row in table ==> ExactlyOne(ps, row.key)
    ensures Source(m, ps, table) == multiset(Images(m, Assigned(ps, table)))
  {
    if table == [] {
      BagOfEmpties(Reads(m, ps, table));
    } else {
      var row, rest := table[0], table[1..];
      assert row in table;
      EachRowOnce(m, ps, rest);
      var i := Owner(ps, row.key);
      var r := RecordOf(ps, i, row);
      var base := Reads(m, ps, rest);
      OneReads(m, ps, table, i, r);
      BagUpdate(base, i, [Mapped(m, r)] + base[i]);
      CancelBag(Bag(Reads(m, ps, table)), Bag(base), multiset(base[i]), multiset{Mapped(m, r)});
      ImagesCons(m, r, Assigned(ps, rest));
    }
  }

  lemma ImagesCons(m: Option<Mapper>, r: Record, rs: seq<Record>)
    ensures Images(m, [r] + rs) == [Mapped(m, r)] + Images(m, rs)
  {
  }

  /** One more row adds one record to one partition's stream. */
  lemma OneReads(m: Option<Mapper>, ps: seq<Partition>, table: seq<Row>, i: nat, r: Record)
    requires table != [] && i < |ps| && ps[i].Holds(table[0].key) && AtMostOne(ps, table[0].key)
    requires r == RecordOf(ps, i, table[0])
    ensures var base := Reads(m, ps, table[1..]);
      Reads(m, ps, table) == base[i := [Mapped(m, r)] + base[i]]
  {
    var base := Reads(m, ps, table[1..]);
    forall k | 0 <= k < |ps| ensures Reads(m, ps, table)[k] == (if k == i then [Mapped(m, r)] + base[i] else base[k]) {
      if k == i {
        assert Read(ps[i], table) == [r] + Read(ps[i], table[1..]);
        ImagesCons(m, r, Read(ps[i], table[1..]));
      } else {
        assert !ps[k].Holds(table[0].key);
      }
    }
  }

  /** A fresh run over an exact cover that returns nil has given each row of the table exactly
      one disposition. */
  lemma {:induction false} CoveredTableIsMigrated(cfg: Config, table: seq<Row>, all: seq<Partition>, listed: bool,
                                                  run: seq<State>)
    requires forall row :: row in table ==> ExactlyOne(all, row.key)
    requires Completes(cfg, table, all, listed, EMPTY, run) && cfg.numTransformers > 0
    ensures Disposed(End(run).ledger) == multiset(Images(cfg.mapper, Assigned(all, table)))
    ensures |Disposed(End(run).ledger)| == |table|
  {
    FreshSelectsAll(all);
    OneDispositionEach(cfg, table, all, listed, EMPTY, run);
    EachRowOnce(cfg.mapper, all, table);
  }
}
