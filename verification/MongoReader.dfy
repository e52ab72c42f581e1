/** Splitting a collection at sampled or computed keys, and the filter of ReadPartition. */
module MongoReader {
  import opened Common
  import opened Pipeline
  import opened Ranges
  import Decimal

  function Id(i: nat): string { "p" + Decimal.Print(i) }

  const WHOLE := [Partition("p0", None, None)]

  function LowerBound(boundaries: seq<int>, i: nat): Option<int>
    requires i <= |boundaries|
  {
    if i == 0 then None else Some(boundaries[i - 1])
  }

  function UpperBound(boundaries: seq<int>, i: nat): Option<int>
    requires i <= |boundaries|
  {
    if i == |boundaries| then None else Some(boundaries[i])
  }

  function KeyRanges(boundaries: seq<int>): (ps: seq<Partition>)
    ensures |ps| == |boundaries| + 1
    ensures forall i :: 0 <= i < |ps| ==>
        ps[i] == Partition(Id(i), LowerBound(boundaries, i), UpperBound(boundaries, i))
  {
    seq(|boundaries| + 1, i requires 0 <= i <= |boundaries| =>
          Partition(Id(i), LowerBound(boundaries, i), UpperBound(boundaries, i)))
  }

  lemma WholeIsUnsplit()
    ensures KeyRanges([]) == WHOLE
  {
    assert Decimal.Print(0) == "0";
    assert Id(0) == "p0";
  }

  /** The loop both ways of finding boundaries share: lastKey is nil until the first one. */
  method Split(boundaries: seq<int>) returns (partitions: seq<Partition>)
    ensures partitions == KeyRanges(boundaries)
  {
    partitions := [];
    var lastKey: Option<int> := None;
    for i := 0 to |boundaries|
      invariant |partitions| == i && lastKey == LowerBound(boundaries, i)
      invariant forall j :: 0 <= j < i ==>
          partitions[j] == Partition(Id(j), LowerBound(boundaries, j), UpperBound(boundaries, j))
    {
      var key := boundaries[i];
      partitions := partitions + [Partition(Id(i), lastKey, Some(key))];
      lastKey := Some(key);
    }
    partitions := partitions + [Partition(Id(|partitions|), lastKey, None)];
  }

  /** What the server answers: collStats failed or counted nothing, splitVector failed,
      and what the fallback's sample found, if the aggregation succeeded. */
  datatype Server = Server(empty: bool, splitKeys: Option<seq<int>>, sample: Option<seq<int>>)

  function Boundaries(n: int, server: Server): seq<int> {
    if n <= 1 || server.empty then []
    else if server.splitKeys.Some? then server.splitKeys.value
    else if server.sample.Some? then server.sample.value
    else []
  }

  method Partitions(n: int, server: Server) returns (partitions: seq<Partition>)
    ensures partitions == KeyRanges(Boundaries(n, server))
    ensures n <= 1 || server.empty ==> partitions == [Partition("p0", None, None)]
    ensures n > 1 && !server.empty && server.splitKeys.Some? ==> partitions == KeyRanges(server.splitKeys.value)
    ensures n > 1 && !server.empty && server.splitKeys.None? && server.sample.Some? ==>
        partitions == KeyRanges(server.sample.value)
    ensures server.splitKeys.None? && server.sample.None? ==> partitions == [Partition("p0", None, None)]
  {
    WholeIsUnsplit();
    if n <= 1 || server.empty {
      return WHOLE;
    }
    var keys := server.splitKeys;
    if keys.None? {
      keys := server.sample;
    }
    if keys.None? || keys.value == [] {
      return WHOLE;
    }
    partitions := Split(keys.value);
  }

  // ---------------------------------------------------------------- the filter

  datatype Filter = All | Between(gte: int, lt: int) | From(gte: int) | Until(lt: int)
  {
    predicate Accepts(key: int) {
      match this
      case All => true
      case Between(gte, lt) => gte <= key < lt
      case From(gte) => gte <= key
      case Until(lt) => key < lt
    }
  }

  function FilterOf(p: Partition): (f: Filter)
    ensures forall key :: f.Accepts(key) <==> p.Holds(key)
  {
    if p.start.Some? && p.end.Some? then Between(p.start.value, p.end.value)
    else if p.start.Some? then From(p.start.value)
    else if p.end.Some? then Until(p.end.value)
    else All
  }

  // ---------------------------------------------------------------- cover

  predicate Ascending(boundaries: seq<int>) {
    forall i, j :: 0 <= i < j < |boundaries| ==> boundaries[i] <= boundaries[j]
  }

  /** A key at or above the lower bound of one range and below the upper bound of a later one
      is in a range between them. */
  lemma {:induction false} HoldsBetween(boundaries: seq<int>, key: int, lo: nat, hi: nat) returns (i: nat)
    requires lo <= hi <= |boundaries|
    requires lo == 0 || boundaries[lo - 1] <= key
    requires hi == |boundaries| || key < boundaries[hi]
    ensures lo <= i <= hi && KeyRanges(boundaries)[i].Holds(key)
    decreases hi - lo
  {
    if lo == hi || key < boundaries[lo] {
      i := lo;
    } else {
      i := HoldsBetween(boundaries, key, lo + 1, hi);
    }
  }

  lemma AscendingCovers(boundaries: seq<int>, key: int)
    requires Ascending(boundaries)
    ensures ExactlyOne(KeyRanges(boundaries), key)
  {
    var ps := KeyRanges(boundaries);
    var i := HoldsBetween(boundaries, key, 0, |boundaries|);
    forall i, j | 0 <= i < j < |ps| ensures !(ps[i].Holds(key) && ps[j].Holds(key)) {
      assert i < j - 1 ==> boundaries[i] <= boundaries[j - 1];
    }
  }

  /** A step down puts the lower key into two ranges. */
  lemma DescentReadsTwice(boundaries: seq<int>, i: nat, j: nat)
    requires i < j < |boundaries| && boundaries[j] < boundaries[i]
    ensures !ExactlyOne(KeyRanges(boundaries), boundaries[j])
  {
    var a := HoldsBetween(boundaries, boundaries[j], 0, i);
    var b := HoldsBetween(boundaries, boundaries[j], j + 1, |boundaries|);
  }

  /** Every key passes exactly one filter, whatever the key, exactly when the boundaries are
      in weakly ascending order; duplicates do no harm. */
  lemma FiltersCoverExactly(boundaries: seq<int>)
    ensures (forall key :: ExactlyOne(KeyRanges(boundaries), key)) <==> Ascending(boundaries)
  {
    if Ascending(boundaries) {
      forall key ensures ExactlyOne(KeyRanges(boundaries), key) {
        AscendingCovers(boundaries, key);
      }
    } else {
      var i, j :| 0 <= i < j < |boundaries| && boundaries[j] < boundaries[i];
      DescentReadsTwice(boundaries, i, j);
    }
  }

  lemma IdsDistinct(boundaries: seq<int>)
    ensures var ps := KeyRanges(boundaries);
      && (forall i :: 0 <= i < |ps| ==> ps[i].id == "p" + Decimal.Print(i))
      && (forall i, j :: 0 <= i < j < |ps| ==> ps[i].id != ps[j].id)
  {
    var ps := KeyRanges(boundaries);
    forall i, j | 0 <= i < j < |ps| ensures ps[i].id != ps[j].id {
      assert ps[i].id[1..] == Decimal.Print(i) && ps[j].id[1..] == Decimal.Print(j);
    }
  }
}
