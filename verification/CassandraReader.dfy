/** Splitting the Murmur3 token space; the source computes with big integers. */
module CassandraReader {
  import opened Common
  import opened Pipeline
  import opened Ranges
  import Decimal

  const MIN_TOKEN := -0x8000_0000_0000_0000
  const MAX_TOKEN := 0x7fff_ffff_ffff_ffff

  function Count(n: int): nat { if n <= 0 then 1 else n }

  function Step(n: int): int { (MAX_TOKEN - MIN_TOKEN) / Count(n) }

  /** The bound between ranges i - 1 and i. */
  function Cut(n: int, i: nat): int {
    if i == Count(n) then MAX_TOKEN else MIN_TOKEN + i * Step(n)
  }

  function Id(table: string, i: nat): string { table + "-" + Decimal.Print(i) }

  function TokenRanges(table: string, n: int): (ps: seq<Partition>)
    ensures |ps| == Count(n)
    ensures forall i :: 0 <= i < |ps| ==> ps[i] == Partition(Id(table, i), Some(Cut(n, i)), Some(Cut(n, i + 1)))
  {
    seq(Count(n), i requires 0 <= i => Partition(Id(table, i), Some(Cut(n, i)), Some(Cut(n, i + 1))))
  }

  method Partitions(table: string, n: int) returns (partitions: seq<Partition>)
    ensures partitions == TokenRanges(table, n)
  {
    var m := if n <= 0 then 1 else n;
    var step := (MAX_TOKEN - MIN_TOKEN) / m;
    partitions := [];
    var current := MIN_TOKEN;
    for i := 0 to m
      invariant |partitions| == i && current == Cut(n, i)
      invariant forall j :: 0 <= j < i ==>
          partitions[j] == Partition(Id(table, j), Some(Cut(n, j)), Some(Cut(n, j + 1)))
    {
      var next := current + step;
      if i == m - 1 {
        next := MAX_TOKEN;
      }
      partitions := partitions + [Partition(Id(table, i), Some(current), Some(next))];
      current := next;
    }
  }

  lemma StepBounds(n: int)
    ensures Count(n) * Step(n) <= MAX_TOKEN - MIN_TOKEN < Count(n) * Step(n) + Count(n)
    ensures Step(n) >= 0
  {
  }

  lemma CutsAscend(n: int, i: nat, j: nat)
    requires i <= j <= Count(n)
    ensures MIN_TOKEN <= Cut(n, i) <= Cut(n, j) <= MAX_TOKEN
  {
    StepBounds(n);
    MulMono(0, i, Step(n));
    MulMono(i, j, Step(n));
    MulMono(j, Count(n), Step(n));
  }

  /** The ranges tile the token space: contiguous from the least token to the greatest, every
      bound an int64, all but the last of width step and the last less than n wider. */
  lemma RangesTile(table: string, n: int)
    ensures var ps := TokenRanges(table, n);
      && |ps| == (if n <= 0 then 1 else n)
      && ps[0].start == Some(-0x8000_0000_0000_0000) && ps[|ps| - 1].end == Some(0x7fff_ffff_ffff_ffff)
      && (forall i :: 0 < i < |ps| ==> ps[i].start == ps[i - 1].end)
      && (forall i :: 0 <= i < |ps| ==> MIN_TOKEN <= ps[i].start.value <= ps[i].end.value <= MAX_TOKEN)
      && (forall i :: 0 <= i < |ps| - 1 ==> ps[i].end.value - ps[i].start.value == Step(n))
      && Step(n) <= ps[|ps| - 1].end.value - ps[|ps| - 1].start.value < Step(n) + Count(n)
  {
    var ps := TokenRanges(table, n);
    forall i | 0 <= i < |ps|
      ensures MIN_TOKEN <= ps[i].start.value <= ps[i].end.value <= MAX_TOKEN
      ensures i < |ps| - 1 ==> ps[i].end.value - ps[i].start.value == Step(n)
    {
      CutsAscend(n, i, i + 1);
      if i < |ps| - 1 {
        CutWidth(n, i);
      }
    }
    LastWidth(n);
  }

  lemma CutWidth(n: int, i: nat)
    requires i < Count(n) - 1
    ensures Cut(n, i + 1) - Cut(n, i) == Step(n)
  {
    assert (i + 1) * Step(n) == i * Step(n) + Step(n);
  }

  lemma LastWidth(n: int)
    ensures Step(n) <= MAX_TOKEN - Cut(n, Count(n) - 1) < Step(n) + Count(n)
    ensures Cut(n, 0) == MIN_TOKEN
  {
    StepBounds(n);
    assert Count(n) * Step(n) == (Count(n) - 1) * Step(n) + Step(n);
  }

  function Cuts(n: int): seq<int> { seq(Count(n) + 1, i requires 0 <= i => Cut(n, i)) }

  lemma CutsChain(table: string, n: int)
    ensures Chain(TokenRanges(table, n), Cuts(n))
    ensures forall i, j :: 0 <= i < j < |Cuts(n)| ==> Cuts(n)[i] <= Cuts(n)[j] <= MAX_TOKEN
    ensures Cuts(n)[0] == MIN_TOKEN && Cuts(n)[Count(n)] == MAX_TOKEN
  {
    forall i, j | 0 <= i < j < |Cuts(n)| ensures Cuts(n)[i] <= Cuts(n)[j] <= MAX_TOKEN {
      CutsAscend(n, i, j);
    }
  }

  /** A token is read by exactly one range, unless it is the greatest one, which no range
      reads because the end of a range is exclusive. */
  lemma TokenCover(table: string, n: int, token: int)
    requires -0x8000_0000_0000_0000 <= token <= 0x7fff_ffff_ffff_ffff
    ensures ExactlyOne(TokenRanges(table, n), token) <==> token < 0x7fff_ffff_ffff_ffff
  {
    var ps := TokenRanges(table, n);
    var cuts := Cuts(n);
    CutsChain(table, n);
    AscendingChain(ps, cuts, token);
    if token == MAX_TOKEN {
      forall i | 0 <= i < |ps| ensures !ps[i].Holds(token) {
        assert ps[i].end == Some(cuts[i + 1]) && cuts[i + 1] <= MAX_TOKEN;
      }
    } else {
      var i := ChainHolds(ps, cuts, token, 0, |ps|);
    }
  }

  lemma IdsDistinct(table: string, n: int)
    ensures var ps := TokenRanges(table, n);
      && (forall i :: 0 <= i < |ps| ==> ps[i].id == table + "-" + Decimal.Print(i))
      && (forall i, j :: 0 <= i < j < |ps| ==> ps[i].id != ps[j].id)
  {
    var ps := TokenRanges(table, n);
    forall i, j | 0 <= i < j < |ps| ensures ps[i].id != ps[j].id {
      assert ps[i].id[|table + "-"|..] == Decimal.Print(i) && ps[j].id[|table + "-"|..] == Decimal.Print(j);
    }
  }
}
