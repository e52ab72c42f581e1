/** Splitting a table by its integer primary key, in the source's 64-bit arithmetic. */
module PostgresReader {
  import opened Common
  import opened Pipeline
  import opened PipelineConservation
  import opened PipelineOutcome
  import opened Ranges
  import Decimal

  const MIN64 := -0x8000_0000_0000_0000
  const MAX64 := 0x7fff_ffff_ffff_ffff
  const TWO64 := 0x1_0000_0000_0000_0000

  predicate Fits(x: int) { MIN64 <= x <= MAX64 }

  /** Signed 64-bit wrap-around. */
  function Wrap(x: int): (w: int)
    ensures Fits(w)
    ensures Fits(x) ==> w == x
  {
    (x - MIN64) % TWO64 + MIN64
  }

  /** Go's division truncates towards zero. */
  function Quotient(a: int, b: int): int
    requires b > 0
  {
    if a >= 0 then a / b else -(-a / b)
  }

  function Count(n: int): nat { if n <= 0 then 1 else n }

  function Step(min: int, max: int, n: int): (step: int)
    ensures step != 0
  {
    var q := Quotient(Wrap(max - min), Count(n));
    if q == 0 then 1 else q
  }

  function Start(min: int, max: int, n: int, i: nat): int {
    Wrap(min + Wrap(i * Step(min, max, n)))
  }

  function End(min: int, max: int, n: int, i: nat): int {
    if i == Count(n) - 1 then Wrap(max + 1) else Wrap(Start(min, max, n, i) + Step(min, max, n))
  }

  function Id(i: nat): string { "p" + Decimal.Print(i) }

  function Split(min: int, max: int, n: int): (ps: seq<Partition>)
    ensures |ps| == Count(n)
    ensures forall i :: 0 <= i < |ps| ==>
        ps[i] == Partition(Id(i), Some(Start(min, max, n, i)), Some(End(min, max, n, i)))
  {
    seq(Count(n), i requires 0 <= i => Partition(Id(i), Some(Start(min, max, n, i)), Some(End(min, max, n, i))))
  }

  function KeyRanges(bounds: Option<(int, int)>, n: int): seq<Partition> {
    match bounds
    case None => []
    case Some((min, max)) =>
      if max <= min then [Partition("p0", Some(min), Some(Wrap(max + 1)))] else Split(min, max, n)
  }

  /** `bounds` is the answer to SELECT MIN(id), MAX(id), absent for an empty table. */
  method Partitions(bounds: Option<(int, int)>, n: int) returns (partitions: seq<Partition>)
    ensures partitions == KeyRanges(bounds, n)
  {
    if bounds.None? {
      return [];
    }
    var (min, max) := bounds.value;
    if max <= min {
      return [Partition("p0", Some(min), Some(Wrap(max + 1)))];
    }
    var m := if n <= 0 then 1 else n;
    var step := Quotient(Wrap(max - min), m);
    if step == 0 {
      step := 1;
    }
    partitions := [];
    for i := 0 to m
      invariant |partitions| == i
      invariant forall j :: 0 <= j < i ==>
          partitions[j] == Partition(Id(j), Some(Start(min, max, n, j)), Some(End(min, max, n, j)))
    {
      var start := Wrap(min + Wrap(i * step));
      var end := Wrap(start + step);
      if i == m - 1 {
        end := Wrap(max + 1);
      }
      partitions := partitions + [Partition(Id(i), Some(start), Some(end))];
    }
  }

  // ---------------------------------------------------------------- the step

  /** The difference fits, and the step is a fair share of it, or one when there are more
      ranges than keys. */
  predicate Shares(min: int, max: int, m: nat, step: int) {
    step >= 1 && (m <= max - min ==> m * step <= max - min) && (max - min < m ==> step == 1)
  }

  /** The difference overflowed to a negative number, and so the ranges step downwards. */
  predicate Descends(min: int, max: int, m: nat, step: int) {
    step <= -1 && max - min > MAX64 && m * step >= max - min - TWO64
  }

  lemma StepIs(min: int, max: int, n: int)
    requires Fits(min) && Fits(max) && min < max
    ensures var m, step := Count(n), Step(min, max, n);
      || (max - min <= MAX64 && Shares(min, max, m, step))
      || (max - min > MAX64 && step == 1)
      || Descends(min, max, m, step)
  {
    var m, step := Count(n), Step(min, max, n);
    if max - min <= MAX64 {
      Share(max - min, m);
    } else {
      assert Wrap(max - min) == max - min - TWO64;
      Share(TWO64 - (max - min), m);
      assert step == 1 || m * step == -(m * ((TWO64 - (max - min)) / m));
    }
  }

  lemma Share(d: nat, m: nat)
    requires m > 0
    ensures 0 <= m * (d / m) <= d
    ensures m <= d ==> d / m >= 1
    ensures d < m ==> d / m == 0
  {
  }

  /** No product i * step overflows. */
  lemma ProductFits(min: int, max: int, n: int, i: nat)
    requires Fits(min) && Fits(max) && Fits(n) && min < max && i < Count(n)
    ensures Fits(i * Step(min, max, n))
  {
    var m, step := Count(n), Step(min, max, n);
    StepIs(min, max, n);
    if step > 1 {
      MulMono(0, i, step);
      MulMono(i, m, step);
    } else if step < 0 {
      MulMono(0, i, -step);
      MulMono(i, m, -step);
      assert i * step == -(i * -step) && m * step == -(m * -step);
    }
  }

  lemma WrapAdd(a: int, b: int)
    ensures Wrap(Wrap(a) + b) == Wrap(a + b)
  {
  }

  /** The lower bounds, and the last upper bound. */
  function Cuts(min: int, max: int, n: int): (cuts: seq<int>)
    ensures |cuts| == Count(n) + 1
    ensures forall i :: 0 <= i < Count(n) ==> cuts[i] == Wrap(min + i * Step(min, max, n))
    ensures cuts[Count(n)] == Wrap(max + 1)
  {
    seq(Count(n), i requires 0 <= i => Wrap(min + i * Step(min, max, n))) + [Wrap(max + 1)]
  }

  lemma SplitIsChain(min: int, max: int, n: int)
    requires Fits(min) && Fits(max) && Fits(n) && min < max
    ensures Chain(Split(min, max, n), Cuts(min, max, n))
  {
    var m, step := Count(n), Step(min, max, n);
    forall i | 0 <= i < m
      ensures Start(min, max, n, i) == Cuts(min, max, n)[i] && End(min, max, n, i) == Cuts(min, max, n)[i + 1]
    {
      ProductFits(min, max, n, i);
      if i < m - 1 {
        WrapAdd(min + i * step, step);
        assert min + i * step + step == min + (i + 1) * step;
      }
    }
  }

  // ---------------------------------------------------------------- cover

  /** The greatest key has no exclusive upper bound in 64 bits. */
  lemma GreatestKeyUnread(bounds: (int, int), n: int)
    requires bounds.1 == MAX64
    ensures !ExactlyOne(KeyRanges(Some(bounds), n), MAX64)
  {
    var ps := KeyRanges(Some(bounds), n);
    forall i | 0 <= i < |ps| ensures !ps[i].Holds(MAX64) {
      assert ps[i].end.value <= MAX64;
    }
  }

  lemma UpwardsDisjoint(min: int, max: int, n: int, key: int)
    requires Fits(min) && Fits(max) && Fits(n) && min < max && Step(min, max, n) >= 1
    requires min + Count(n) - 1 <= MAX64
    ensures AtMostOne(Split(min, max, n), key)
  {
    var m, step, cuts := Count(n), Step(min, max, n), Cuts(min, max, n);
    StepIs(min, max, n);
    SplitIsChain(min, max, n);
    forall i | 0 <= i < m ensures cuts[i] == min + i * step {
      MulMono(0, i, step);
      MulMono(i, m - 1, step);
      if step > 1 {
        MulMono(m - 1, m, step);
      }
    }
    forall i, j | 0 <= i < j < m ensures cuts[i] <= cuts[j] {
      MulMono(i, j, step);
    }
    AscendingChain(Split(min, max, n), cuts, key);
  }

  /** With more ranges than keys up to the greatest 64-bit number, the last range starts at a
      wrapped, negative key and covers the first one again. */
  lemma WrappedStartReadsTwice(min: int, max: int, n: int)
    requires Fits(min) && Fits(max) && Fits(n) && min < max < MAX64
    requires min + Count(n) - 1 > MAX64
    ensures !ExactlyOne(Split(min, max, n), min)
  {
    var m, ps, cuts := Count(n), Split(min, max, n), Cuts(min, max, n);
    StepIs(min, max, n);
    SplitIsChain(min, max, n);
    assert Step(min, max, n) == 1;
    assert cuts[0] == min && cuts[1] == min + 1;
    assert Wrap(min + m - 1) == min + m - 1 - TWO64;
    assert cuts[m - 1] < min && cuts[m] == max + 1;
    assert ps[0].Holds(min) && ps[m - 1].Holds(min);
  }

  /** A descending cut is below the first key until it wraps, and from then on above the last. */
  lemma DescendingCut(min: int, max: int, n: int, i: nat)
    requires Fits(min) && Fits(max) && min < max < MAX64 && i < Count(n)
    requires Descends(min, max, Count(n), Step(min, max, n))
    ensures var c, step := Cuts(min, max, n)[i], Step(min, max, n);
      && (min + i * step >= MIN64 ==> c == min + i * step <= min)
      && (min + i * step < MIN64 ==> c == min + i * step + TWO64 > max)
  {
    var m, step := Count(n), Step(min, max, n);
    NegatedMul(i, step);
    NegatedMul(i + 1, step);
    NegatedMul(m, step);
    MulMono(0, i, -step);
    MulMono(i + 1, m, -step);
    assert (i + 1) * step == i * step + step;
  }

  lemma NegatedMul(i: int, step: int)
    ensures i * -step == -(i * step)
  {
  }

  /** So of the ranges before the last only the one that contains the wrap is not empty. */
  lemma HoldsAtWrap(min: int, max: int, n: int, i: nat, key: int)
    requires Fits(min) && Fits(max) && Fits(n) && min < max < MAX64 && i < Count(n) - 1
    requires Descends(min, max, Count(n), Step(min, max, n)) && Split(min, max, n)[i].Holds(key)
    ensures min + (i + 1) * Step(min, max, n) < MIN64 <= min + i * Step(min, max, n)
  {
    var step, cuts := Step(min, max, n), Cuts(min, max, n);
    SplitIsChain(min, max, n);
    DescendingCut(min, max, n, i);
    DescendingCut(min, max, n, i + 1);
    assert (i + 1) * step == i * step + step;
    assert cuts[i] <= key < cuts[i + 1];
  }

  /** And once it has wrapped, the last range is empty. */
  lemma DownwardsDisjoint(min: int, max: int, n: int, key: int)
    requires Fits(min) && Fits(max) && Fits(n) && min < max < MAX64
    requires Descends(min, max, Count(n), Step(min, max, n))
    ensures AtMostOne(Split(min, max, n), key)
  {
    var ps := Split(min, max, n);
    forall i, j | 0 <= i < j < |ps| ensures !(ps[i].Holds(key) && ps[j].Holds(key)) {
      if ps[i].Holds(key) {
        LaterIsEmpty(min, max, n, i, j, key);
      }
    }
  }

  lemma LaterIsEmpty(min: int, max: int, n: int, i: nat, j: nat, key: int)
    requires Fits(min) && Fits(max) && Fits(n) && min < max < MAX64 && i < j < Count(n)
    requires Descends(min, max, Count(n), Step(min, max, n)) && Split(min, max, n)[i].Holds(key)
    ensures !Split(min, max, n)[j].Holds(key)
  {
    HoldsAtWrap(min, max, n, i, key);
    StepsDown(Step(min, max, n), i + 1, j);
    if j == Count(n) - 1 {
      LastIsEmpty(min, max, n, key);
    } else if Split(min, max, n)[j].Holds(key) {
      HoldsAtWrap(min, max, n, j, key);
    }
  }

  lemma StepsDown(step: int, i: nat, j: nat)
    requires step <= 0 && i <= j
    ensures j * step <= i * step
  {
    MulMono(i, j, -step);
  }

  lemma LastIsEmpty(min: int, max: int, n: int, key: int)
    requires Fits(min) && Fits(max) && Fits(n) && min < max < MAX64
    requires Descends(min, max, Count(n), Step(min, max, n))
    requires min + (Count(n) - 1) * Step(min, max, n) < MIN64
    ensures !Split(min, max, n)[Count(n) - 1].Holds(key)
  {
    SplitIsChain(min, max, n);
    DescendingCut(min, max, n, Count(n) - 1);
    assert Cuts(min, max, n)[Count(n)] == max + 1;
  }

  /** The condition, on the three numbers the split is computed from, under which it is exact. */
  predicate Splittable(min: int, max: int, n: int) {
    max < MAX64 && (min == max || min + Count(n) - 1 <= MAX64)
  }

  lemma SplittableDisjoint(min: int, max: int, n: int, key: int)
    requires Fits(min) && Fits(max) && Fits(n) && min <= max && Splittable(min, max, n)
    ensures AtMostOne(KeyRanges(Some((min, max)), n), key)
  {
    if min < max {
      StepIs(min, max, n);
      if Step(min, max, n) >= 1 {
        UpwardsDisjoint(min, max, n, key);
      } else {
        DownwardsDisjoint(min, max, n, key);
      }
    }
  }

  lemma SplittableCovers(min: int, max: int, n: int, key: int)
    requires Fits(min) && Fits(max) && Fits(n) && min <= key <= max < MAX64
    ensures exists i :: 0 <= i < |KeyRanges(Some((min, max)), n)| && KeyRanges(Some((min, max)), n)[i].Holds(key)
  {
    var ps := KeyRanges(Some((min, max)), n);
    if min < max {
      SplitIsChain(min, max, n);
      var i := ChainHolds(ps, Cuts(min, max, n), key, 0, Count(n));
    } else {
      assert ps[0].Holds(key);
    }
  }

  lemma UnsplittableFails(min: int, max: int, n: int) returns (key: int)
    requires Fits(min) && Fits(max) && Fits(n) && min <= max && !Splittable(min, max, n)
    ensures min <= key <= max && !ExactlyOne(KeyRanges(Some((min, max)), n), key)
  {
    if max == MAX64 {
      key := MAX64;
      GreatestKeyUnread((min, max), n);
    } else {
      key := min;
      WrappedStartReadsTwice(min, max, n);
    }
  }

  lemma SplittableExact(min: int, max: int, n: int, key: int)
    requires Fits(min) && Fits(max) && Fits(n) && min <= key <= max && Splittable(min, max, n)
    ensures ExactlyOne(KeyRanges(Some((min, max)), n), key)
  {
    SplittableCovers(min, max, n, key);
    SplittableDisjoint(min, max, n, key);
  }

  ghost predicate CoversTable(ps: seq<Partition>, min: int, max: int) {
    forall key :: min <= key <= max ==> ExactlyOne(ps, key)
  }

  /** For every least and greatest key and every number of ranges, overflowing or not: each
      key of the table is in exactly one range if and only if the greatest is not the last
      64-bit number and the last range starts at one. */
  lemma ExactCover(min: int, max: int, n: int)
    requires -0x8000_0000_0000_0000 <= min <= max <= 0x7fff_ffff_ffff_ffff
    requires -0x8000_0000_0000_0000 <= n <= 0x7fff_ffff_ffff_ffff
    ensures CoversTable(KeyRanges(Some((min, max)), n), min, max) <==>
        && max < 0x7fff_ffff_ffff_ffff
        && (min == max || min + (if n <= 0 then 1 else n) - 1 <= 0x7fff_ffff_ffff_ffff)
  {
    if Splittable(min, max, n) {
      forall key | min <= key <= max ensures ExactlyOne(KeyRanges(Some((min, max)), n), key) {
        SplittableExact(min, max, n, key);
      }
    } else {
      var key := UnsplittableFails(min, max, n);
    }
  }

  /** A resumed run reads no key twice: moving starts to offsets read from their own ranges
      keeps the ranges disjoint, for every key. */
  lemma {:induction false} ResumedDisjoint(min: int, max: int, n: int, store: map<string, Checkpoint>, key: int)
    requires Fits(min) && Fits(max) && Fits(n) && min <= max && Splittable(min, max, n)
    requires OffsetsInside(KeyRanges(Some((min, max)), n), store)
    ensures AtMostOne(Resume(KeyRanges(Some((min, max)), n), store), key)
  {
    SplittableDisjoint(min, max, n, key);
    ResumeKeepsDisjoint(KeyRanges(Some((min, max)), n), store, key);
  }

  /** A first migration of such a table that returns nil has given every row exactly one
      disposition. */
  lemma {:induction false} TableIsMigrated(min: int, max: int, n: int, cfg: Config, table: seq<Row>, listed: bool,
                                           run: seq<State>)
    requires Fits(min) && Fits(max) && Fits(n) && Splittable(min, max, n)
    requires forall row :: row in table ==> min <= row.key <= max
    requires Completes(cfg, table, KeyRanges(Some((min, max)), n), listed, EMPTY, run) && cfg.numTransformers > 0
    ensures forall row :: row in table ==> ExactlyOne(KeyRanges(Some((min, max)), n), row.key)
    ensures Disposed(Pipeline.End(run).ledger)
        == multiset(Images(cfg.mapper, Assigned(KeyRanges(Some((min, max)), n), table)))
  {
    forall row | row in table ensures ExactlyOne(KeyRanges(Some((min, max)), n), row.key) {
      SplittableExact(min, max, n, row.key);
    }
    CoveredTableIsMigrated(cfg, table, KeyRanges(Some((min, max)), n), listed, run);
  }

  lemma IdsDistinct(min: int, max: int, n: int)
    ensures var ps := KeyRanges(Some((min, max)), n);
      && (forall i :: 0 <= i < |ps| ==> ps[i].id == "p" + Decimal.Print(i))
      && (forall i, j :: 0 <= i < j < |ps| ==> ps[i].id != ps[j].id)
  {
    assert Decimal.Print(0) == "0";
    var ps := KeyRanges(Some((min, max)), n);
    forall i, j | 0 <= i < j < |ps| ensures ps[i].id != ps[j].id {
      assert ps[i].id[1..] == Decimal.Print(i) && ps[j].id[1..] == Decimal.Print(j);
    }
  }
}
