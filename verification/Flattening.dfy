/** Flattening nested documents into dotted keys. */
module Flattening {
  import opened Common
  import opened SchemaMapper

  /** A field: a nested document, or any other value. */
  datatype Tree = Leaf(value: Value) | Node(fields: map<string, Tree>)

  type Fields = map<string, Tree>

  type Path = seq<string>

  // ---------------------------------------------------------------- the flattening

  /** The key of a field under a prefix; an empty prefix adds no dot. */
  function SubKey(prefix: string, k: string): string {
    if prefix == "" then k else prefix + "." + k
  }

  /** The key the recursion reaches along a path. */
  function Key(prefix: string, path: Path): string
    decreases |path|
  {
    if path == [] then prefix else Key(SubKey(prefix, path[0]), path[1..])
  }

  function LeafAt(m: Fields, path: Path): Option<Value>
    decreases |path|
  {
    if path == [] || path[0] !in m then None
    else match m[path[0]]
      case Leaf(v) => if |path| == 1 then Some(v) else None
      case Node(fields) => LeafAt(fields, path[1..])
  }

  ghost predicate Hits(prefix: string, m: Fields, key: string, v: Value) {
    exists path :: LeafAt(m, path) == Some(v) && Key(prefix, path) == key
  }

  ghost predicate Hit(prefix: string, m: Fields, key: string) {
    exists v :: Hits(prefix, m, key, v)
  }

  class Output {
    var entries: map<string, Value>

    constructor ()
      ensures entries == map[]
    {
      entries := map[];
    }
  }

  /** What a call can make of `out`: it visits the keys in some order, and nested documents in
      some order each. */
  ghost predicate Produces(prefix: string, m: Fields, before: map<string, Value>, after: map<string, Value>)
    decreases Node(m), 1, 0
  {
    exists order :: Visits(order, m.Keys) && ProducesAlong(prefix, m, order, before, after)
  }

  ghost predicate ProducesAlong(prefix: string, m: Fields, order: seq<string>, before: map<string, Value>,
                                after: map<string, Value>)
    decreases Node(m), 0, 2 * |order|
  {
    if order == [] then after == before
    else RoundAfter(prefix, m, order[..|order| - 1], order[|order| - 1], before, after)
  }

  ghost predicate RoundAfter(prefix: string, m: Fields, front: seq<string>, k: string, before: map<string, Value>,
                             after: map<string, Value>)
    decreases Node(m), 0, 2 * |front| + 1
  {
    exists mid :: ProducesAlong(prefix, m, front, before, mid) && Round(prefix, m, k, mid, after)
  }

  /** One round of the loop. */
  ghost predicate Round(prefix: string, m: Fields, k: string, before: map<string, Value>, after: map<string, Value>)
    decreases Node(m), 0, 0
  {
    k in m &&
    match m[k]
    case Leaf(v) => after == before[SubKey(prefix, k) := v]
    case Node(fields) => assert m[k] < Node(m); Produces(SubKey(prefix, k), fields, before, after)
  }

  /** Go visits the keys of a map in any order; so does this loop. */
  method FlattenMap(prefix: string, m: Fields, out: Output)
    modifies out
    ensures Produces(prefix, m, old(out.entries), out.entries)
    decreases Node(m)
  {
    var keys := m.Keys;
    ghost var before, order := out.entries, [];
    while keys != {}
      invariant keys <= m.Keys && Visits(order, m.Keys - keys)
      invariant ProducesAlong(prefix, m, order, before, out.entries)
      decreases |keys|
    {
      var k :| k in keys;
      assert m[k] < Node(m);
      ghost var mid := out.entries;
      var key := SubKey(prefix, k);
      if m[k].Node? {
        FlattenMap(key, m[k].fields, out);
      } else {
        out.entries := out.entries[key := m[k].value];
      }
      OneMoreRound(prefix, m, order, k, before, mid, out.entries);
      keys, order := keys - {k}, order + [k];
    }
    assert m.Keys - {} == m.Keys;
  }

  lemma {:induction false} OneMoreRound(prefix: string, m: Fields, order: seq<string>, k: string, before: map<string,
                                        Value>,
                     mid: map<string, Value>, after: map<string, Value>)
    requires ProducesAlong(prefix, m, order, before, mid) && Round(prefix, m, k, mid, after)
    ensures ProducesAlong(prefix, m, order + [k], before, after)
  {
    assert (order + [k])[..|order|] == order;
  }

  // ---------------------------------------------------------------- keys and leaves

  /** A key some leaf path spells holds a value of such a leaf, and every other key is as before. */
  ghost predicate Flattens(prefix: string, m: Fields, before: map<string, Value>, after: map<string, Value>) {
    forall key :: FlattensAt(prefix, m, before, after, key)
  }

  ghost predicate FlattensAt(prefix: string, m: Fields, before: map<string, Value>, after: map<string, Value>,
                             key: string) {
    if Hit(prefix, m, key) then key in after && Hits(prefix, m, key, after[key])
    else Lookup(after, key) == Lookup(before, key)
  }

  lemma NothingToFlatten(prefix: string, before: map<string, Value>)
    ensures Flattens(prefix, map[], before, before)
  {
  }

  /** The leaves of one field, under its own key. */
  ghost predicate HitsField(key: string, t: Tree, k: string, v: Value) {
    match t
    case Leaf(value) => k == key && v == value
    case Node(fields) => Hits(key, fields, k, v)
  }

  ghost predicate HitField(key: string, t: Tree, k: string) {
    exists v :: HitsField(key, t, k, v)
  }

  /** What one round of the loop does to `out`. */
  ghost predicate Adds(key: string, t: Tree, before: map<string, Value>, after: map<string, Value>) {
    forall k :: AddsAt(key, t, before, after, k)
  }

  ghost predicate AddsAt(key: string, t: Tree, before: map<string, Value>, after: map<string, Value>, k: string) {
    if HitField(key, t, k) then k in after && HitsField(key, t, k, after[k]) else Lookup(after, k) == Lookup(before, k)
  }

  lemma AddsLeaf(key: string, v: Value, before: map<string, Value>, after: map<string, Value>)
    requires after == before[key := v]
    ensures Adds(key, Leaf(v), before, after)
  {
    forall k ensures AddsAt(key, Leaf(v), before, after, k) {
      assert HitsField(key, Leaf(v), key, v);
    }
  }

  lemma AddsNode(key: string, fields: Fields, before: map<string, Value>, after: map<string, Value>)
    requires Flattens(key, fields, before, after)
    ensures Adds(key, Node(fields), before, after)
  {
    forall k ensures AddsAt(key, Node(fields), before, after, k) {
      assert FlattensAt(key, fields, before, after, k);
      forall v ensures HitsField(key, Node(fields), k, v) == Hits(key, fields, k, v) {
      }
    }
  }

  lemma LeafOfField(done: Fields, k: string, t: Tree, path: Path)
    requires path != []
    ensures LeafAt(done[k := t], path) ==
      if path[0] != k then LeafAt(done, path)
      else if t.Node? then LeafAt(t.fields, path[1..])
      else if |path| == 1 then Some(t.value)
      else None
  {
  }

  lemma HitsFieldAbove(prefix: string, done: Fields, k: string, t: Tree, key: string, v: Value)
    requires HitsField(SubKey(prefix, k), t, key, v)
    ensures Hits(prefix, done[k := t], key, v)
  {
    var rest: Path := [];
    if t.Node? {
      rest :| LeafAt(t.fields, rest) == Some(v) && Key(SubKey(prefix, k), rest) == key;
    }
    var path := [k] + rest;
    assert path[1..] == rest;
    LeafOfField(done, k, t, path);
    assert LeafAt(done[k := t], path) == Some(v) && Key(prefix, path) == key;
  }

  lemma HitsDoneAbove(prefix: string, done: Fields, k: string, t: Tree, key: string, v: Value)
    requires k !in done && Hits(prefix, done, key, v)
    ensures Hits(prefix, done[k := t], key, v)
  {
    var path :| LeafAt(done, path) == Some(v) && Key(prefix, path) == key;
    LeafOfField(done, k, t, path);
  }

  /** A leaf of a document lies in one of its fields. */
  lemma HitsSplit(prefix: string, done: Fields, k: string, t: Tree, key: string, v: Value)
    requires k !in done
    ensures Hits(prefix, done[k := t], key, v) <==>
        Hits(prefix, done, key, v) || HitsField(SubKey(prefix, k), t, key, v)
  {
    if path :| LeafAt(done[k := t], path) == Some(v) && Key(prefix, path) == key {
      LeafOfField(done, k, t, path);
      if path[0] != k {
        assert Hits(prefix, done, key, v);
      } else {
        assert Key(SubKey(prefix, k), path[1..]) == key;
        assert |path| == 1 ==> path[1..] == [];
        assert HitsField(SubKey(prefix, k), t, key, v);
      }
    }
    if Hits(prefix, done, key, v) {
      HitsDoneAbove(prefix, done, k, t, key, v);
    }
    if HitsField(SubKey(prefix, k), t, key, v) {
      HitsFieldAbove(prefix, done, k, t, key, v);
    }
  }

  lemma FlattenOneMore(prefix: string, done: Fields, k: string, t: Tree, before: map<string, Value>, mid: map<string,
                       Value>, after: map<string, Value>)
    requires k !in done && Flattens(prefix, done, before, mid) && Adds(SubKey(prefix, k), t, mid, after)
    ensures Flattens(prefix, done[k := t], before, after)
  {
    var all := done[k := t];
    forall key ensures FlattensAt(prefix, all, before, after, key) {
      forall v
        ensures Hits(prefix, all, key, v) <==> Hits(prefix, done, key, v) || HitsField(SubKey(prefix, k), t, key, v)
      {
        HitsSplit(prefix, done, k, t, key, v);
      }
      assert FlattensAt(prefix, done, before, mid, key);
      assert AddsAt(SubKey(prefix, k), t, mid, after, key);
    }
  }

  /** The part of a document visited so far. */
  function Visited(m: Fields, order: seq<string>): Fields { map k | k in m && k in order :: m[k] }

  lemma {:induction false} AlongFlattens(prefix: string, m: Fields, order: seq<string>, before: map<string, Value>,
                                         after: map<string, Value>)
    requires Distinct(order) && ProducesAlong(prefix, m, order, before, after)
    ensures Flattens(prefix, Visited(m, order), before, after)
    decreases Node(m), 0, |order|
  {
    if order == [] {
      NothingToFlatten(prefix, before);
      assert Visited(m, []) == map[];
    } else {
      var front, k := order[..|order| - 1], order[|order| - 1];
      assert order == front + [k];
      assert RoundAfter(prefix, m, front, k, before, after);
      var mid :| ProducesAlong(prefix, m, front, before, mid) && Round(prefix, m, k, mid, after);
      AlongFlattens(prefix, m, front, before, mid);
      RoundAdds(prefix, m, k, mid, after);
      FlattenOneMore(prefix, Visited(m, front), k, m[k], before, mid, after);
      assert Visited(m, order) == Visited(m, front)[k := m[k]];
    }
  }

  lemma {:induction false} RoundAdds(prefix: string, m: Fields, k: string, before: map<string, Value>,
                                     after: map<string, Value>)
    requires Round(prefix, m, k, before, after)
    ensures Adds(SubKey(prefix, k), m[k], before, after)
    decreases Node(m), 0, 0
  {
    match m[k]
    case Leaf(v) => AddsLeaf(SubKey(prefix, k), v, before, after);
    case Node(fields) =>
      assert m[k] < Node(m);
      ProducesFlattens(SubKey(prefix, k), fields, before, after);
      AddsNode(SubKey(prefix, k), fields, before, after);
  }

  /** Whatever the orders and the names, every output has exactly the keys the leaf paths
      spell beside those it had, and each holds the value of such a leaf. */
  lemma {:induction false} ProducesFlattens(prefix: string, m: Fields, before: map<string, Value>, after: map<string,
                                            Value>)
    requires Produces(prefix, m, before, after)
    ensures Flattens(prefix, m, before, after)
    decreases Node(m), 1, 0
  {
    var order :| Visits(order, m.Keys) && ProducesAlong(prefix, m, order, before, after);
    AlongFlattens(prefix, m, order, before, after);
    assert Visited(m, order) == m;
  }

  // ---------------------------------------------------------------- every leaf can be written last

  lemma {:induction false} Enumerate(keys: set<string>) returns (order: seq<string>)
    ensures Visits(order, keys)
  {
    if keys == {} {
      order := [];
    } else {
      var k :| k in keys;
      order := Enumerate(keys - {k});
      order := order + [k];
    }
  }

  lemma {:induction false} SomeAlong(prefix: string, m: Fields, order: seq<string>, before: map<string, Value>)
    returns (after: map<string, Value>)
    requires forall k :: k in order ==> k in m
    ensures ProducesAlong(prefix, m, order, before, after)
    decreases Node(m), 0, |order|
  {
    if order == [] {
      after := before;
    } else {
      var front, k := order[..|order| - 1], order[|order| - 1];
      var mid := SomeAlong(prefix, m, front, before);
      match m[k]
      case Leaf(v) => after := mid[SubKey(prefix, k) := v];
      case Node(fields) =>
        assert m[k] < Node(m);
        after := SomeOutput(SubKey(prefix, k), fields, mid);
    }
  }

  lemma {:induction false} SomeOutput(prefix: string, m: Fields, before: map<string, Value>)
    returns (after: map<string, Value>)
    ensures Produces(prefix, m, before, after)
    decreases Node(m), 1, 0
  {
    var order := Enumerate(m.Keys);
    after := SomeAlong(prefix, m, order, before);
  }

  /** Visiting a leaf's field last at every level leaves its value in the output. */
  lemma {:induction false} LeafLast(prefix: string, m: Fields, before: map<string, Value>, path: Path)
    returns (after: map<string, Value>)
    requires LeafAt(m, path).Some?
    ensures Produces(prefix, m, before, after) && Lookup(after, Key(prefix, path)) == LeafAt(m, path)
    decreases |path|
  {
    var k := path[0];
    var order := Enumerate(m.Keys - {k});
    var mid := SomeAlong(prefix, m, order, before);
    match m[k] {
      case Leaf(v) =>
        after := mid[SubKey(prefix, k) := v];
        assert path[1..] == [];
      case Node(fields) =>
        after := LeafLast(SubKey(prefix, k), fields, mid, path[1..]);
    }
    OneMoreRound(prefix, m, order, k, before, mid, after);
    assert Visits(order + [k], m.Keys);
  }

  /** The values a key can end up with are exactly those of the leaves that spell it. */
  lemma PossibleValues(prefix: string, m: Fields, before: map<string, Value>, key: string, v: Value)
    requires Hit(prefix, m, key)
    ensures (exists out :: Produces(prefix, m, before, out) && Lookup(out, key) == Some(v)) <==> Hits(prefix, m, key, v)
  {
    if out :| Produces(prefix, m, before, out) && Lookup(out, key) == Some(v) {
      ProducesFlattens(prefix, m, before, out);
      assert FlattensAt(prefix, m, before, out, key);
    }
    if path :| LeafAt(m, path) == Some(v) && Key(prefix, path) == key {
      var out := LeafLast(prefix, m, before, path);
    }
  }

  // ---------------------------------------------------------------- dotted keys

  predicate GoodName(k: string) { k != "" && '.' !in k }

  /** Every leaf lies under non-empty, dot-free names. */
  ghost predicate GoodNames(m: Fields) {
    forall path :: LeafAt(m, path).Some? ==> GoodPath(path)
  }

  predicate GoodPath(path: Path) {
    path != [] && forall i :: 0 <= i < |path| ==> GoodName(path[i])
  }

  function Join(path: Path): string
    requires path != []
    decreases |path|
  {
    if |path| == 1 then path[0] else path[0] + "." + Join(path[1..])
  }

  function FirstDot(s: string): (n: nat)
    ensures n <= |s| && (forall i :: 0 <= i < n ==> s[i] != '.') && (n < |s| ==> s[n] == '.')
  {
    if s == "" || s[0] == '.' then 0 else 1 + FirstDot(s[1..])
  }

  function Split(s: string): (path: Path)
    ensures path != []
    decreases |s|
  {
    var n := FirstDot(s);
    if n == |s| then [s] else [s[..n]] + Split(s[n + 1..])
  }

  lemma {:induction false} SplitFirst(k: string, rest: string)
    requires GoodName(k)
    ensures Split(k + "." + rest) == [k] + Split(rest)
  {
    var s := k + "." + rest;
    assert FirstDot(s) == |k| by {
      assert s[|k|] == '.';
      forall i | 0 <= i < |k| ensures s[i] != '.' { assert s[i] == k[i]; }
    }
    assert s[..|k|] == k && s[|k| + 1..] == rest;
  }

  lemma {:induction false} SplitJoin(path: Path)
    requires GoodPath(path)
    ensures Split(Join(path)) == path
    decreases |path|
  {
    assert GoodName(path[0]);
    if |path| == 1 {
      assert FirstDot(path[0]) == |path[0]|;
      assert path == [path[0]];
    } else {
      forall i | 0 <= i < |path[1..]| ensures GoodName(path[1..][i]) { assert GoodName(path[i + 1]); }
      SplitJoin(path[1..]);
      SplitFirst(path[0], Join(path[1..]));
      assert path == [path[0]] + path[1..];
    }
  }

  lemma {:induction false} KeyUnder(prefix: string, path: Path)
    requires prefix != "" && path != []
    ensures Key(prefix, path) == prefix + "." + Join(path)
    decreases |path|
  {
    if |path| > 1 {
      KeyUnder(SubKey(prefix, path[0]), path[1..]);
    }
  }

  lemma {:induction false} KeyIsJoin(path: Path)
    requires GoodPath(path)
    ensures Key("", path) == Join(path)
  {
    assert GoodName(path[0]);
    if |path| > 1 {
      KeyUnder(path[0], path[1..]);
    }
  }

  // ---------------------------------------------------------------- what the output says

  /** With good names the output has exactly one entry per leaf, under the leaf's path. */
  lemma {:induction false} OneEntryPerLeaf(m: Fields, out: map<string, Value>)
    requires GoodNames(m) && Flattens("", m, map[], out)
    ensures forall path :: LeafAt(m, path).Some? ==> Lookup(out, Join(path)) == LeafAt(m, path)
    ensures forall key :: key in out ==> LeafAt(m, Split(key)).Some? && Join(Split(key)) == key
  {
    forall path | LeafAt(m, path).Some? ensures Lookup(out, Join(path)) == LeafAt(m, path) {
      var v := LeafAt(m, path).value;
      KeyIsJoin(path);
      assert Hits("", m, Join(path), v);
      assert FlattensAt("", m, map[], out, Join(path));
      var other :| LeafAt(m, other) == Some(out[Join(path)]) && Key("", other) == Join(path);
      KeyIsJoin(other);
      SplitJoin(path);
      SplitJoin(other);
    }
    forall key | key in out ensures LeafAt(m, Split(key)).Some? && Join(Split(key)) == key {
      assert FlattensAt("", m, map[], out, key);
      var path :| LeafAt(m, path) == Some(out[key]) && Key("", path) == key;
      KeyIsJoin(path);
      SplitJoin(path);
    }
  }

  /** So the iteration order does not matter. */
  lemma OrderIndependent(m: Fields, one: map<string, Value>, two: map<string, Value>)
    requires GoodNames(m) && Flattens("", m, map[], one) && Flattens("", m, map[], two)
    ensures one == two
  {
    OneEntryPerLeaf(m, one);
    OneEntryPerLeaf(m, two);
    forall key | key in one || key in two ensures key in one && key in two && one[key] == two[key] {
      assert Lookup(one, key) == LeafAt(m, Split(key)) == Lookup(two, key);
    }
  }

  /** No two leaves with different values share a key. */
  ghost predicate NoClash(prefix: string, m: Fields) {
    forall key, v, w :: Hits(prefix, m, key, v) && Hits(prefix, m, key, w) ==> v == w
  }

  ghost predicate Determined(prefix: string, m: Fields, before: map<string, Value>) {
    forall one, two :: Produces(prefix, m, before, one) && Produces(prefix, m, before, two) ==> one == two
  }

  /** Whatever the names, all iteration orders give the same output exactly when no two
      different leaf values compete for a key. */
  lemma DeterminedIff(prefix: string, m: Fields, before: map<string, Value>)
    ensures Determined(prefix, m, before) <==> NoClash(prefix, m)
  {
    if NoClash(prefix, m) {
      forall one, two | Produces(prefix, m, before, one) && Produces(prefix, m, before, two) ensures one == two {
        ProducesFlattens(prefix, m, before, one);
        ProducesFlattens(prefix, m, before, two);
        forall key ensures Lookup(one, key) == Lookup(two, key) {
          assert FlattensAt(prefix, m, before, one, key) && FlattensAt(prefix, m, before, two, key);
        }
        SameLookups(one, two);
      }
    } else {
      var key, v, w :| Hits(prefix, m, key, v) && Hits(prefix, m, key, w) && v != w;
      PossibleValues(prefix, m, before, key, v);
      PossibleValues(prefix, m, before, key, w);
    }
  }

  function Dotted(): Fields { map["a.b" := Leaf(Int(1)), "a" := Node(map["b" := Leaf(Int(2))])] }

  lemma {:induction false} DottedLeaves(path: Path)
    requires LeafAt(Dotted(), path).Some?
    ensures Key("", path) == "a.b" && (path == ["a.b"] || path == ["a", "b"])
  {
    if path[0] == "a" {
      assert path[1..][0] == "b" && |path[1..]| == 1;
      assert path == ["a", "b"] && path[1..] == ["b"] && path[1..][1..] == [];
      assert Key("", path) == Key("a", ["b"]) == Key("a.b", []);
    } else {
      assert path == ["a.b"] && path[1..] == [];
    }
  }

  /** A dotted name can clash: {"a.b": 1, "a": {"b": 2}} flattens to {"a.b": 1} or to {"a.b": 2},
      depending on the order. */
  lemma DottedNameClashes()
    ensures Produces("", Dotted(), map[], map["a.b" := Int(1)])
    ensures Produces("", Dotted(), map[], map["a.b" := Int(2)])
  {
    assert ["a", "b"][1..] == ["b"];
    var one := LeafLast("", Dotted(), map[], ["a.b"]);
    var two := LeafLast("", Dotted(), map[], ["a", "b"]);
    DottedLeaves(["a.b"]);
    DottedLeaves(["a", "b"]);
    OnlyDotted(one);
    OnlyDotted(two);
    assert one == map["a.b" := Int(1)] && two == map["a.b" := Int(2)];
  }

  lemma {:induction false} OnlyDotted(out: map<string, Value>)
    requires Produces("", Dotted(), map[], out)
    ensures out.Keys <= {"a.b"}
  {
    ProducesFlattens("", Dotted(), map[], out);
    forall key | key in out ensures key == "a.b" {
      assert FlattensAt("", Dotted(), map[], out, key);
      var path :| LeafAt(Dotted(), path) == Some(out[key]) && Key("", path) == key;
      DottedLeaves(path);
    }
  }

  // ---------------------------------------------------------------- the inverse

  /** No nested document is empty; the outermost may be. */
  predicate NoEmpty(m: Fields)
    decreases Node(m)
  {
    forall k :: k in m ==> (assert m[k] < Node(m); m[k].Node? ==> m[k].fields != map[] && NoEmpty(m[k].fields))
  }

  function Insert(m: Fields, path: Path, v: Value): Fields
    requires path != []
    decreases |path|
  {
    var k := path[0];
    if |path| == 1 then m[k := Leaf(v)]
    else m[k := Node(Insert(if k in m && m[k].Node? then m[k].fields else map[], path[1..], v))]
  }

  /** Un-flattening: split every key at its dots and insert the value there. */
  function Unflatten(keys: seq<string>, flat: map<string, Value>): Fields
    requires forall i :: 0 <= i < |keys| ==> keys[i] in flat
    decreases |keys|
  {
    if keys == [] then map[]
    else
      var n := |keys| - 1;
      Insert(Unflatten(keys[..n], flat), Split(keys[n]), flat[keys[n]])
  }

  /** No leaf lies on the way to a path or beyond it. */
  ghost predicate Clear(m: Fields, path: Path) {
    forall q :: LeafAt(m, q).Some? ==> !(q < path) && !(path < q)
  }

  lemma ConsPrefix(k: string, a: Path, b: Path)
    ensures [k] + a < [k] + b <==> a < b
  {
    if a < b {
      assert ([k] + b)[..|a| + 1] == [k] + b[..|a|];
    }
    if [k] + a < [k] + b {
      assert a == ([k] + a)[1..] && ([k] + b)[1..][..|a|] == ([k] + b)[1..|a| + 1];
    }
  }

  lemma LeafBlocks(m: Fields, path: Path)
    requires |path| > 1 && path[0] in m && m[path[0]].Leaf?
    ensures !Clear(m, path)
  {
    assert LeafAt(m, [path[0]]).Some? && [path[0]] < path;
  }

  lemma ClearBelow(m: Fields, path: Path)
    requires |path| > 1 && Clear(m, path)
    ensures path[0] in m ==> m[path[0]].Node? && Clear(m[path[0]].fields, path[1..])
  {
    var k := path[0];
    if k in m {
      if m[k].Leaf? {
        LeafBlocks(m, path);
      }
      forall q | LeafAt(m[k].fields, q).Some? ensures !(q < path[1..]) && !(path[1..] < q) {
        assert ([k] + q)[1..] == q && path == [k] + path[1..];
        assert LeafAt(m, [k] + q).Some?;
        ConsPrefix(k, q, path[1..]);
        ConsPrefix(k, path[1..], q);
      }
    }
  }

  lemma {:induction false} InsertLeaf(m: Fields, path: Path, v: Value, q: Path)
    requires path != [] && Clear(m, path)
    ensures LeafAt(Insert(m, path, v), q) == if q == path then Some(v) else LeafAt(m, q)
    decreases |path|
  {
    var k := path[0];
    assert path == [k] + path[1..];
    if q != [] && q[0] == k {
      assert q == [k] + q[1..];
      if |path| == 1 {
        assert |q| > 1 ==> path < q;
      } else {
        ClearBelow(m, path);
        InsertLeaf(if k in m && m[k].Node? then m[k].fields else map[], path[1..], v, q[1..]);
      }
    }
  }

  lemma {:induction false} InsertNoEmpty(m: Fields, path: Path, v: Value)
    requires path != [] && NoEmpty(m)
    ensures NoEmpty(Insert(m, path, v)) && Insert(m, path, v) != map[]
    decreases |path|
  {
    var k, r := path[0], Insert(m, path, v);
    if |path| > 1 {
      InsertNoEmpty(if k in m && m[k].Node? then m[k].fields else map[], path[1..], v);
    }
    forall j | j in r && r[j].Node? ensures r[j].fields != map[] && NoEmpty(r[j].fields) {
    }
    assert k in r;
  }

  lemma {:induction false} LeavesApart(m: Fields, p: Path, q: Path)
    requires LeafAt(m, p).Some? && LeafAt(m, q).Some?
    ensures !(p < q)
    decreases |p|
  {
    if p < q {
      assert p[0] == q[0];
      assert p == [p[0]] + p[1..] && q == [p[0]] + q[1..];
      ConsPrefix(p[0], p[1..], q[1..]);
      if m[p[0]].Node? {
        LeavesApart(m[p[0]].fields, p[1..], q[1..]);
      }
    }
  }

  lemma {:induction false} SomeLeaf(m: Fields) returns (path: Path)
    requires m != map[] && NoEmpty(m)
    ensures LeafAt(m, path).Some?
    decreases Node(m)
  {
    var k :| k in m;
    if m[k].Leaf? {
      path := [k];
    } else {
      assert m[k] < Node(m);
      var rest := SomeLeaf(m[k].fields);
      path := [k] + rest;
      assert path[1..] == rest;
    }
  }

  ghost predicate SameLeaves(a: Fields, b: Fields) {
    forall path :: LeafAt(a, path) == LeafAt(b, path)
  }

  lemma {:induction false} SameKeys(a: Fields, b: Fields, k: string)
    requires NoEmpty(a) && SameLeaves(a, b) && k in a
    ensures k in b && (a[k].Leaf? ==> b[k] == a[k])
    ensures a[k].Node? && b[k].Node? ==> SameLeaves(a[k].fields, b[k].fields)
  {
    if a[k].Leaf? {
      assert LeafAt(a, [k]) == LeafAt(b, [k]);
    } else {
      var rest := SomeLeaf(a[k].fields);
      assert ([k] + rest)[1..] == rest;
      assert LeafAt(a, [k] + rest) == LeafAt(b, [k] + rest);
      if b[k].Node? {
        forall path ensures LeafAt(a[k].fields, path) == LeafAt(b[k].fields, path) {
          assert ([k] + path)[1..] == path;
          assert LeafAt(a, [k] + path) == LeafAt(b, [k] + path);
        }
      }
    }
  }

  /** Documents without empty nested ones are determined by their leaves. */
  lemma {:induction false} LeavesDetermine(a: Fields, b: Fields)
    requires NoEmpty(a) && NoEmpty(b) && SameLeaves(a, b)
    ensures a == b
    decreases Node(a)
  {
    forall k | k in a || k in b ensures k in a && k in b && a[k] == b[k] {
      assert SameLeaves(b, a);
      if k in a { SameKeys(a, b, k); } else { SameKeys(b, a, k); }
      SameKeys(a, b, k);
      SameKeys(b, a, k);
      if a[k].Node? {
        assert a[k] < Node(a);
        LeavesDetermine(a[k].fields, b[k].fields);
      }
    }
  }

  /** Halfway through, the rebuilt document has the leaves whose keys have been inserted. */
  lemma {:induction false} UnflattenLeaves(m: Fields, flat: map<string, Value>, keys: seq<string>)
    requires GoodNames(m) && Flattens("", m, map[], flat)
    requires Distinct(keys) && forall i :: 0 <= i < |keys| ==> keys[i] in flat
    ensures NoEmpty(Unflatten(keys, flat))
    ensures forall q ::
        LeafAt(Unflatten(keys, flat), q) == if LeafAt(m, q).Some? && Join(q) in keys then LeafAt(m, q) else None
    decreases |keys|
  {
    if keys != [] {
      var front, last := keys[..|keys| - 1], keys[|keys| - 1];
      assert keys == front + [last];
      UnflattenLeaves(m, flat, front);
      OneEntryPerLeaf(m, flat);
      var before, path := Unflatten(front, flat), Split(last);
      assert LeafAt(m, path) == Some(flat[last]);
      forall q | LeafAt(before, q).Some? ensures !(q < path) && !(path < q) {
        LeavesApart(m, q, path);
        LeavesApart(m, path, q);
      }
      InsertNoEmpty(before, path, flat[last]);
      forall q
        ensures LeafAt(Unflatten(keys, flat), q) == if LeafAt(m, q).Some? && Join(q) in keys then LeafAt(m, q) else None
      {
        InsertLeaf(before, path, flat[last], q);
        if LeafAt(m, q).Some? {
          SplitJoin(q);
        }
      }
    }
  }

  /** From the entries, in any order, un-flattening rebuilds a document with good names if and
      only if no nested document is empty. */
  lemma {:induction false} UnflattenRestoresIff(m: Fields, flat: map<string, Value>, keys: seq<string>)
    requires GoodNames(m) && Produces("", m, map[], flat) && Visits(keys, flat.Keys)
    ensures Unflatten(keys, flat) == m <==> NoEmpty(m)
  {
    ProducesFlattens("", m, map[], flat);
    UnflattenLeaves(m, flat, keys);
    OneEntryPerLeaf(m, flat);
    forall q ensures LeafAt(Unflatten(keys, flat), q) == LeafAt(m, q) {
    }
    if NoEmpty(m) {
      LeavesDetermine(Unflatten(keys, flat), m);
    }
  }

  // ---------------------------------------------------------------- empty nested documents

  lemma {:induction false} AlongSame(prefix: string, m: Fields, n: Fields, order: seq<string>, before: map<string,
                                     Value>,
                                     after: map<string, Value>)
    requires forall k :: k in order ==> k in m && k in n && m[k] == n[k]
    requires ProducesAlong(prefix, m, order, before, after)
    ensures ProducesAlong(prefix, n, order, before, after)
    decreases |order|
  {
    if order != [] {
      var front, k := order[..|order| - 1], order[|order| - 1];
      assert RoundAfter(prefix, m, front, k, before, after);
      var mid :| ProducesAlong(prefix, m, front, before, mid) && Round(prefix, m, k, mid, after);
      AlongSame(prefix, m, n, front, before, mid);
    }
  }

  function Without(order: seq<string>, k: string): seq<string> {
    if order == [] then []
    else
      var front, last := order[..|order| - 1], order[|order| - 1];
      if last == k then front else Without(front, k) + [last]
  }

  lemma {:induction false} WithoutVisits(order: seq<string>, keys: set<string>, k: string)
    requires Visits(order, keys) && k in keys
    ensures Visits(Without(order, k), keys - {k})
    decreases |order|
  {
    assert k in order;
    var front, last := order[..|order| - 1], order[|order| - 1];
    FrontVisits(order, keys);
    if last != k {
      WithoutVisits(front, keys - {last}, k);
      SnocVisits(Without(front, k), keys - {last} - {k}, last);
      assert keys - {last} - {k} + {last} == keys - {k};
    }
  }

  lemma FrontVisits(order: seq<string>, keys: set<string>)
    requires Visits(order, keys) && order != []
    ensures var front, last := order[..|order| - 1], order[|order| - 1];
      last in keys && Visits(front, keys - {last})
  {
    var front, last := order[..|order| - 1], order[|order| - 1];
    assert order == front + [last];
    assert last in order;
    forall k ensures k in front <==> k in keys - {last} {
      assert k in order <==> k in front || k == last;
    }
  }

  lemma SnocVisits(order: seq<string>, keys: set<string>, last: string)
    requires Visits(order, keys) && last !in keys
    ensures Visits(order + [last], keys + {last})
  {
    assert last !in order;
    forall i, j | 0 <= i < j < |order + [last]| ensures (order + [last])[i] != (order + [last])[j] {
      assert (order + [last])[i] in order;
    }
  }

  lemma VisitsSomething(order: seq<string>)
    requires order != []
    ensures !Visits(order, {})
  {
    assert order[0] in order;
  }

  lemma {:induction false} EmptyDocument(prefix: string, before: map<string, Value>, after: map<string, Value>)
    ensures Produces(prefix, map[], before, after) <==> after == before
  {
    var empty: Fields := map[];
    assert empty.Keys == {};
    if Produces(prefix, empty, before, after) {
      var order :| Visits(order, empty.Keys) && ProducesAlong(prefix, empty, order, before, after);
      if order != [] {
        VisitsSomething(order);
      }
    }
    if after == before {
      assert Visits([], empty.Keys) && ProducesAlong(prefix, empty, [], before, after);
    }
  }

  /** Visiting an empty nested document changes nothing. */
  lemma {:induction false} SkipEmpty(prefix: string, m: Fields, order: seq<string>, k: string, before: map<string,
                                     Value>,
                                     after: map<string, Value>)
    requires k in m && m[k] == Node(map[]) && ProducesAlong(prefix, m, order, before, after)
    ensures ProducesAlong(prefix, m, Without(order, k), before, after)
    decreases |order|
  {
    if order != [] {
      var front, last := order[..|order| - 1], order[|order| - 1];
      assert RoundAfter(prefix, m, front, last, before, after);
      var mid :| ProducesAlong(prefix, m, front, before, mid) && Round(prefix, m, last, mid, after);
      if last == k {
        EmptyDocument(SubKey(prefix, k), mid, after);
      } else {
        SkipEmpty(prefix, m, front, k, before, mid);
        OneMoreRound(prefix, m, Without(front, k), last, before, mid, after);
      }
    }
  }

  /** So an empty nested document leaves no trace: with it or without it a document has the
      same outputs. */
  lemma EmptyNestedIsLost(prefix: string, m: Fields, k: string, before: map<string, Value>, out: map<string, Value>)
    requires k !in m
    ensures Produces(prefix, m, before, out) <==> Produces(prefix, m[k := Node(map[])], before, out)
  {
    var n := m[k := Node(map[])];
    if Produces(prefix, m, before, out) {
      var order :| Visits(order, m.Keys) && ProducesAlong(prefix, m, order, before, out);
      AlongSame(prefix, m, n, order, before, out);
      EmptyDocument(SubKey(prefix, k), out, out);
      OneMoreRound(prefix, n, order, k, before, out, out);
      assert Visits(order + [k], n.Keys);
    }
    if Produces(prefix, n, before, out) {
      var order :| Visits(order, n.Keys) && ProducesAlong(prefix, n, order, before, out);
      WithoutVisits(order, n.Keys, k);
      SkipEmpty(prefix, n, order, k, before, out);
      AlongSame(prefix, n, m, Without(order, k), before, out);
      assert n.Keys - {k} == m.Keys;
    }
  }
}
