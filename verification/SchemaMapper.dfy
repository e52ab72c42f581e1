/** Records and the masking applied to them between reader and writer. */
module SchemaMapper {
  import opened Common

  // A field value. Nested documents are the subject of module Flattening; here a
  // value matters only through its printed form and its identity.
  datatype Value = Nil | Int(i: int) | Text(s: string) | Opaque(tag: int)

  type Data = map<string, Value>

  /** A record with the part of its metadata the pipeline reads. */
  datatype Record = Record(id: string, pid: string, offset: int, data: Data)

  /** One masking rule; an unknown strategy leaves the value alone. */
  datatype Rule = Rule(column: string, strategy: string)

  /** The rules with the two library calls they depend on: the default
      formatting of a value and the hexadecimal SHA-256 of a string. */
  datatype Mapper = Mapper(rules: seq<Rule>, render: Value -> string, digest: string -> string)

  function ApplyMask(m: Mapper, v: Value, strategy: string): Value {
    var text := m.render(v);
    if strategy == "sha256" then Text(m.digest(text))
    else if strategy == "redact" then Text("[REDACTED]")
    else if strategy == "partial" then
      Text(if |text| > 4 then "****" + text[|text| - 4..] else "****")
    else v
  }

  function MaskOnce(m: Mapper, rule: Rule, data: Data): Data {
    if rule.column in data then data[rule.column := ApplyMask(m, data[rule.column], rule.strategy)] else data
  }

  /** The data after the first n rules. */
  function MaskData(m: Mapper, n: nat, data: Data): Data
    requires n <= |m.rules|
  {
    if n == 0 then data else MaskOnce(m, m.rules[n - 1], MaskData(m, n - 1, data))
  }

  function MapData(m: Option<Mapper>, data: Data): Data {
    if m.None? then data else MaskData(m.value, |m.value.rules|, data)
  }

  /** The record a transformer forwards; without a mapper it forwards its input. */
  function Mapped(m: Option<Mapper>, r: Record): (mapped: Record)
    ensures mapped.id == r.id && mapped.pid == r.pid && mapped.offset == r.offset
  {
    r.(data := MapData(m, r.data))
  }

  // ---------------------------------------------------------------- what a rule leaves

  /** The rules before the i-th. */
  function RulesBefore(m: Mapper, i: nat): Mapper
    requires i <= |m.rules|
  {
    m.(rules := m.rules[..i])
  }

  /** Rule i is the last one for its column. */
  predicate LastRule(m: Mapper, i: nat) {
    i < |m.rules| && forall j :: i < j < |m.rules| ==> m.rules[j].column != m.rules[i].column
  }

  /** What a rule of a strategy leaves of a value. */
  predicate Leaves(m: Mapper, strategy: string, v: Value, w: Value) {
    var text := m.render(v);
    && (strategy == "sha256" ==> w == Text(m.digest(text)))
    && (strategy == "redact" ==> w == Text("[REDACTED]"))
    && (strategy == "partial" && |text| <= 4 ==> w == Text("****"))
    && (strategy == "partial" && |text| > 4 ==> w == Text("****" + text[|text| - 4..]))
    && (strategy != "sha256" && strategy != "redact" && strategy != "partial" ==> w == v)
  }

  // ---------------------------------------------------------------- the loop

  /** A record in memory: its data is overwritten in place. */
  class Document {
    var data: Data

    constructor (d: Data)
      ensures data == d
    {
      data := d;
    }
  }

  /** A column whose last rule is the i-th holds what that rule leaves. */
  predicate Decided(m: Mapper, i: nat, data: Data, now: Data)
    requires LastRule(m, i)
  {
    var c, earlier := m.rules[i].column, MapData(Some(RulesBefore(m, i)), data);
    c in data ==> c in earlier && c in now && Leaves(m, m.rules[i].strategy, earlier[c], now[c])
  }

  method MapRecord(m: Mapper, rec: Document)
    modifies rec
    ensures rec.data == MapData(Some(m), old(rec.data)) && rec.data.Keys == old(rec.data.Keys)
    ensures forall i: nat :: LastRule(m, i) ==> Decided(m, i, old(rec.data), rec.data)
    ensures forall c :: c in rec.data && (forall i :: 0 <= i < |m.rules| ==> m.rules[i].column != c) ==>
        rec.data[c] == old(rec.data)[c]
  {
    for i := 0 to |m.rules|
      invariant rec.data == MaskData(m, i, old(rec.data))
    {
      var rule := m.rules[i];
      if rule.column in rec.data {
        var val := rec.data[rule.column];
        rec.data := rec.data[rule.column := ApplyMask(m, val, rule.strategy)];
      }
    }
    ghost var data := old(rec.data);
    MaskByColumn(m, |m.rules|, data);
    forall i: nat | LastRule(m, i) ensures Decided(m, i, data, rec.data) {
      if m.rules[i].column in data {
        LastRuleDecides(m, i, data);
      }
    }
    forall c | c in data && forall i :: 0 <= i < |m.rules| ==> m.rules[i].column != c ensures rec.data[c] == data[c] {
      UnmaskedColumn(m, |m.rules|, c, data[c]);
    }
  }

  /** The masks of the rules for one column, in rule order, over one value. */
  function ColumnMask(m: Mapper, n: nat, column: string, v: Value): Value
    requires n <= |m.rules|
  {
    if n == 0 then v
    else
      var before := ColumnMask(m, n - 1, column, v);
      if m.rules[n - 1].column == column then ApplyMask(m, before, m.rules[n - 1].strategy) else before
  }

  /** Masking works column by column: it adds and removes none, and what it leaves in one is
      decided by the rules for that column and the value there. */
  lemma {:induction false} MaskByColumn(m: Mapper, n: nat, data: Data)
    requires n <= |m.rules|
    ensures MaskData(m, n, data) == map c | c in data :: ColumnMask(m, n, c, data[c])
  {
    if n > 0 {
      MaskByColumn(m, n - 1, data);
    }
  }

  predicate Redacts(m: Mapper, n: nat, column: string)
    requires n <= |m.rules|
  {
    exists i :: 0 <= i < n && m.rules[i] == Rule(column, "redact")
  }

  lemma {:induction false} RedactedColumn(m: Mapper, n: nat, column: string, v: Value, w: Value)
    requires n <= |m.rules| && Redacts(m, n, column)
    ensures ColumnMask(m, n, column, v) == ColumnMask(m, n, column, w)
  {
    if m.rules[n - 1] != Rule(column, "redact") {
      var i :| 0 <= i < n && m.rules[i] == Rule(column, "redact");
      assert i < n - 1;
      RedactedColumn(m, n - 1, column, v, w);
    }
  }

  /** Two records that differ only in redacted columns become the same record, whatever
      other rules stand before or after. */
  lemma RedactionHidesValue(m: Mapper, a: Data, b: Data)
    requires a.Keys == b.Keys
    requires forall c :: c in a && a[c] != b[c] ==> Redacts(m, |m.rules|, c)
    ensures MapData(Some(m), a) == MapData(Some(m), b)
  {
    var n := |m.rules|;
    MaskByColumn(m, n, a);
    MaskByColumn(m, n, b);
    forall c | c in a ensures ColumnMask(m, n, c, a[c]) == ColumnMask(m, n, c, b[c]) {
      if a[c] != b[c] {
        RedactedColumn(m, n, c, a[c], b[c]);
      }
    }
  }

  /** Columns without a rule reach the target unchanged. */
  lemma {:induction false} UnmaskedColumn(m: Mapper, n: nat, column: string, v: Value)
    requires n <= |m.rules| && forall i :: 0 <= i < n ==> m.rules[i].column != column
    ensures ColumnMask(m, n, column, v) == v
  {
    if n > 0 {
      UnmaskedColumn(m, n - 1, column, v);
    }
  }

  // ---------------------------------------------------------------- what the last rule leaves

  lemma {:induction false} EarlierRules(m: Mapper, i: nat, n: nat, column: string, v: Value)
    requires n <= i <= |m.rules|
    ensures ColumnMask(RulesBefore(m, i), n, column, v) == ColumnMask(m, n, column, v)
  {
    if n > 0 {
      EarlierRules(m, i, n - 1, column, v);
      MaskOfPart(m, RulesBefore(m, i), ColumnMask(m, n - 1, column, v), m.rules[n - 1].strategy);
    }
  }

  lemma MaskOfPart(m: Mapper, part: Mapper, v: Value, strategy: string)
    requires part.render == m.render && part.digest == m.digest
    ensures ApplyMask(part, v, strategy) == ApplyMask(m, v, strategy)
  {
  }

  lemma {:induction false} LaterRules(m: Mapper, i: nat, n: nat, v: Value)
    requires LastRule(m, i) && i < n <= |m.rules|
    ensures ColumnMask(m, n, m.rules[i].column, v) == ColumnMask(m, i + 1, m.rules[i].column, v)
  {
    if n > i + 1 {
      LaterRules(m, i, n - 1, v);
    }
  }

  /** In the record MapRecord leaves, a column holds what its last rule leaves of what the rules
      before it had left there. */
  lemma LastRuleDecides(m: Mapper, i: nat, data: Data)
    requires LastRule(m, i) && m.rules[i].column in data
    ensures Decided(m, i, data, MapData(Some(m), data))
    ensures var c := m.rules[i].column; c in MapData(Some(RulesBefore(m, i)), data) && c in MapData(Some(m), data)
  {
    var c := m.rules[i].column;
    MaskByColumn(RulesBefore(m, i), i, data);
    MaskByColumn(m, |m.rules|, data);
    EarlierRules(m, i, i, c, data[c]);
    LaterRules(m, i, |m.rules|, data[c]);
    MaskLeaves(m, ColumnMask(m, i, c, data[c]), m.rules[i].strategy);
  }

  lemma MaskLeaves(m: Mapper, v: Value, strategy: string)
    ensures Leaves(m, strategy, v, ApplyMask(m, v, strategy))
  {
  }

  /** When a rule of a strategy makes two values one. */
  predicate Confuses(m: Mapper, strategy: string, v: Value, w: Value) {
    var s, t := m.render(v), m.render(w);
    if strategy == "sha256" then m.digest(s) == m.digest(t)
    else if strategy == "redact" then true
    else if strategy == "partial" then
      if |s| <= 4 || |t| <= 4 then |s| <= 4 && |t| <= 4 else s[|s| - 4..] == t[|t| - 4..]
    else v == w
  }

  lemma SameTail(head: string, a: string, b: string)
    ensures head + a == head + b <==> a == b
  {
    assert (head + a)[|head|..] == a && (head + b)[|head|..] == b;
  }

  lemma LeftsConfused(m: Mapper, strategy: string, v: Value, w: Value, v': Value, w': Value)
    requires Leaves(m, strategy, v, v') && Leaves(m, strategy, w, w')
    ensures v' == w' <==> Confuses(m, strategy, v, w)
  {
    var s, t := m.render(v), m.render(w);
    if strategy == "partial" {
      if |s| > 4 && |t| > 4 {
        SameTail("****", s[|s| - 4..], t[|t| - 4..]);
      } else if |s| > 4 || |t| > 4 {
        SameTail("****", if |s| > 4 then s[|s| - 4..] else t[|t| - 4..], "");
        assert "****" + "" == "****";
      }
    }
  }

  /** What masking still tells apart: two records end up with the same value in a column exactly
      when its last rule cannot tell what the rules before it had left there. */
  lemma MaskedAlikeIff(m: Mapper, i: nat, a: Data, b: Data)
    requires LastRule(m, i) && m.rules[i].column in a && m.rules[i].column in b
    ensures var c, before := m.rules[i].column, Some(RulesBefore(m, i));
      && c in MapData(before, a) && c in MapData(before, b) && c in MapData(Some(m), a) && c in MapData(Some(m), b)
      && (MapData(Some(m), a)[c] == MapData(Some(m), b)[c] <==>
            Confuses(m, m.rules[i].strategy, MapData(before, a)[c], MapData(before, b)[c]))
  {
    var c, before := m.rules[i].column, Some(RulesBefore(m, i));
    LastRuleDecides(m, i, a);
    LastRuleDecides(m, i, b);
    LeftsConfused(m, m.rules[i].strategy, MapData(before, a)[c], MapData(before, b)[c],
                  MapData(Some(m), a)[c], MapData(Some(m), b)[c]);
  }
}
