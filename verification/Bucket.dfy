/** A bbolt bucket: entries in strictly ascending key order. */
module Bucket {
  import opened Common
  import opened ByteOrder

  datatype Entry<V> = Entry(key: string, value: V)

  predicate Ordered<V>(es: seq<Entry<V>>) {
    forall i, j :: 0 <= i < j < |es| ==> Below(es[i].key, es[j].key)
  }

  /** The bucket as the map it stores. */
  function View<V>(es: seq<Entry<V>>): map<string, V> {
    if es == [] then map[] else View(es[1..])[es[0].key := es[0].value]
  }

  /** Cursor.Seek: the position of the first key at or after the given one. */
  function Seek<V>(es: seq<Entry<V>>, key: string): (n: nat)
    ensures n <= |es|
  {
    if es == [] || !Below(es[0].key, key) then 0 else 1 + Seek(es[1..], key)
  }

  function Put<V>(es: seq<Entry<V>>, key: string, value: V): seq<Entry<V>> {
    var n := Seek(es, key);
    if n < |es| && es[n].key == key then es[n := Entry(key, value)]
    else es[..n] + [Entry(key, value)] + es[n..]
  }

  function Delete<V>(es: seq<Entry<V>>, key: string): seq<Entry<V>> {
    var n := Seek(es, key);
    if n < |es| && es[n].key == key then es[..n] + es[n + 1..] else es
  }

  function Get<V>(es: seq<Entry<V>>, key: string): Option<V> {
    var n := Seek(es, key);
    if n < |es| && es[n].key == key then Some(es[n].value) else None
  }

  /** Seek splits the keys into those below and those at or above. */
  lemma {:induction false} SeekSplits<V>(es: seq<Entry<V>>, key: string)
    requires Ordered(es)
    ensures forall i :: 0 <= i < Seek(es, key) ==> Below(es[i].key, key)
    ensures forall i :: Seek(es, key) <= i < |es| ==> !Below(es[i].key, key)
  {
    if es != [] {
      if Below(es[0].key, key) {
        SeekSplits(es[1..], key);
        forall i | 0 <= i < Seek(es, key) ensures Below(es[i].key, key) {
          if i > 0 { assert es[i] == es[1..][i - 1]; }
        }
        forall i | Seek(es, key) <= i < |es| ensures !Below(es[i].key, key) {
          assert es[i] == es[1..][i - 1];
        }
      } else {
        forall i | 0 <= i < |es| ensures !Below(es[i].key, key) {
          if i > 0 && Below(es[i].key, key) {
            Transitive(es[0].key, es[i].key, key);
          }
        }
      }
    }
  }

  lemma {:induction false} ViewHas<V>(es: seq<Entry<V>>, key: string)
    requires Ordered(es)
    ensures key in View(es) <==> exists i :: 0 <= i < |es| && es[i].key == key
  {
    if es != [] {
      ViewHas(es[1..], key);
      if key in View(es[1..]) {
        var i :| 0 <= i < |es[1..]| && es[1..][i].key == key;
        assert es[i + 1].key == key;
      }
      forall i | 0 < i < |es| && es[i].key == key ensures key in View(es[1..]) {
        assert es[1..][i - 1].key == key;
      }
    }
  }

  lemma {:induction false} ViewAt<V>(es: seq<Entry<V>>, i: nat)
    requires Ordered(es) && i < |es|
    ensures es[i].key in View(es) && View(es)[es[i].key] == es[i].value
  {
    if i > 0 {
      Irreflexive(es[0].key);
      assert es[0].key != es[i].key;
      ViewAt(es[1..], i - 1);
    }
  }

  lemma {:induction false} FoundAt<V>(es: seq<Entry<V>>, key: string, i: nat)
    requires Ordered(es) && i < |es| && es[i].key == key
    ensures Seek(es, key) == i
  {
    Irreflexive(key);
    if i > 0 {
      assert Below(es[0].key, es[i].key);
      FoundAt(es[1..], key, i - 1);
    }
  }

  lemma {:induction false} GetIsLookup<V>(es: seq<Entry<V>>, key: string)
    requires Ordered(es)
    ensures Get(es, key) == if key in View(es) then Some(View(es)[key]) else None
  {
    ViewHas(es, key);
    if i :| 0 <= i < |es| && es[i].key == key {
      FoundAt(es, key, i);
      ViewAt(es, i);
    }
  }

  /** Two buckets are the same map when they have the same entries. */
  lemma {:induction false} SameView<V>(a: seq<Entry<V>>, m: map<string, V>)
    requires Ordered(a)
    requires forall i :: 0 <= i < |a| ==> a[i].key in m && m[a[i].key] == a[i].value
    requires forall k :: k in m ==> exists i :: 0 <= i < |a| && a[i].key == k
    ensures View(a) == m
  {
    forall k | k in View(a) || k in m ensures k in View(a) && k in m && View(a)[k] == m[k] {
      ViewHas(a, k);
      var i :| 0 <= i < |a| && a[i].key == k;
      ViewAt(a, i);
    }
  }

  lemma PutOrdered<V>(es: seq<Entry<V>>, key: string, value: V)
    requires Ordered(es)
    ensures Ordered(Put(es, key, value))
  {
    SeekSplits(es, key);
    var n, r := Seek(es, key), Put(es, key, value);
    if !(n < |es| && es[n].key == key) {
      forall i, j | 0 <= i < j < |r| ensures Below(r[i].key, r[j].key) {
        if i == n {
          assert r[j] == es[j - 1];
          Total(key, es[j - 1].key);
          if n < j - 1 { Total(key, es[n].key); Transitive(key, es[n].key, es[j - 1].key); }
        } else if j > n && j != n {
          assert r[j] == es[j - 1];
        }
      }
    }
  }

  lemma {:induction false} PutIsUpdate<V>(es: seq<Entry<V>>, key: string, value: V)
    requires Ordered(es)
    ensures Ordered(Put(es, key, value)) && View(Put(es, key, value)) == View(es)[key := value]
  {
    var n, r, m := Seek(es, key), Put(es, key, value), View(es)[key := value];
    PutOrdered(es, key, value);
    forall i | 0 <= i < |r| ensures r[i].key in m && m[r[i].key] == r[i].value {
      if r[i].key != key {
        var j := if (n < |es| && es[n].key == key) || i < n then i else i - 1;
        assert r[i] == es[j];
        ViewAt(es, j);
      } else if i != n {
        assert r[n].key == key;
        Irreflexive(key);
      }
    }
    forall k | k in m ensures exists i :: 0 <= i < |r| && r[i].key == k {
      if k == key {
        assert r[n].key == key;
      } else {
        ViewHas(es, k);
        var j :| 0 <= j < |es| && es[j].key == k;
        assert r[if (n < |es| && es[n].key == key) || j < n then j else j + 1].key == k;
      }
    }
    SameView(r, m);
  }

  lemma {:induction false} DeleteIsRemove<V>(es: seq<Entry<V>>, key: string)
    requires Ordered(es)
    ensures Ordered(Delete(es, key)) && View(Delete(es, key)) == View(es) - {key}
  {
    var n, r, m := Seek(es, key), Delete(es, key), View(es) - {key};
    var hit := n < |es| && es[n].key == key;
    forall i | 0 <= i < |r| ensures r[i].key in m && m[r[i].key] == r[i].value {
      var j := if hit && i >= n then i + 1 else i;
      assert r[i] == es[j];
      ViewAt(es, j);
      if es[j].key == key {
        FoundAt(es, key, j);
      }
    }
    forall k | k in m ensures exists i :: 0 <= i < |r| && r[i].key == k {
      ViewHas(es, k);
      var j :| 0 <= j < |es| && es[j].key == k;
      assert r[if hit && j > n then j - 1 else j].key == k;
    }
    SameView(r, m);
  }

  // ---------------------------------------------------------------- selections

  /** The entries whose key satisfies a predicate, by looking at every entry. */
  function Select<V>(es: seq<Entry<V>>, keep: string -> bool): seq<Entry<V>> {
    if es == [] then []
    else (if keep(es[0].key) then [es[0]] else []) + Select(es[1..], keep)
  }

  lemma {:induction false} SelectConcat<V>(a: seq<Entry<V>>, b: seq<Entry<V>>, keep: string -> bool)
    ensures Select(a + b, keep) == Select(a, keep) + Select(b, keep)
  {
    if a == [] {
      assert a + b == b;
    } else {
      assert (a + b)[1..] == a[1..] + b;
      SelectConcat(a[1..], b, keep);
    }
  }

  lemma {:induction false} SelectAll<V>(es: seq<Entry<V>>, keep: string -> bool)
    requires forall i :: 0 <= i < |es| ==> keep(es[i].key)
    ensures Select(es, keep) == es
  {
    if es != [] {
      SelectAll(es[1..], keep);
      assert es == [es[0]] + es[1..];
    }
  }

  lemma {:induction false} SelectNone<V>(es: seq<Entry<V>>, keep: string -> bool)
    requires forall i :: 0 <= i < |es| ==> !keep(es[i].key)
    ensures Select(es, keep) == []
  {
    if es != [] {
      SelectNone(es[1..], keep);
    }
  }

  lemma {:induction false} SelectSlice<V>(es: seq<Entry<V>>, keep: string -> bool, lo: nat, hi: nat)
    requires lo <= hi <= |es|
    requires forall j :: 0 <= j < |es| ==> (keep(es[j].key) <==> lo <= j < hi)
    ensures Select(es, keep) == es[lo..hi]
  {
    assert es == es[..lo] + (es[lo..hi] + es[hi..]);
    SelectConcat(es[..lo], es[lo..hi] + es[hi..], keep);
    SelectConcat(es[lo..hi], es[hi..], keep);
    SelectNone(es[..lo], keep);
    SelectAll(es[lo..hi], keep);
    SelectNone(es[hi..], keep);
  }

  lemma {:induction false} SelectOutside<V>(es: seq<Entry<V>>, keep: string -> bool, lo: nat, hi: nat)
    requires lo <= hi <= |es|
    requires forall j :: 0 <= j < |es| ==> (keep(es[j].key) <==> !(lo <= j < hi))
    ensures Select(es, keep) == es[..lo] + es[hi..]
  {
    var a, b, c := es[..lo], es[lo..hi], es[hi..];
    assert es == a + (b + c);
    SelectConcat(a, b + c, keep);
    SelectConcat(b, c, keep);
    SelectAll(a, keep);
    SelectNone(b, keep);
    SelectAll(c, keep);
    assert [] + c == c;
  }

  lemma {:induction false} SelectMember<V>(es: seq<Entry<V>>, keep: string -> bool, e: Entry<V>)
    ensures e in Select(es, keep) <==> e in es && keep(e.key)
  {
    if es != [] {
      SelectMember(es[1..], keep, e);
      assert e in es <==> e == es[0] || e in es[1..];
    }
  }

  lemma {:induction false} SelectOrdered<V>(es: seq<Entry<V>>, keep: string -> bool)
    requires Ordered(es)
    ensures Ordered(Select(es, keep))
  {
    if es != [] {
      var rest := Select(es[1..], keep);
      SelectOrdered(es[1..], keep);
      forall j | 0 <= j < |rest| ensures Below(es[0].key, rest[j].key) {
        SelectMember(es[1..], keep, rest[j]);
        assert rest[j] in es[1..];
      }
    }
  }

  lemma {:induction false} SelectView<V>(es: seq<Entry<V>>, keep: string -> bool)
    requires Ordered(es)
    ensures Ordered(Select(es, keep))
    ensures View(Select(es, keep)) == map k | k in View(es) && keep(k) :: View(es)[k]
  {
    var r, m := Select(es, keep), map k | k in View(es) && keep(k) :: View(es)[k];
    SelectOrdered(es, keep);
    forall i | 0 <= i < |r| ensures r[i].key in m && m[r[i].key] == r[i].value {
      SelectMember(es, keep, r[i]);
      var j :| 0 <= j < |es| && es[j] == r[i];
      ViewAt(es, j);
    }
    forall k | k in m ensures exists i :: 0 <= i < |r| && r[i].key == k {
      ViewHas(es, k);
      var j :| 0 <= j < |es| && es[j].key == k;
      SelectMember(es, keep, es[j]);
    }
    SameView(r, m);
  }
}
