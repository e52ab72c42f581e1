// Sequences, bags and sums shared by the other modules.
module Common {
  datatype Option<+T> = None | Some(value: T)

  datatype Result<+T> = Ok(value: T) | Err(reason: string)

  function Lookup<K, V>(m: map<K, V>, k: K): Option<V> { if k in m then Some(m[k]) else None }

  lemma SameLookups<K, V>(a: map<K, V>, b: map<K, V>)
    requires forall k :: Lookup(a, k) == Lookup(b, k)
    ensures a == b
  {
    forall k ensures k in a <==> k in b { assert Lookup(a, k) == Lookup(b, k); }
    forall k | k in a ensures a[k] == b[k] { assert Lookup(a, k) == Lookup(b, k); }
  }

  predicate Distinct(keys: seq<string>) {
    forall i, j :: 0 <= i < j < |keys| ==> keys[i] != keys[j]
  }

  /** An order in which Go may range over a map with these keys. */
  ghost predicate Visits(order: seq<string>, keys: set<string>) {
    Distinct(order) && forall k :: k in order <==> k in keys
  }

  lemma MulMono(a: int, b: int, c: int)
    requires a <= b && c >= 0
    ensures a * c <= b * c
  {
  }

  /** The concatenation of a list of lists. */
  function Flat<T>(ss: seq<seq<T>>): (r: seq<T>) {
    if ss == [] then [] else ss[0] + Flat(ss[1..])
  }

  lemma {:induction false} FlatConcat<T>(a: seq<seq<T>>, b: seq<seq<T>>)
    ensures Flat(a + b) == Flat(a) + Flat(b)
  {
    if a == [] {
      assert a + b == b;
    } else {
      assert (a + b)[0] == a[0] && (a + b)[1..] == a[1..] + b;
      FlatConcat(a[1..], b);
    }
  }

  lemma {:induction false} FlatSnoc<T>(a: seq<seq<T>>, x: seq<T>)
    ensures Flat(a + [x]) == Flat(a) + x
  {
    FlatConcat(a, [x]);
    assert Flat([x]) == x + Flat<T>([]);
  }

  /** All the elements of a list of lists, with multiplicity. */
  ghost function Bag<T>(ss: seq<seq<T>>): multiset<T> {
    if ss == [] then multiset{} else multiset(ss[0]) + Bag(ss[1..])
  }

  lemma {:induction false} BagUpdate<T>(ss: seq<seq<T>>, i: nat, x: seq<T>)
    requires i < |ss|
    ensures Bag(ss[i := x]) + multiset(ss[i]) == Bag(ss) + multiset(x)
  {
    var tt := ss[i := x];
    if i == 0 {
      assert tt[1..] == ss[1..];
    } else {
      var rest := ss[1..];
      assert tt[1..] == rest[i - 1 := x];
      BagUpdate(rest, i - 1, x);
      assert Bag(tt) == multiset(ss[0]) + Bag(rest[i - 1 := x]);
      assert Bag(tt) + multiset(ss[i]) == multiset(ss[0]) + (Bag(rest[i - 1 := x]) + multiset(rest[i - 1]));
    }
  }

  lemma BagUpdateCount<T>(ss: seq<seq<T>>, i: nat, x: seq<T>, e: T)
    requires i < |ss|
    ensures Bag(ss[i := x])[e] + multiset(ss[i])[e] == Bag(ss)[e] + multiset(x)[e]
  {
    BagUpdate(ss, i, x);
    assert (Bag(ss[i := x]) + multiset(ss[i]))[e] == (Bag(ss) + multiset(x))[e];
  }

  /** Taking the first element out of one of the lists. */
  lemma BagPop<T>(ss: seq<seq<T>>, i: nat)
    requires i < |ss| && ss[i] != []
    ensures Bag(ss) == Bag(ss[i := ss[i][1..]]) + multiset{ss[i][0]}
  {
    BagUpdate(ss, i, ss[i][1..]);
    PopFront(ss[i]);
    CancelBag(Bag(ss), Bag(ss[i := ss[i][1..]]), multiset(ss[i][1..]), multiset{ss[i][0]});
  }

  /** Adding an element at the end of one of the lists. */
  lemma BagPush<T>(ss: seq<seq<T>>, i: nat, x: T)
    requires i < |ss|
    ensures Bag(ss[i := ss[i] + [x]]) == Bag(ss) + multiset{x}
  {
    BagUpdate(ss, i, ss[i] + [x]);
    CancelBag(Bag(ss[i := ss[i] + [x]]), Bag(ss), multiset(ss[i]), multiset{x});
  }

  lemma CancelBag<T>(a: multiset<T>, b: multiset<T>, c: multiset<T>, x: multiset<T>)
    requires b + (x + c) == a + c || a + c == b + (c + x)
    ensures a == b + x
  {
    forall e ensures a[e] == (b + x)[e] {
      assert (b + (x + c))[e] == b[e] + x[e] + c[e] && (a + c)[e] == a[e] + c[e];
      assert (b + (c + x))[e] == b[e] + x[e] + c[e];
    }
  }

  lemma PopFront<T>(s: seq<T>)
    requires s != []
    ensures multiset(s) == multiset{s[0]} + multiset(s[1..])
  {
    assert s == [s[0]] + s[1..];
  }

  lemma {:induction false} BagConcat<T>(a: seq<seq<T>>, b: seq<seq<T>>)
    ensures Bag(a + b) == Bag(a) + Bag(b)
  {
    if a == [] {
      assert a + b == b;
    } else {
      assert (a + b)[0] == a[0] && (a + b)[1..] == a[1..] + b;
      BagConcat(a[1..], b);
    }
  }

  lemma {:induction false} BagOfEmpties<T>(ss: seq<seq<T>>)
    requires forall i :: 0 <= i < |ss| ==> ss[i] == []
    ensures Bag(ss) == multiset{}
  {
    if ss != [] {
      assert ss[0] == [];
      BagOfEmpties(ss[1..]);
    }
  }

  lemma {:induction false} BagContains<T>(ss: seq<seq<T>>, i: nat, x: T)
    requires i < |ss| && x in ss[i]
    ensures x in Bag(ss)
  {
    if i > 0 {
      BagContains(ss[1..], i - 1, x);
    }
  }

  function Sum(ns: seq<nat>): nat {
    if ns == [] then 0 else ns[0] + Sum(ns[1..])
  }

  lemma {:induction false} SumUpdate(ns: seq<nat>, i: nat, n: nat)
    requires i < |ns|
    ensures Sum(ns[i := n]) + ns[i] == Sum(ns) + n
  {
    var ms := ns[i := n];
    if i == 0 {
      assert ms[1..] == ns[1..];
    } else {
      assert ms[1..] == ns[1..][i - 1 := n];
      SumUpdate(ns[1..], i - 1, n);
    }
  }

  lemma {:induction false} SumConcat(a: seq<nat>, b: seq<nat>)
    ensures Sum(a + b) == Sum(a) + Sum(b)
  {
    if a == [] {
      assert a + b == b;
    } else {
      assert (a + b)[1..] == a[1..] + b;
      SumConcat(a[1..], b);
    }
  }
}
