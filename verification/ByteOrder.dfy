/** Lexicographic order on keys, which are strings of bytes, and the interval a prefix spans. */
module ByteOrder {
  predicate Below(a: string, b: string) {
    b != [] && (a == [] || a[0] < b[0] || (a[0] == b[0] && Below(a[1..], b[1..])))
  }

  predicate HasPrefix(key: string, prefix: string) { prefix <= key }

  /** A key is below another if it is a proper prefix of it or has the lesser byte where they
      first differ. */
  lemma {:induction false} BelowIff(a: string, b: string)
    ensures Below(a, b) <==> a < b || exists k :: 0 <= k < |a| && k < |b| && LessFrom(a, b, k)
  {
    if a != [] && b != [] && a[0] == b[0] {
      BelowIff(a[1..], b[1..]);
      assert a == [a[0]] + a[1..] && b == [b[0]] + b[1..];
      if k :| 0 <= k < |a[1..]| && k < |b[1..]| && LessFrom(a[1..], b[1..], k) {
        forall i | 0 <= i < k + 1 ensures a[i] == b[i] { assert i > 0 ==> a[1..][i - 1] == b[1..][i - 1]; }
        assert LessFrom(a, b, k + 1);
      }
      if k :| 0 <= k < |a| && k < |b| && LessFrom(a, b, k) {
        assert LessFrom(a[1..], b[1..], k - 1);
      }
    } else if a != [] && b != [] {
      assert a[0] < b[0] ==> LessFrom(a, b, 0);
    }
  }

  predicate LessFrom(a: string, b: string, k: nat)
    requires k < |a| && k < |b|
  {
    a[k] < b[k] && forall i :: 0 <= i < k ==> a[i] == b[i]
  }

  lemma {:induction false} Irreflexive(a: string)
    ensures !Below(a, a)
  {
    if a != [] {
      Irreflexive(a[1..]);
    }
  }

  lemma {:induction false} Transitive(a: string, b: string, c: string)
    requires Below(a, b) && Below(b, c)
    ensures Below(a, c)
  {
    if a != [] && a[0] == b[0] && b[0] == c[0] {
      Transitive(a[1..], b[1..], c[1..]);
    }
  }

  lemma {:induction false} Total(a: string, b: string)
    ensures Below(a, b) || a == b || Below(b, a)
  {
    if a != [] && b != [] && a[0] == b[0] {
      Total(a[1..], b[1..]);
      assert a == [a[0]] + a[1..] && b == [b[0]] + b[1..];
    }
  }

  /** Keys with a prefix are at or after the prefix itself. */
  lemma {:induction false} PrefixNotAbove(key: string, prefix: string)
    requires HasPrefix(key, prefix)
    ensures !Below(key, prefix)
  {
    if prefix != [] {
      assert prefix[1..] <= key[1..];
      PrefixNotAbove(key[1..], prefix[1..]);
    }
  }

  /** They form one interval: a key between the prefix and a prefixed key has the prefix. */
  lemma {:induction false} PrefixInterval(prefix: string, key: string, last: string)
    requires !Below(key, prefix) && Below(key, last) && HasPrefix(last, prefix)
    ensures HasPrefix(key, prefix)
  {
    if prefix != [] {
      assert prefix[1..] <= last[1..];
      PrefixInterval(prefix[1..], key[1..], last[1..]);
      assert prefix == [prefix[0]] + prefix[1..] && key == [key[0]] + key[1..];
    }
  }

  /** A common prefix does not change the order of what follows it. */
  lemma {:induction false} SamePrefixOrder(prefix: string, a: string, b: string)
    ensures Below(prefix + a, prefix + b) <==> Below(a, b)
  {
    if prefix == [] {
      assert prefix + a == a && prefix + b == b;
    } else {
      assert (prefix + a)[1..] == prefix[1..] + a && (prefix + b)[1..] == prefix[1..] + b;
      SamePrefixOrder(prefix[1..], a, b);
    }
  }
}
