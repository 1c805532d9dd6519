/** What the database does for `ORDER BY … OFFSET skip LIMIT limit`:
    arrange a set of row keys by a total preorder and cut a window out of
    the arrangement. SQL leaves the order of rows with equal sort keys
    unspecified, so results are stated for SOME arrangement: any order
    that respects the sort key is allowed. */
module Query {
  import opened Base

  /** `before(a, b)`: row a may be listed before row b. */
  ghost predicate TotalPreorder<K(!new)>(before: (K, K) -> bool) {
    (forall a, b :: before(a, b) || before(b, a)) &&
    (forall a, b, c :: before(a, b) && before(b, c) ==> before(a, c))
  }

  predicate Distinct<K(==)>(s: seq<K>) {
    forall i, j :: 0 <= i < j < |s| ==> s[i] != s[j]
  }

  predicate SortedBy<K>(s: seq<K>, before: (K, K) -> bool) {
    forall i, j :: 0 <= i < j < |s| ==> before(s[i], s[j])
  }

  /** s lists every key of `keys` exactly once, in an order that respects `before`. */
  predicate Arranges<K(==)>(s: seq<K>, keys: set<K>, before: (K, K) -> bool) {
    Distinct(s) && (forall k :: k in s ==> k in keys) && (forall k :: k in keys ==> k in s) && SortedBy(s, before)
  }

  /** OFFSET skip LIMIT limit. */
  function Window<T>(s: seq<T>, skip: nat, limit: nat): (r: seq<T>)
    ensures |r| <= limit
    ensures |r| == Min(limit, |s| - Min(skip, |s|))
    ensures forall i :: 0 <= i < |r| ==> r[i] == s[skip + i]
  {
    s[Min(skip, |s|)..Min(skip + limit, |s|)]
  }

  /** A window of a sorted sequence is sorted. */
  lemma WindowKeepsOrder<K>(s: seq<K>, skip: nat, limit: nat, before: (K, K) -> bool)
    requires SortedBy(s, before)
    ensures SortedBy(Window(s, skip, limit), before)
  {
    var r := Window(s, skip, limit);
    forall i, j | 0 <= i < j < |r| ensures before(r[i], r[j]) {
      assert r[i] == s[skip + i] && r[j] == s[skip + j];
    }
  }

  /** `LIMIT limit` without an offset keeps the best rows: a key the first
      window leaves out may come after every key it lists. */
  lemma FirstWindowDominates<K>(s: seq<K>, keys: set<K>, before: (K, K) -> bool, limit: nat, k: K)
    requires Arranges(s, keys, before) && k in keys
    requires forall i :: 0 <= i < |Window(s, 0, limit)| ==> Window(s, 0, limit)[i] != k
    ensures forall i :: 0 <= i < |Window(s, 0, limit)| ==> before(Window(s, 0, limit)[i], k)
  {
    var r := Window(s, 0, limit);
    var p :| 0 <= p < |s| && s[p] == k;
    forall i | 0 <= i < |r| ensures s[i] != k {
      assert r[i] == s[i];
    }
    forall i | 0 <= i < |r| ensures before(r[i], k) {
      assert r[i] == s[i];
    }
  }

  /** A first window shorter than its limit holds the whole arrangement. */
  lemma ShortFirstWindowIsAll<K>(s: seq<K>, limit: nat)
    requires |Window(s, 0, limit)| < limit
    ensures Window(s, 0, limit) == s
  {
  }

  /** An arrangement has exactly as many positions as there are keys. */
  lemma {:induction false} ArrangesLength<K>(s: seq<K>, keys: set<K>, before: (K, K) -> bool)
    requires Arranges(s, keys, before)
    ensures |s| == |keys|
  {
    if |s| != 0 {
      var rest := keys - {s[0]};
      forall k ensures k in s[1..] <==> k in rest {
        if k in s[1..] {
          var j :| 1 <= j < |s| && s[j] == k;
          assert s[0] != s[j];
        }
        if k in rest {
          assert k in s && k != s[0];
          var j :| 0 <= j < |s| && s[j] == k;
          assert s[1..][j - 1] == k;
        }
      }
      assert Distinct(s[1..]) by {
        forall i, j | 0 <= i < j < |s[1..]| ensures s[1..][i] != s[1..][j] {
          assert s[i + 1] != s[j + 1];
        }
      }
      ArrangesLength(s[1..], rest, before);
    }
  }

  /** Inserting a new key after every key that may precede it keeps the
      arrangement. */
  lemma InsertKeepsArrangement<K(!new)>(s: seq<K>, p: nat, k: K, keys: set<K>, before: (K, K) -> bool)
    requires TotalPreorder(before)
    requires Arranges(s, keys, before) && k !in keys && p <= |s|
    requires forall i :: 0 <= i < p ==> before(s[i], k)
    requires p < |s| ==> !before(s[p], k)
    ensures Arranges(s[..p] + [k] + s[p..], keys + {k}, before)
  {
    var t := s[..p] + [k] + s[p..];
    assert forall i :: 0 <= i < p ==> t[i] == s[i];
    assert t[p] == k;
    assert forall i :: p < i < |t| ==> t[i] == s[i - 1];
    forall i | p <= i < |s| ensures before(k, s[i]) {
      assert before(s[p], k) || before(k, s[p]);
      if i > p {
        assert before(s[p], s[i]);
      }
    }
    forall x ensures x in t <==> x in keys + {k} {
      if x in s {
        var j :| 0 <= j < |s| && s[j] == x;
        if j < p { assert t[j] == x; } else { assert t[j + 1] == x; }
      }
      if x in t {
        var j :| 0 <= j < |t| && t[j] == x;
        if j < p { assert s[j] == x; } else if j > p { assert s[j - 1] == x; }
      }
    }
  }

  /** The database's sort: lists the keys so that `before` is respected. */
  method ArrangeKeys<K(==,!new)>(keys: set<K>, before: (K, K) -> bool) returns (order: seq<K>)
    requires TotalPreorder(before)
    ensures Arranges(order, keys, before)
  {
    order := [];
    var rest := keys;
    while rest != {}
      invariant rest <= keys
      invariant Arranges(order, keys - rest, before)
      decreases rest
    {
      var k :| k in rest;
      var p := 0;
      while p < |order| && before(order[p], k)
        invariant p <= |order|
        invariant forall i :: 0 <= i < p ==> before(order[i], k)
      {
        p := p + 1;
      }
      InsertKeepsArrangement(order, p, k, keys - rest, before);
      assert keys - rest + {k} == keys - (rest - {k});
      order := order[..p] + [k] + order[p..];
      rest := rest - {k};
    }
  }
}
