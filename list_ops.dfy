/**
 * The list transforms every page applies to its cached collections when a
 * server reply arrives: `prev.map(x => x.id === id ? f(x) : x)` and
 * `prev.filter(x => x.id !== id)`. They are written once here over any
 * element type and any key, and the pages instantiate them with the entity's id.
 */
module ListOps {

  /** `s.map(x => key(x) === k ? f(x) : x)` */
  function MapWhere<T, K(==)>(s: seq<T>, key: T -> K, k: K, f: T -> T): (r: seq<T>)
    ensures |r| == |s|
    ensures forall i :: 0 <= i < |s| ==> r[i] == if key(s[i]) == k then f(s[i]) else s[i]
  {
    if s == [] then []
    else [if key(s[0]) == k then f(s[0]) else s[0]] + MapWhere(s[1..], key, k, f)
  }

  /** `s.map(x => key(x) === k ? v : x)` */
  function ReplaceWhere<T, K(==)>(s: seq<T>, key: T -> K, k: K, v: T): (r: seq<T>)
  {
    MapWhere(s, key, k, _ => v)
  }

  /** `s.filter(x => key(x) !== k)` */
  function RemoveWhere<T, K(==)>(s: seq<T>, key: T -> K, k: K): (r: seq<T>)
    ensures |r| <= |s|
    ensures forall i :: 0 <= i < |r| ==> key(r[i]) != k
  {
    if s == [] then []
    else (if key(s[0]) == k then [] else [s[0]]) + RemoveWhere(s[1..], key, k)
  }

  /** `a` can be obtained from `b` by deleting elements: `a` keeps `b`'s order. */
  predicate Subseq<T(==)>(a: seq<T>, b: seq<T>)
    decreases |b|
  {
    a == [] || (b != [] && if a[0] == b[0] then Subseq(a[1..], b[1..]) else Subseq(a, b[1..]))
  }

  predicate NoneHasKey<T, K(==)>(s: seq<T>, key: T -> K, k: K) {
    forall i :: 0 <= i < |s| ==> key(s[i]) != k
  }

  // ---------------------------------------------------------------------
  // Replace by key

  /** A replacement changes exactly the elements whose key matches, each into `v`;
      every other element keeps its value and its position. */
  lemma ReplaceWhereSpec<T, K>(s: seq<T>, key: T -> K, k: K, v: T)
    ensures |ReplaceWhere(s, key, k, v)| == |s|
    ensures forall i :: 0 <= i < |s| && key(s[i]) == k ==> ReplaceWhere(s, key, k, v)[i] == v
    ensures forall i :: 0 <= i < |s| && key(s[i]) != k ==> ReplaceWhere(s, key, k, v)[i] == s[i]
  {
  }

  /** When no element has the key, the list is returned unchanged. */
  lemma {:induction false} MapWhereAbsent<T, K>(s: seq<T>, key: T -> K, k: K, f: T -> T)
    requires NoneHasKey(s, key, k)
    ensures MapWhere(s, key, k, f) == s
  {
    if s != [] {
      MapWhereAbsent(s[1..], key, k, f);
    }
  }

  /** A patch that keeps keys keeps the sequence of keys, so a second patch
      finds the same elements. */
  lemma MapWhereKeepsKeys<T, K>(s: seq<T>, key: T -> K, k: K, f: T -> T)
    requires forall x :: key(f(x)) == key(x)
    ensures forall i :: 0 <= i < |s| ==> key(MapWhere(s, key, k, f)[i]) == key(s[i])
  {
  }

  /** Applying the same idempotent, key-preserving patch twice is applying it once:
      a repeated server reply leaves the cache as the first one did. */
  lemma {:induction false} MapWhereIdempotent<T, K>(s: seq<T>, key: T -> K, k: K, f: T -> T)
    requires forall x :: key(f(x)) == key(x) && f(f(x)) == f(x)
    ensures MapWhere(MapWhere(s, key, k, f), key, k, f) == MapWhere(s, key, k, f)
  {
    if s != [] {
      MapWhereIdempotent(s[1..], key, k, f);
      assert MapWhere(s, key, k, f)[1..] == MapWhere(s[1..], key, k, f);
    }
  }

  // ---------------------------------------------------------------------
  // Remove by key

  /** Filtering keeps the order of the survivors. */
  lemma {:induction false} RemoveWhereSubseq<T, K>(s: seq<T>, key: T -> K, k: K)
    ensures Subseq(RemoveWhere(s, key, k), s)
  {
    if s != [] {
      RemoveWhereSubseq(s[1..], key, k);
      var r := RemoveWhere(s[1..], key, k);
      if key(s[0]) == k {
        assert RemoveWhere(s, key, k) == r;
        SubseqDropHead(r, s);
      } else {
        assert ([s[0]] + r)[1..] == r;
      }
    }
  }

  lemma {:induction false} SubseqDropHead<T>(a: seq<T>, b: seq<T>)
    requires b != [] && Subseq(a, b[1..])
    ensures Subseq(a, b)
    decreases |b|, 0
  {
    if a != [] && a[0] == b[0] {
      // a[0] is matched against b[0]; the remaining a[1..] is a subsequence of b[1..]
      SubseqTail(a, b[1..]);
    }
  }

  lemma {:induction false} SubseqTail<T>(a: seq<T>, b: seq<T>)
    requires a != [] && Subseq(a, b)
    ensures Subseq(a[1..], b)
    decreases |b|, 1
  {
    assert b != [];
    if a[0] == b[0] {
      if a[1..] != [] {
        SubseqDropHead(a[1..], b);
      }
    } else {
      SubseqTail(a, b[1..]);
      if a[1..] != [] {
        SubseqDropHead(a[1..], b);
      }
    }
  }

  /** The survivors of a filter are exactly the elements whose key differs. */
  lemma {:induction false} RemoveWhereMembers<T, K>(s: seq<T>, key: T -> K, k: K)
    ensures forall x :: x in RemoveWhere(s, key, k) <==> x in s && key(x) != k
  {
    if s != [] {
      RemoveWhereMembers(s[1..], key, k);
      assert s == [s[0]] + s[1..];
    }
  }

  /** Filtering keeps every occurrence of an element whose key differs and
      drops every occurrence of one whose key matches. */
  lemma {:induction false} RemoveWhereCount<T, K>(s: seq<T>, key: T -> K, k: K, x: T)
    ensures multiset(RemoveWhere(s, key, k))[x] == if key(x) == k then 0 else multiset(s)[x]
  {
    if s != [] {
      RemoveWhereCount(s[1..], key, k, x);
      var h := if key(s[0]) == k then [] else [s[0]];
      var t := RemoveWhere(s[1..], key, k);
      assert multiset(RemoveWhere(s, key, k)) == multiset(h) + multiset(t);
      assert s == [s[0]] + s[1..];
      assert multiset(s) == multiset([s[0]]) + multiset(s[1..]);
    }
  }

  /** Filtering distributes over concatenation. */
  lemma {:induction false} RemoveWhereConcat<T, K>(s: seq<T>, t: seq<T>, key: T -> K, k: K)
    ensures RemoveWhere(s + t, key, k) == RemoveWhere(s, key, k) + RemoveWhere(t, key, k)
  {
    if s != [] {
      assert (s + t)[0] == s[0];
      assert (s + t)[1..] == s[1..] + t;
      RemoveWhereConcat(s[1..], t, key, k);
      var h := if key(s[0]) == k then [] else [s[0]];
      assert RemoveWhere(s + t, key, k) == h + RemoveWhere(s[1..] + t, key, k);
      assert RemoveWhere(s, key, k) == h + RemoveWhere(s[1..], key, k);
      var a, b := RemoveWhere(s[1..], key, k), RemoveWhere(t, key, k);
      assert h + (a + b) == (h + a) + b;
    } else {
      assert s + t == t;
    }
  }

  /** When no element has the key, filtering returns the list unchanged. */
  lemma {:induction false} RemoveWhereAbsent<T, K>(s: seq<T>, key: T -> K, k: K)
    requires NoneHasKey(s, key, k)
    ensures RemoveWhere(s, key, k) == s
  {
    if s != [] {
      RemoveWhereAbsent(s[1..], key, k);
    }
  }

  /** Appending a freshly created element and then deleting by its key
      restores the list as it was. */
  lemma AppendThenRemove<T, K>(s: seq<T>, key: T -> K, x: T)
    requires NoneHasKey(s, key, key(x))
    ensures RemoveWhere(s + [x], key, key(x)) == s
  {
    RemoveWhereConcat(s, [x], key, key(x));
    RemoveWhereAbsent(s, key, key(x));
  }

  /** Deleting after replacing under the same key is deleting. */
  lemma {:induction false} RemoveAfterReplace<T, K>(s: seq<T>, key: T -> K, k: K, v: T)
    requires key(v) == k
    ensures RemoveWhere(ReplaceWhere(s, key, k, v), key, k) == RemoveWhere(s, key, k)
  {
    if s != [] {
      RemoveAfterReplace(s[1..], key, k, v);
      assert ReplaceWhere(s, key, k, v)[1..] == ReplaceWhere(s[1..], key, k, v);
    }
  }
}
