/** Sequence building blocks shared by the dashboard views: JavaScript's
    `Array.prototype.filter`, order-preserving subsequences, and uniqueness
    of a key (tourist ids, officer emails) within a list. */
module Collections {

  /** A value that may be absent (an optional field, a `null` state). */
  datatype Option<+T> = None | Some(value: T)

  /** `s.filter(f)`: the elements of `s` that satisfy `f`, in their order. */
  function Filter<T(!new)>(f: T -> bool, s: seq<T>): (r: seq<T>)
    ensures |r| <= |s|
    ensures forall x :: x in r <==> x in s && f(x)
  {
    if s == [] then []
    else if f(s[0]) then [s[0]] + Filter(f, s[1..])
    else Filter(f, s[1..])
  }

  /** One step of `Filter` on a list given element by element. */
  lemma FilterCons<T(!new)>(f: T -> bool, x: T, s: seq<T>)
    ensures Filter(f, [x] + s) == (if f(x) then [x] else []) + Filter(f, s)
  {
    assert ([x] + s)[1..] == s;
  }

  /** `a` can be obtained from `b` by deleting elements: the elements of `a`
      occur in `b` in the same order. */
  ghost predicate SubseqOf<T>(a: seq<T>, b: seq<T>)
    decreases |b|
  {
    if a == [] then true
    else if b == [] then false
    else (a[0] == b[0] && SubseqOf(a[1..], b[1..])) || SubseqOf(a, b[1..])
  }

  /** No two positions of `s` carry the same key. */
  ghost predicate KeysUnique<T, K>(s: seq<T>, key: T -> K)
  {
    forall i, j :: 0 <= i < j < |s| ==> key(s[i]) != key(s[j])
  }

  /** Filtering keeps the elements in the order they had. */
  lemma {:induction false} FilterIsSubseq<T(!new)>(f: T -> bool, s: seq<T>)
    ensures SubseqOf(Filter(f, s), s)
  {
    if s != [] {
      FilterIsSubseq(f, s[1..]);
      if f(s[0]) {
        assert Filter(f, s)[1..] == Filter(f, s[1..]);
      } else {
        SubseqSkip(Filter(f, s), s);
      }
    }
  }

  /** Filtering keeps every occurrence of a kept element and no occurrence of
      a dropped one; with `FilterIsSubseq` this pins the result down. */
  lemma {:induction false} FilterMultiplicity<T(!new)>(f: T -> bool, s: seq<T>, x: T)
    ensures multiset(Filter(f, s))[x] == if f(x) then multiset(s)[x] else 0
  {
    if s != [] {
      FilterMultiplicity(f, s[1..], x);
      assert s == [s[0]] + s[1..];
      if f(s[0]) {
        assert Filter(f, s) == [s[0]] + Filter(f, s[1..]);
      }
    }
  }

  /** A filter that every element passes returns the list unchanged. */
  lemma {:induction false} FilterKeepsAll<T(!new)>(f: T -> bool, s: seq<T>)
    requires forall x :: x in s ==> f(x)
    ensures Filter(f, s) == s
  {
    if s != [] {
      FilterKeepsAll(f, s[1..]);
      assert s == [s[0]] + s[1..];
    }
  }

  /** Filtering distributes over concatenation. */
  lemma {:induction false} FilterConcat<T(!new)>(f: T -> bool, a: seq<T>, b: seq<T>)
    ensures Filter(f, a + b) == Filter(f, a) + Filter(f, b)
  {
    if a != [] {
      FilterConcat(f, a[1..], b);
      assert (a + b)[1..] == a[1..] + b;
    } else {
      assert a + b == b;
    }
  }

  /** Two filters of one list joined, where nothing passes both: the first
      part passes `p`, the rest passes `q`, and so every element passing `p`
      comes before every element that does not. */
  lemma FilterPairOrdered<T(!new)>(p: T -> bool, q: T -> bool, s: seq<T>)
    requires forall x :: q(x) ==> !p(x)
    ensures var a := Filter(p, s); var r := a + Filter(q, s);
      (forall i :: 0 <= i < |a| ==> p(r[i])) &&
      (forall i :: |a| <= i < |r| ==> q(r[i])) &&
      (forall i, j :: 0 <= i < j < |r| && p(r[j]) ==> p(r[i]))
  {
    var a, b := Filter(p, s), Filter(q, s);
    var r := a + b;
    forall i | 0 <= i < |a|
      ensures p(r[i])
    {
      assert r[i] == a[i] && a[i] in a;
    }
    forall i | |a| <= i < |r|
      ensures q(r[i])
    {
      assert r[i] == b[i - |a|] && b[i - |a|] in b;
    }
    forall i, j | 0 <= i < j < |r| && p(r[j])
      ensures p(r[i])
    {
      assert j < |a|;
    }
  }

  /** Every sequence is a subsequence of itself. */
  lemma {:induction false} SubseqRefl<T>(s: seq<T>)
    ensures SubseqOf(s, s)
  {
    if s != [] {
      SubseqRefl(s[1..]);
    }
  }

  /** Helper: a subsequence of the tail is a subsequence of the whole. */
  lemma SubseqSkip<T>(a: seq<T>, b: seq<T>)
    requires b != [] && SubseqOf(a, b[1..])
    ensures SubseqOf(a, b)
  {
  }

  /** Every element of a subsequence is an element of the sequence. */
  lemma {:induction false} SubseqMembers<T>(a: seq<T>, b: seq<T>, x: T)
    requires SubseqOf(a, b) && x in a
    ensures x in b
    decreases |b|
  {
    assert a != [] && b != [];
    if a[0] == b[0] && SubseqOf(a[1..], b[1..]) {
      if x != a[0] {
        assert x in a[1..];
        SubseqMembers(a[1..], b[1..], x);
      }
    } else {
      SubseqMembers(a, b[1..], x);
    }
  }

  /** Being a subsequence is transitive. */
  lemma {:induction false} SubseqTrans<T>(a: seq<T>, b: seq<T>, c: seq<T>)
    requires SubseqOf(a, b) && SubseqOf(b, c)
    ensures SubseqOf(a, c)
    decreases |c|
  {
    if a != [] {
      assert b != [] && c != [];
      if b[0] == c[0] && SubseqOf(b[1..], c[1..]) {
        if a[0] == b[0] && SubseqOf(a[1..], b[1..]) {
          SubseqTrans(a[1..], b[1..], c[1..]);
        } else {
          SubseqTrans(a, b[1..], c[1..]);
        }
      } else {
        SubseqTrans(a, b, c[1..]);
      }
    }
  }

  /** Deleting elements cannot create a repeated key. */
  lemma {:induction false} SubseqKeysUnique<T, K>(a: seq<T>, b: seq<T>, key: T -> K)
    requires SubseqOf(a, b) && KeysUnique(b, key)
    ensures KeysUnique(a, key)
    decreases |b|
  {
    if a != [] {
      assert b != [];
      assert KeysUnique(b[1..], key);
      if a[0] == b[0] && SubseqOf(a[1..], b[1..]) {
        SubseqKeysUnique(a[1..], b[1..], key);
        forall j | 1 <= j < |a|
          ensures key(a[0]) != key(a[j])
        {
          assert a[j] in a[1..];
          SubseqMembers(a[1..], b[1..], a[j]);
          var k :| 0 <= k < |b[1..]| && b[1..][k] == a[j];
          assert b[k + 1] == a[j];
        }
      } else {
        SubseqKeysUnique(a, b[1..], key);
      }
    }
  }

  /** Two elements of a list with unique keys that share a key are the same. */
  lemma KeysUniqueSameKey<T, K>(s: seq<T>, key: T -> K, x: T, y: T)
    requires KeysUnique(s, key) && x in s && y in s && key(x) == key(y)
    ensures x == y
  {
    var i :| 0 <= i < |s| && s[i] == x;
    var j :| 0 <= j < |s| && s[j] == y;
    assert !(i < j) && !(j < i);
  }

  /** Joining two lists with unique keys whose key sets are disjoint keeps
      keys unique. */
  lemma KeysUniqueConcat<T, K>(a: seq<T>, b: seq<T>, key: T -> K)
    requires KeysUnique(a, key) && KeysUnique(b, key)
    requires forall x, y :: x in a && y in b ==> key(x) != key(y)
    ensures KeysUnique(a + b, key)
  {
    forall i, j | 0 <= i < j < |a + b|
      ensures key((a + b)[i]) != key((a + b)[j])
    {
      if j < |a| {
      } else if i >= |a| {
        assert (a + b)[i] == b[i - |a|] && (a + b)[j] == b[j - |a|];
      } else {
        assert (a + b)[i] in a && (a + b)[j] in b;
      }
    }
  }

  /** Appending an element whose key is new keeps keys unique. */
  lemma KeysUniqueAppend<T, K>(s: seq<T>, x: T, key: T -> K)
    requires KeysUnique(s, key)
    requires forall y :: y in s ==> key(y) != key(x)
    ensures KeysUnique(s + [x], key)
  {
    forall i, j | 0 <= i < j < |s + [x]|
      ensures key((s + [x])[i]) != key((s + [x])[j])
    {
      if j == |s| {
        assert (s + [x])[i] in s;
      }
    }
  }
}
