/** Order-preserving filtering of sequences: the model of Python's
    `[x for x in xs if p(x)]`. */
module Seqs {

  /** `a` can be obtained from `b` by deleting elements (relative order kept). */
  ghost predicate IsSubsequence<T>(a: seq<T>, b: seq<T>)
    decreases |b|
  {
    if a == [] then true
    else if b == [] then false
    else if a[0] == b[0] then IsSubsequence(a[1..], b[1..])
    else IsSubsequence(a, b[1..])
  }

  /** The elements of `s` that satisfy `p`, in their original order. */
  function Filter<T>(s: seq<T>, p: T -> bool): (r: seq<T>)
    ensures |r| <= |s|
    ensures forall i :: 0 <= i < |r| ==> r[i] in s && p(r[i])
    ensures forall i :: 0 <= i < |s| && p(s[i]) ==> s[i] in r
    ensures IsSubsequence(r, s)
    ensures |r| == |s| <==> forall i :: 0 <= i < |s| ==> p(s[i])
  {
    if s == [] then []
    else if p(s[0]) then [s[0]] + Filter(s[1..], p)
    else Filter(s[1..], p)
  }

  /** Filtering keeps every occurrence of a kept element and no occurrence
      of a dropped one. */
  lemma {:induction false} FilterMultiset<T>(s: seq<T>, p: T -> bool)
    ensures forall x :: multiset(Filter(s, p))[x] == if p(x) then multiset(s)[x] else 0
  {
    if s != [] {
      FilterMultiset(s[1..], p);
      assert s == [s[0]] + s[1..];
      assert multiset(s) == multiset{s[0]} + multiset(s[1..]);
    }
  }

  /** Filtering twice is filtering once by the conjunction. */
  lemma {:induction false} FilterCompose<T>(s: seq<T>, p: T -> bool, q: T -> bool, pq: T -> bool)
    requires forall x :: pq(x) == (p(x) && q(x))
    ensures Filter(Filter(s, p), q) == Filter(s, pq)
  {
    if s != [] {
      FilterCompose(s[1..], p, q, pq);
      if p(s[0]) {
        assert Filter(s, p) == [s[0]] + Filter(s[1..], p);
        assert Filter(s, p)[1..] == Filter(s[1..], p);
      }
    }
  }

  /** A filter that keeps everything is the identity. */
  lemma {:induction false} FilterAll<T>(s: seq<T>, p: T -> bool)
    requires forall i :: 0 <= i < |s| ==> p(s[i])
    ensures Filter(s, p) == s
  {
    if s != [] {
      FilterAll(s[1..], p);
    }
  }

  /** Filtering distributes over concatenation. */
  lemma {:induction false} FilterAppend<T>(a: seq<T>, b: seq<T>, p: T -> bool)
    ensures Filter(a + b, p) == Filter(a, p) + Filter(b, p)
  {
    if a != [] {
      assert (a + b)[1..] == a[1..] + b;
      FilterAppend(a[1..], b, p);
    } else {
      assert a + b == b;
    }
  }

  /** Filtering depends only on which elements the predicate keeps. */
  lemma {:induction false} FilterSame<T>(s: seq<T>, p: T -> bool, q: T -> bool)
    requires forall x :: p(x) == q(x)
    ensures Filter(s, p) == Filter(s, q)
  {
    if s != [] {
      FilterSame(s[1..], p, q);
    }
  }

  /** A filter applied only when `on`, as the first of a chain. */
  lemma FilterWhenFirst<T>(s: seq<T>, on: bool, q: T -> bool, pq: T -> bool)
    requires forall x :: pq(x) == (!on || q(x))
    ensures (if on then Filter(s, q) else s) == Filter(s, pq)
  {
    if on {
      FilterSame(s, q, pq);
    } else {
      FilterAll(s, pq);
    }
  }

  /** A filter applied only when `on`, after filtering by `p`. */
  lemma FilterWhen<T>(s: seq<T>, on: bool, q: T -> bool, p: T -> bool, pq: T -> bool)
    requires forall x :: pq(x) == (p(x) && (!on || q(x)))
    ensures (if on then Filter(Filter(s, p), q) else Filter(s, p)) == Filter(s, pq)
  {
    if on {
      FilterCompose(s, p, q, pq);
    } else {
      FilterSame(s, p, pq);
    }
  }

  /** Filtering one more element at the end. */
  lemma FilterSnoc<T>(s: seq<T>, x: T, p: T -> bool)
    ensures Filter(s + [x], p) == Filter(s, p) + (if p(x) then [x] else [])
  {
    FilterAppend(s, [x], p);
    assert [x][1..] == [];
  }

  /** Filtering a prefix one element longer. */
  lemma FilterPrefixStep<T>(s: seq<T>, i: nat, p: T -> bool)
    requires i < |s|
    ensures Filter(s[..i + 1], p) == Filter(s[..i], p) + (if p(s[i]) then [s[i]] else [])
  {
    assert s[..i + 1] == s[..i] + [s[i]];
    FilterSnoc(s[..i], s[i], p);
  }

  /** The position of the last element satisfying `p`, or -1 when none does. */
  function LastIndex<T>(s: seq<T>, p: T -> bool): (k: int)
    ensures -1 <= k < |s|
    ensures k >= 0 ==> p(s[k])
    ensures forall j :: k < j < |s| ==> !p(s[j])
    decreases |s|
  {
    if s == [] then -1
    else
      var k := LastIndex(s[1..], p);
      assert forall j :: 0 < j < |s| ==> s[j] == s[1..][j - 1];
      if k >= 0 then k + 1 else if p(s[0]) then 0 else -1
  }

  /** The last element of a non-empty filter is the last element of `s`
      satisfying `p`. */
  lemma {:induction false} FilterLast<T>(s: seq<T>, p: T -> bool)
    requires Filter(s, p) != []
    ensures LastIndex(s, p) >= 0 && Filter(s, p)[|Filter(s, p)| - 1] == s[LastIndex(s, p)]
  {
    var tail := Filter(s[1..], p);
    var f := Filter(s, p);
    assert f == if p(s[0]) then [s[0]] + tail else tail;
    if tail != [] {
      FilterLast(s[1..], p);
      var k := LastIndex(s[1..], p);
      assert LastIndex(s, p) == k + 1 && s[k + 1] == s[1..][k];
      assert f[|f| - 1] == tail[|tail| - 1];
    } else {
      assert LastIndex(s, p) == 0 && f == [s[0]];
    }
  }

  /** The set of elements of a sequence. */
  function Elements<T>(s: seq<T>): set<T>
    decreases |s|
  {
    if s == [] then {} else {s[0]} + Elements(s[1..])
  }

  lemma {:induction false} ElementsMembership<T>(s: seq<T>, x: T)
    ensures x in Elements(s) <==> x in s
    decreases |s|
  {
    if s != [] {
      ElementsMembership(s[1..], x);
      assert x in s <==> x == s[0] || x in s[1..] by {
        if x in s {
          var i :| 0 <= i < |s| && s[i] == x;
          if i > 0 { assert s[1..][i - 1] == x; }
        }
      }
    }
  }

  lemma ElementsOf<T>(s: seq<T>)
    ensures forall x :: x in Elements(s) <==> x in s
  {
    forall x ensures x in Elements(s) <==> x in s {
      ElementsMembership(s, x);
    }
  }

  lemma {:induction false} ElementsSnoc<T>(s: seq<T>, x: T)
    ensures Elements(s + [x]) == Elements(s) + {x}
    decreases |s|
  {
    if s == [] {
      assert s + [x] == [x];
      assert [x][1..] == [];
    } else {
      assert (s + [x])[1..] == s[1..] + [x];
      ElementsSnoc(s[1..], x);
    }
  }

  /** No element occurs twice. */
  predicate NoDuplicates<T(==)>(s: seq<T>)
    decreases |s|
  {
    s == [] || (s[0] !in s[1..] && NoDuplicates(s[1..]))
  }

  /** Appending an id not yet listed keeps the listing duplicate-free and
      adds just that id. */
  lemma AddId<T>(order: seq<T>, id: T)
    requires NoDuplicates(order) && id !in Elements(order)
    ensures NoDuplicates(order + [id]) && Elements(order + [id]) == Elements(order) + {id}
  {
    ElementsOf(order);
    NoDuplicatesSnoc(order, id);
    ElementsSnoc(order, id);
  }

  /** `s` with every occurrence of `x` removed, order kept. */
  function Without<T(==)>(s: seq<T>, x: T): (r: seq<T>)
    ensures |r| <= |s|
    decreases |s|
  {
    if s == [] then [] else if s[0] == x then Without(s[1..], x) else [s[0]] + Without(s[1..], x)
  }

  /** Removal keeps exactly the other elements. */
  lemma {:induction false} WithoutMembership<T>(s: seq<T>, x: T, y: T)
    ensures y in Without(s, x) <==> y in s && y != x
    decreases |s|
  {
    if s != [] {
      WithoutMembership(s[1..], x, y);
      assert y in s <==> y == s[0] || y in s[1..] by {
        if y in s {
          var i :| 0 <= i < |s| && s[i] == y;
          if i > 0 { assert s[1..][i - 1] == y; }
        }
      }
    }
  }

  lemma {:induction false} NoDuplicatesWithout<T>(s: seq<T>, x: T)
    requires NoDuplicates(s)
    ensures NoDuplicates(Without(s, x))
    decreases |s|
  {
    if s != [] {
      NoDuplicatesWithout(s[1..], x);
      if s[0] != x {
        WithoutMembership(s[1..], x, s[0]);
        assert ([s[0]] + Without(s[1..], x))[1..] == Without(s[1..], x);
      }
    }
  }

  /** Removing an id from a duplicate-free listing keeps it duplicate-free
      and drops just that id. */
  lemma RemoveId<T>(order: seq<T>, id: T)
    requires NoDuplicates(order)
    ensures NoDuplicates(Without(order, id)) && Elements(Without(order, id)) == Elements(order) - {id}
  {
    NoDuplicatesWithout(order, id);
    ElementsOf(order);
    ElementsOf(Without(order, id));
    forall y ensures y in Without(order, id) <==> y in order && y != id {
      WithoutMembership(order, id, y);
    }
  }

  lemma {:induction false} NoDuplicatesSnoc<T>(s: seq<T>, x: T)
    requires NoDuplicates(s) && x !in s
    ensures NoDuplicates(s + [x])
    decreases |s|
  {
    if s != [] {
      assert (s + [x])[1..] == s[1..] + [x];
      assert x !in s[1..];
      NoDuplicatesSnoc(s[1..], x);
    }
  }

  /** In a duplicate-free sequence, distinct positions hold distinct elements. */
  lemma {:induction false} NoDuplicatesDistinct<T>(s: seq<T>, i: nat, j: nat)
    requires NoDuplicates(s) && i < j < |s|
    ensures s[i] != s[j]
    decreases |s|
  {
    if i == 0 {
      assert s[j] == s[1..][j - 1];
    } else {
      NoDuplicatesDistinct(s[1..], i - 1, j - 1);
    }
  }

  /** Removing an element just appended to a listing that lacked it gives
      the listing back. */
  lemma {:induction false} WithoutAppended<T>(s: seq<T>, x: T)
    requires x !in s
    ensures Without(s + [x], x) == s
    decreases |s|
  {
    if s == [] {
      assert [x][1..] == [];
    } else {
      assert (s + [x])[1..] == s[1..] + [x];
      assert x !in s[1..];
      WithoutAppended(s[1..], x);
      assert [s[0]] + s[1..] == s;
    }
  }
}
