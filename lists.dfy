/**
 * Python list operations shared by the device registries: `list.remove`, the
 * membership-guarded `append`, list comprehensions with a condition, and the
 * order they preserve.
 */
module Lists {
  import opened Wrappers

  predicate NoDuplicates<T(==)>(s: seq<T>) {
    forall i, j :: 0 <= i < j < |s| ==> s[i] != s[j]
  }

  /** `r` is `s` with some elements left out, in the same order. */
  predicate Subsequence<T(==)>(r: seq<T>, s: seq<T>)
    decreases |s|
  {
    if r == [] then true
    else if s == [] then false
    else (r[0] == s[0] && Subsequence(r[1..], s[1..])) || Subsequence(r, s[1..])
  }

  lemma {:induction false} SubsequenceRefl<T>(s: seq<T>)
    ensures Subsequence(s, s)
    decreases |s|
  {
    if s != [] { SubsequenceRefl(s[1..]); }
  }

  /** The index of the first element equal to `x`, as Python's `s.index(x)`. */
  function FirstIndex<T(==)>(s: seq<T>, x: T): (i: nat)
    requires x in s
    ensures i < |s| && s[i] == x && x !in s[..i]
  {
    if s[0] == x then 0
    else
      var i' := FirstIndex(s[1..], x);
      assert s[..i' + 1] == [s[0]] + s[1..][..i'];
      i' + 1
  }

  /** Python's `s.remove(x)`: drop the first element equal to `x`; absent `x` is left to the caller's guard. */
  function RemoveFirst<T(==)>(s: seq<T>, x: T): (r: seq<T>)
    ensures x !in s ==> r == s
  {
    if s == [] then []
    else if s[0] == x then s[1..]
    else
      assert s == [s[0]] + s[1..];
      [s[0]] + RemoveFirst(s[1..], x)
  }

  /** The element removed is the one at the first index of `x`. */
  lemma {:induction false} RemoveFirstAt<T>(s: seq<T>, x: T)
    requires x in s
    ensures RemoveFirst(s, x) == s[..FirstIndex(s, x)] + s[FirstIndex(s, x) + 1..]
  {
    if s[0] != x {
      assert x in s[1..] by {
        var k :| 0 <= k < |s| && s[k] == x;
        assert s[1..][k - 1] == x;
      }
      RemoveFirstAt(s[1..], x);
      var i' := FirstIndex(s[1..], x);
      assert s[..i' + 1] == [s[0]] + s[1..][..i'];
      assert s[i' + 2..] == s[1..][i' + 1..];
    }
  }

  /** Removing one element keeps the rest in order. */
  lemma {:induction false} RemoveFirstSubsequence<T>(s: seq<T>, x: T)
    ensures Subsequence(RemoveFirst(s, x), s)
    decreases |s|
  {
    if s == [] {
    } else if s[0] == x {
      SubsequenceRefl(s[1..]);
      SubsequenceSkip(s[1..], s);
    } else {
      RemoveFirstSubsequence(s[1..], x);
      var r := RemoveFirst(s, x);
      assert r[0] == s[0] && r[1..] == RemoveFirst(s[1..], x);
    }
  }

  lemma SubsequenceSkip<T>(r: seq<T>, s: seq<T>)
    requires s != [] && Subsequence(r, s[1..])
    ensures Subsequence(r, s)
  {
  }

  /**
   * On a list without duplicates, removal deletes exactly `x`: every other
   * element stays, `x` is gone, and the list still has no duplicates.
   */
  lemma {:induction false} RemoveFirstExact<T>(s: seq<T>, x: T)
    requires NoDuplicates(s)
    ensures NoDuplicates(RemoveFirst(s, x))
    ensures x !in RemoveFirst(s, x)
    ensures forall y :: y in RemoveFirst(s, x) ==> y in s && y != x
    ensures forall y :: y in s && y != x ==> y in RemoveFirst(s, x)
  {
    if x in s {
      var r := RemoveFirst(s, x);
      var i := FirstIndex(s, x);
      RemoveFirstAt(s, x);
      DropIndex(s, i, r);
      DropIndexFrom(s, i, r);
      DropIndexKeeps(s, i, r);
      DropIndexNoDuplicates(s, i, r);
    }
  }

  /** Every element left after dropping index `i` of a duplicate-free list is in `s` and is not `s[i]`. */
  lemma DropIndexFrom<T>(s: seq<T>, i: nat, r: seq<T>)
    requires NoDuplicates(s) && i < |s| && |r| == |s| - 1
    requires forall k :: 0 <= k < |r| ==> r[k] == s[if k < i then k else k + 1]
    ensures forall y :: y in r ==> y in s && y != s[i]
  {
    forall y | y in r ensures y in s && y != s[i] {
      var k :| 0 <= k < |r| && r[k] == y;
      var k' := if k < i then k else k + 1;
      assert s[k'] == y && k' != i;
    }
  }

  /** Every element of `s` other than `s[i]` is still there after dropping index `i`. */
  lemma DropIndexKeeps<T>(s: seq<T>, i: nat, r: seq<T>)
    requires i < |s| && |r| == |s| - 1
    requires forall k :: 0 <= k < |r| ==> r[k] == s[if k < i then k else k + 1]
    ensures forall y :: y in s && y != s[i] ==> y in r
  {
    forall y | y in s && y != s[i] ensures y in r {
      var k :| 0 <= k < |s| && s[k] == y;
      var k' := if k < i then k else k - 1;
      assert r[k'] == y;
    }
  }

  /** Dropping one index of a duplicate-free list leaves it duplicate-free. */
  lemma DropIndexNoDuplicates<T>(s: seq<T>, i: nat, r: seq<T>)
    requires NoDuplicates(s) && i < |s| && |r| == |s| - 1
    requires forall k :: 0 <= k < |r| ==> r[k] == s[if k < i then k else k + 1]
    ensures NoDuplicates(r)
  {
    forall p, q | 0 <= p < q < |r| ensures r[p] != r[q] {
      var p' := if p < i then p else p + 1;
      var q' := if q < i then q else q + 1;
      assert r[p] == s[p'] && r[q] == s[q'];
    }
  }

  /** Where each element of `s` without its `i`-th element comes from. */
  lemma DropIndex<T>(s: seq<T>, i: nat, r: seq<T>)
    requires i < |s| && r == s[..i] + s[i + 1..]
    ensures |r| == |s| - 1
    ensures forall k :: 0 <= k < |r| ==> r[k] == s[if k < i then k else k + 1]
  {
  }

  /** Appending an absent element keeps the list free of duplicates. */
  lemma AppendFresh<T>(s: seq<T>, x: T)
    requires NoDuplicates(s) && x !in s
    ensures NoDuplicates(s + [x])
  {
  }

  /** Python's `[x for x in s if keep(x)]`. */
  function Filter<T>(s: seq<T>, keep: T -> bool): (r: seq<T>)
    ensures |r| <= |s|
    ensures forall i :: 0 <= i < |r| ==> keep(r[i])
  {
    if s == [] then [] else (if keep(s[0]) then [s[0]] else []) + Filter(s[1..], keep)
  }

  /** An element is kept exactly when it is in the list and passes the test. */
  lemma {:induction false} FilterMembers<T>(s: seq<T>, keep: T -> bool)
    ensures forall x :: x in Filter(s, keep) <==> x in s && keep(x)
  {
    if s != [] {
      FilterMembers(s[1..], keep);
      assert s == [s[0]] + s[1..];
    }
  }

  /** Every kept element comes from the list, and every element that passes is kept (stated by position). */
  lemma {:induction false} FilterPositions<T>(s: seq<T>, keep: T -> bool)
    ensures forall i :: 0 <= i < |Filter(s, keep)| ==> Filter(s, keep)[i] in s
    ensures forall i :: 0 <= i < |s| && keep(s[i]) ==> s[i] in Filter(s, keep)
  {
    if s != [] {
      FilterPositions(s[1..], keep);
      var r := Filter(s, keep);
      var r' := Filter(s[1..], keep);
      assert r == (if keep(s[0]) then [s[0]] else []) + r';
      forall i | 0 <= i < |r| ensures r[i] in s {
        if keep(s[0]) && i == 0 {
        } else {
          var k := if keep(s[0]) then i - 1 else i;
          assert r[i] == r'[k];
          assert r'[k] in s[1..];
        }
      }
      forall i | 0 <= i < |s| && keep(s[i]) ensures s[i] in r {
        if i > 0 {
          assert s[i] == s[1..][i - 1];
        }
      }
    }
  }

  /** The kept elements appear in their original order. */
  lemma {:induction false} FilterSubsequence<T>(s: seq<T>, keep: T -> bool)
    ensures Subsequence(Filter(s, keep), s)
  {
    if s != [] {
      FilterSubsequence(s[1..], keep);
      var r := Filter(s, keep);
      if keep(s[0]) {
        assert r[0] == s[0] && r[1..] == Filter(s[1..], keep);
      } else {
        assert r == Filter(s[1..], keep);
        SubsequenceSkip(r, s);
      }
    }
  }

  /** A filter that keeps every element is the identity. */
  lemma {:induction false} FilterAll<T>(s: seq<T>, keep: T -> bool)
    requires forall i :: 0 <= i < |s| ==> keep(s[i])
    ensures Filter(s, keep) == s
  {
    if s != [] {
      FilterAll(s[1..], keep);
    }
  }

  lemma {:induction false} FilterAppend<T>(s: seq<T>, t: seq<T>, keep: T -> bool)
    ensures Filter(s + t, keep) == Filter(s, keep) + Filter(t, keep)
  {
    if s != [] {
      FilterAppend(s[1..], t, keep);
      assert (s + t)[1..] == s[1..] + t;
    } else {
      assert s + t == t;
    }
  }

  /** The values of the accepted inputs, in input order: a loop that appends `f(x)` whenever it is not `None`. */
  function FilterMap<A, B>(s: seq<A>, f: A -> Option<B>): (r: seq<B>)
    ensures |r| <= |s|
  {
    if s == [] then []
    else
      var last := f(s[|s| - 1]);
      FilterMap(s[..|s| - 1], f) + (if last.Some? then [last.value] else [])
  }

  lemma FilterMapSnoc<A, B>(s: seq<A>, i: nat, f: A -> Option<B>)
    requires i < |s|
    ensures FilterMap(s[..i + 1], f) == FilterMap(s[..i], f) + (if f(s[i]).Some? then [f(s[i]).value] else [])
  {
    assert s[..i + 1][..i] == s[..i];
  }

  /** Mapping a concatenation is concatenating the maps: input order is kept. */
  lemma {:induction false} FilterMapAppend<A, B>(a: seq<A>, b: seq<A>, f: A -> Option<B>)
    ensures FilterMap(a + b, f) == FilterMap(a, f) + FilterMap(b, f)
    decreases |b|
  {
    if b == [] {
      assert a + b == a;
    } else {
      var ab := a + b;
      assert ab[..|ab| - 1] == a + b[..|b| - 1];
      assert ab[|ab| - 1] == b[|b| - 1];
      FilterMapAppend(a, b[..|b| - 1], f);
    }
  }
}
