/** Sequence helpers: filtering, mapping and the subsequence relation. */
module Seqs {

  function Min(a: nat, b: nat): nat {
    if a <= b then a else b
  }

  /** The elements of `s` satisfying `p`, in their original order (Python's
      `[x for x in s if p(x)]`). */
  function Filter<T>(s: seq<T>, p: T -> bool): (r: seq<T>)
    ensures |r| <= |s|
    ensures forall i | 0 <= i < |r| :: p(r[i])
    decreases |s|
  {
    if |s| == 0 then []
    else (if p(s[0]) then [s[0]] else []) + Filter(s[1..], p)
  }

  /** `f` applied to every element of `s` (Python's `[f(x) for x in s]`). */
  function Map<T, U>(f: T -> U, s: seq<T>): (r: seq<U>)
    ensures |r| == |s|
    ensures forall i | 0 <= i < |s| :: r[i] == f(s[i])
  {
    seq(|s|, i requires 0 <= i < |s| => f(s[i]))
  }

  /** `a` is obtained from `b` by deleting elements: order is preserved. */
  predicate IsSubsequence<T(==)>(a: seq<T>, b: seq<T>)
    decreases |b|
  {
    if |a| == 0 then true
    else if |b| == 0 then false
    else if a[0] == b[0] then IsSubsequence(a[1..], b[1..])
    else IsSubsequence(a, b[1..])
  }

  lemma {:induction false} FilterConcat<T>(a: seq<T>, b: seq<T>, p: T -> bool)
    ensures Filter(a + b, p) == Filter(a, p) + Filter(b, p)
    decreases |a|
  {
    if |a| == 0 {
      assert a + b == b;
    } else {
      assert (a + b)[1..] == a[1..] + b;
      FilterConcat(a[1..], b, p);
    }
  }

  /** Mapping distributes over putting an element in front. */
  lemma MapCons<T, U>(f: T -> U, x: T, s: seq<T>)
    ensures Map(f, [x] + s) == [f(x)] + Map(f, s)
  {
    var m, expected := Map(f, [x] + s), [f(x)] + Map(f, s);
    assert |m| == |expected|;
    forall i | 0 <= i < |m|
      ensures m[i] == expected[i]
    {
      if i > 0 {
        assert ([x] + s)[i] == s[i - 1];
      }
    }
  }

  /** Filtering then mapping a non-empty sequence handles its head first. */
  lemma MapFilterHead<T, U>(f: T -> U, p: T -> bool, s: seq<T>)
    requires |s| > 0
    ensures Map(f, Filter(s, p)) == (if p(s[0]) then [f(s[0])] else []) + Map(f, Filter(s[1..], p))
  {
    if p(s[0]) {
      MapCons(f, s[0], Filter(s[1..], p));
    } else {
      assert Filter(s, p) == Filter(s[1..], p);
    }
  }

  /** Filtering one more element appends it exactly when it passes. */
  lemma FilterSnoc<T>(s: seq<T>, x: T, p: T -> bool)
    ensures Filter(s + [x], p) == Filter(s, p) + (if p(x) then [x] else [])
  {
    FilterConcat(s, [x], p);
    assert Filter([x], p) == (if p(x) then [x] else []) + Filter([x][1..], p);
  }

  /** Filtering twice with the same predicate changes nothing. */
  lemma {:induction false} FilterIdempotent<T>(s: seq<T>, p: T -> bool)
    ensures Filter(Filter(s, p), p) == Filter(s, p)
    decreases |s|
  {
    if |s| > 0 {
      var head := if p(s[0]) then [s[0]] else [];
      FilterIdempotent(s[1..], p);
      FilterConcat(head, Filter(s[1..], p), p);
      assert Filter(head, p) == head by {
        if p(s[0]) {
          assert [s[0]][1..] == [];
        }
      }
    }
  }

  /** Filtering by a weaker predicate first does not change what a stronger
      one selects. */
  lemma {:induction false} FilterImplied<T>(s: seq<T>, p: T -> bool, q: T -> bool)
    requires forall x :: q(x) ==> p(x)
    ensures Filter(Filter(s, p), q) == Filter(s, q)
    decreases |s|
  {
    if |s| > 0 {
      var head := if p(s[0]) then [s[0]] else [];
      FilterImplied(s[1..], p, q);
      FilterConcat(head, Filter(s[1..], p), q);
      if p(s[0]) {
        assert [s[0]][1..] == [];
      }
    }
  }

  /** Nothing that passes `p` passes a predicate disjoint from it. */
  lemma {:induction false} FilterDisjoint<T>(s: seq<T>, p: T -> bool, q: T -> bool)
    requires forall x :: p(x) ==> !q(x)
    ensures Filter(Filter(s, p), q) == []
    decreases |s|
  {
    if |s| > 0 {
      var head := if p(s[0]) then [s[0]] else [];
      FilterDisjoint(s[1..], p, q);
      FilterConcat(head, Filter(s[1..], p), q);
      if p(s[0]) {
        assert [s[0]][1..] == [];
      }
    }
  }

  /** Everything `Filter` keeps keeps its relative order. */
  lemma {:induction false} FilterIsSubsequence<T>(s: seq<T>, p: T -> bool)
    ensures IsSubsequence(Filter(s, p), s)
    decreases |s|
  {
    if |s| > 0 {
      FilterIsSubsequence(s[1..], p);
      if p(s[0]) {
        assert Filter(s, p) == [s[0]] + Filter(s[1..], p);
        assert Filter(s, p)[1..] == Filter(s[1..], p);
      } else {
        assert Filter(s, p) == Filter(s[1..], p);
      }
    }
  }

  /** A subsequence of a prefix of `b`, followed by a subsequence of the rest
      of `b`, is a subsequence of `b`. */
  lemma {:induction false} SubsequenceConcat<T>(a1: seq<T>, a2: seq<T>, b1: seq<T>, b2: seq<T>)
    requires IsSubsequence(a1, b1) && IsSubsequence(a2, b2)
    ensures IsSubsequence(a1 + a2, b1 + b2)
    decreases |b1|
  {
    if |a1| == 0 {
      assert a1 + a2 == a2;
      SubsequenceOfSuffix(a2, b1, b2);
    } else {
      assert |b1| > 0;
      assert (b1 + b2)[1..] == b1[1..] + b2;
      if a1[0] == b1[0] {
        assert (a1 + a2)[1..] == a1[1..] + a2;
        SubsequenceConcat(a1[1..], a2, b1[1..], b2);
      } else {
        SubsequenceConcat(a1, a2, b1[1..], b2);
      }
    }
  }

  lemma {:induction false} SubsequenceOfSuffix<T>(a: seq<T>, b1: seq<T>, b2: seq<T>)
    requires IsSubsequence(a, b2)
    ensures IsSubsequence(a, b1 + b2)
    decreases |b1| + |b2|, 1
  {
    if |b1| == 0 {
      assert b1 + b2 == b2;
    } else if |a| > 0 {
      assert (b1 + b2)[1..] == b1[1..] + b2;
      SubsequenceOfSuffix(a, b1[1..], b2);
      if a[0] == b1[0] {
        SubsequenceDropHead(a, b1[1..] + b2);
      }
    }
  }

  /** Dropping the first element of a subsequence keeps it a subsequence. */
  lemma {:induction false} SubsequenceDropHead<T>(a: seq<T>, b: seq<T>)
    requires |a| > 0 && IsSubsequence(a, b)
    ensures IsSubsequence(a[1..], b)
    decreases |b|, 2
  {
    assert |b| > 0;
    if a[0] == b[0] {
      SubsequenceOfSuffix(a[1..], [b[0]], b[1..]);
      assert [b[0]] + b[1..] == b;
    } else {
      SubsequenceDropHead(a, b[1..]);
      SubsequenceOfSuffix(a[1..], [b[0]], b[1..]);
      assert [b[0]] + b[1..] == b;
    }
  }

  /** The subsequence relation is transitive. */
  lemma {:induction false} SubsequenceTransitive<T>(a: seq<T>, b: seq<T>, c: seq<T>)
    requires IsSubsequence(a, b) && IsSubsequence(b, c)
    ensures IsSubsequence(a, c)
    decreases |c|
  {
    if |a| > 0 {
      assert |b| > 0 && |c| > 0;
      if b[0] == c[0] {
        if a[0] == b[0] {
          SubsequenceTransitive(a[1..], b[1..], c[1..]);
        } else {
          SubsequenceTransitive(a, b[1..], c[1..]);
        }
      } else {
        SubsequenceTransitive(a, b, c[1..]);
        if a[0] == c[0] {
          SubsequenceDropHead(a, c[1..]);
        }
      }
    }
  }

  lemma {:induction false} PrefixIsSubsequence<T>(s: seq<T>, k: nat)
    requires k <= |s|
    ensures IsSubsequence(s[..k], s)
    decreases k
  {
    if k > 0 {
      PrefixIsSubsequence(s[1..], k - 1);
      assert s[..k][1..] == s[1..][..k - 1];
    }
  }

  /** A subsequence holds only elements of the sequence it was taken from. */
  lemma {:induction false} SubsequenceMembers<T>(a: seq<T>, b: seq<T>)
    requires IsSubsequence(a, b)
    ensures forall x | x in a :: x in b
    decreases |b|
  {
    if |a| > 0 {
      if a[0] == b[0] {
        SubsequenceMembers(a[1..], b[1..]);
        assert a == [a[0]] + a[1..];
      } else {
        SubsequenceMembers(a, b[1..]);
      }
      assert b == [b[0]] + b[1..];
    }
  }

  /** Every sequence is a subsequence of itself. */
  lemma SubsequenceReflexive<T>(s: seq<T>)
    ensures IsSubsequence(s, s)
  {
    PrefixIsSubsequence(s, |s|);
    assert s[..|s|] == s;
  }
}
