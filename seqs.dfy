/**
 * Sequence operations the dashboard's table steps are built from: a boolean-mask
 * selection that keeps rows in order, order-preserving subsequences, column sums
 * and distinct-value counts.
 */
module Seqs {

  /** `a` is obtained from `b` by deleting elements, keeping the order of the rest. */
  predicate IsSubseq<T(==)>(a: seq<T>, b: seq<T>)
    decreases |b|
  {
    if a == [] then true
    else if b == [] then false
    else (a[0] == b[0] && IsSubseq(a[1..], b[1..])) || IsSubseq(a, b[1..])
  }

  /** The rows of `s` on which the mask `f` holds, in their original order. */
  function Keep<T(==)>(s: seq<T>, f: T -> bool): (r: seq<T>)
    ensures |r| <= |s|
    ensures forall i :: 0 <= i < |r| ==> r[i] in s && f(r[i])
    ensures forall i :: 0 <= i < |s| && f(s[i]) ==> s[i] in r
    decreases |s|
  {
    if s == [] then []
    else if f(s[0]) then [s[0]] + Keep(s[1..], f)
    else Keep(s[1..], f)
  }

  /** Sum of a numeric column. */
  function Sum<T>(s: seq<T>, f: T -> int): int
    decreases |s|
  {
    if s == [] then 0 else f(s[0]) + Sum(s[1..], f)
  }

  /** The distinct values of a column. */
  function Distinct<T(==), K(==)>(s: seq<T>, key: T -> K): set<K> {
    set x | x in s :: key(x)
  }

  /** `nunique`: the number of distinct values of a column. */
  function NUnique<T(==), K(==)>(s: seq<T>, key: T -> K): nat {
    |Distinct(s, key)|
  }

  lemma {:induction false} SubseqTrans<T>(a: seq<T>, b: seq<T>, c: seq<T>)
    requires IsSubseq(a, b) && IsSubseq(b, c)
    ensures IsSubseq(a, c)
    decreases |c|
  {
    if a != [] && c != [] {
      if b[0] == c[0] && IsSubseq(b[1..], c[1..]) {
        if a[0] == b[0] && IsSubseq(a[1..], b[1..]) {
          SubseqTrans(a[1..], b[1..], c[1..]);
        } else {
          SubseqTrans(a, b[1..], c[1..]);
        }
      } else {
        SubseqTrans(a, b, c[1..]);
      }
    }
  }

  lemma {:induction false} SubseqMembers<T>(a: seq<T>, b: seq<T>)
    requires IsSubseq(a, b)
    ensures forall x :: x in a ==> x in b
    decreases |b|
  {
    if a != [] {
      if a[0] == b[0] && IsSubseq(a[1..], b[1..]) {
        SubseqMembers(a[1..], b[1..]);
        assert forall x :: x in a ==> x == a[0] || x in a[1..];
      } else {
        SubseqMembers(a, b[1..]);
      }
    }
  }

  /** The selection is an order-preserving subsequence of its input. */
  lemma {:induction false} KeepIsSubseq<T>(s: seq<T>, f: T -> bool)
    ensures IsSubseq(Keep(s, f), s)
    decreases |s|
  {
    if s != [] {
      KeepIsSubseq(s[1..], f);
      var r := Keep(s, f);
      if f(s[0]) {
        assert r[0] == s[0] && r[1..] == Keep(s[1..], f);
      }
    }
  }

  /** Each row on which the mask holds is kept as often as it occurs; no other row is kept. */
  lemma {:induction false} KeepMultiplicity<T>(s: seq<T>, f: T -> bool, x: T)
    ensures multiset(Keep(s, f))[x] == if f(x) then multiset(s)[x] else 0
    decreases |s|
  {
    if s != [] {
      KeepMultiplicity(s[1..], f, x);
      assert s == [s[0]] + s[1..];
    }
  }

  /** What `Keep` selects: an ordered subsequence with each selected row's multiplicity. */
  lemma KeepCharacterized<T>(s: seq<T>, f: T -> bool)
    ensures IsSubseq(Keep(s, f), s)
    ensures forall x :: multiset(Keep(s, f))[x] == if f(x) then multiset(s)[x] else 0
  {
    KeepIsSubseq(s, f);
    forall x ensures multiset(Keep(s, f))[x] == if f(x) then multiset(s)[x] else 0 {
      KeepMultiplicity(s, f, x);
    }
  }

  lemma {:induction false} KeepConcat<T>(a: seq<T>, b: seq<T>, f: T -> bool)
    ensures Keep(a + b, f) == Keep(a, f) + Keep(b, f)
    decreases |a|
  {
    if a != [] {
      assert (a + b)[0] == a[0] && (a + b)[1..] == a[1..] + b;
      KeepConcat(a[1..], b, f);
      if f(a[0]) {
        assert [a[0]] + (Keep(a[1..], f) + Keep(b, f)) == ([a[0]] + Keep(a[1..], f)) + Keep(b, f);
      }
    } else {
      assert a + b == b;
    }
  }

  /** Re-applying a selection changes nothing: its result is a fixed point. */
  lemma {:induction false} KeepIdempotent<T>(s: seq<T>, f: T -> bool)
    ensures Keep(Keep(s, f), f) == Keep(s, f)
    decreases |s|
  {
    if s != [] {
      KeepIdempotent(s[1..], f);
      if f(s[0]) {
        assert Keep(s, f)[1..] == Keep(s[1..], f);
      }
    }
  }

  /** A mask that holds on every row keeps them all. */
  lemma {:induction false} KeepAll<T>(s: seq<T>, f: T -> bool)
    requires forall x :: x in s ==> f(x)
    ensures Keep(s, f) == s
    decreases |s|
  {
    if s != [] {
      assert forall x :: x in s[1..] ==> x in s;
      KeepAll(s[1..], f);
    }
  }

  /** A mask that holds on no row keeps none. */
  lemma {:induction false} KeepNone<T>(s: seq<T>, f: T -> bool)
    requires forall p :: p in s ==> !f(p)
    ensures Keep(s, f) == []
    decreases |s|
  {
    if s != [] {
      assert forall p :: p in s[1..] ==> p in s;
      KeepNone(s[1..], f);
    }
  }

  lemma {:induction false} DistinctCons<T, K>(s: seq<T>, key: T -> K)
    requires s != []
    ensures Distinct(s, key) == {key(s[0])} + Distinct(s[1..], key)
  {
  }

  /** A column never has more distinct values than rows. */
  lemma {:induction false} NUniqueAtMostLength<T, K>(s: seq<T>, key: T -> K)
    ensures NUnique(s, key) <= |s|
    decreases |s|
  {
    if s != [] {
      DistinctCons(s, key);
      NUniqueAtMostLength(s[1..], key);
    }
  }

  /** There is a distinct value exactly when there is a row. */
  lemma NUniquePositive<T, K>(s: seq<T>, key: T -> K)
    ensures NUnique(s, key) > 0 <==> s != []
  {
    if s != [] {
      assert key(s[0]) in Distinct(s, key);
    }
  }

  lemma {:induction false} SubsetCardinality<K>(a: set<K>, b: set<K>)
    requires a <= b
    ensures |a| <= |b|
    decreases |b|
  {
    if a != {} {
      var x :| x in a;
      SubsetCardinality(a - {x}, b - {x});
    }
  }

  /** A subsequence has no more distinct values than the rows it was taken from. */
  lemma SubseqNUnique<T, K>(a: seq<T>, b: seq<T>, key: T -> K)
    requires IsSubseq(a, b)
    ensures Distinct(a, key) <= Distinct(b, key)
    ensures NUnique(a, key) <= NUnique(b, key)
  {
    SubseqMembers(a, b);
    SubsetCardinality(Distinct(a, key), Distinct(b, key));
  }

  /** Over non-negative values, a subsequence sums to no more than the whole. */
  lemma {:induction false} SubseqSum<T>(a: seq<T>, b: seq<T>, f: T -> int)
    requires IsSubseq(a, b)
    requires forall x :: x in b ==> f(x) >= 0
    ensures 0 <= Sum(a, f) <= Sum(b, f)
    decreases |b|
  {
    if b != [] {
      assert forall x :: x in b[1..] ==> x in b;
      if a != [] && a[0] == b[0] && IsSubseq(a[1..], b[1..]) {
        SubseqSum(a[1..], b[1..], f);
      } else {
        SubseqSum(a, b[1..], f);
      }
    }
  }
}
