/** `Array.prototype.filter` and the facts about it that the matcher's stages need. */
module Seqs {

  /** `s.filter(p)`: the elements that satisfy `p`, in their original order. */
  function Filter<T(==,!new)>(p: T -> bool, s: seq<T>): (r: seq<T>)
    ensures |r| <= |s|
    ensures forall x :: x in r <==> x in s && p(x)
  {
    if s == [] then [] else (if p(s[0]) then [s[0]] else []) + Filter(p, s[1..])
  }

  /** A one-element list is kept or dropped whole. */
  lemma FilterSingle<T(!new)>(p: T -> bool, a: T)
    ensures Filter(p, [a]) == if p(a) then [a] else []
  {
    assert [a][1..] == [];
  }

  /** Of two elements, keeping only the first. */
  lemma FilterFirstOfTwo<T(!new)>(p: T -> bool, a: T, b: T)
    requires p(a) && !p(b)
    ensures Filter(p, [a, b]) == [a]
  {
    assert [a, b][1..] == [b];
    assert [b][1..] == [];
  }

  /** `a` can be obtained from `b` by deleting elements (order preserved). */
  predicate IsSubsequence<T(==)>(a: seq<T>, b: seq<T>)
    decreases |b|
  {
    if a == [] then true
    else if b == [] then false
    else if a[0] == b[0] then IsSubsequence(a[1..], b[1..])
    else IsSubsequence(a, b[1..])
  }

  lemma {:induction false} FilterIsSubsequence<T(!new)>(p: T -> bool, s: seq<T>)
    ensures IsSubsequence(Filter(p, s), s)
  {
    if s != [] {
      FilterIsSubsequence(p, s[1..]);
      var r := Filter(p, s);
      if p(s[0]) {
        assert r == [s[0]] + Filter(p, s[1..]);
        assert r[1..] == Filter(p, s[1..]);
      } else {
        assert r == Filter(p, s[1..]);
        if r != [] {
          assert r[0] in r;
        }
      }
    }
  }

  /** A subsequence of the tail is a subsequence of the whole. */
  lemma {:induction false} SubsequenceOfTail<T(!new)>(a: seq<T>, b: seq<T>)
    requires b != [] && IsSubsequence(a, b[1..])
    ensures IsSubsequence(a, b)
    decreases |b|, 0
  {
    if a != [] && a[0] == b[0] {
      SubsequenceDropFirst(a, b[1..]);
    }
  }

  /** Dropping the first element of a non-empty subsequence leaves a subsequence. */
  lemma {:induction false} SubsequenceDropFirst<T(!new)>(a: seq<T>, b: seq<T>)
    requires a != [] && IsSubsequence(a, b)
    ensures IsSubsequence(a[1..], b)
    decreases |b|, 1
  {
    if a[0] == b[0] {
      SubsequenceOfTail(a[1..], b);
    } else {
      SubsequenceDropFirst(a, b[1..]);
      SubsequenceOfTail(a[1..], b);
    }
  }

  /** Filtering by `p1` and then by `p2` is filtering by their conjunction. */
  lemma {:induction false} FilterCompose<T(!new)>(p1: T -> bool, p2: T -> bool, p3: T -> bool, s: seq<T>)
    requires forall x :: p3(x) == (p1(x) && p2(x))
    ensures Filter(p2, Filter(p1, s)) == Filter(p3, s)
  {
    if s != [] {
      FilterCompose(p1, p2, p3, s[1..]);
      var head := if p1(s[0]) then [s[0]] else [];
      var t := Filter(p1, s[1..]);
      assert Filter(p1, s) == head + t;
      if p1(s[0]) {
        assert (head + t)[1..] == t;
      } else {
        assert head + t == t;
      }
    }
  }

  /** A stage whose predicate holds of everything removes nothing. */
  lemma {:induction false} FilterAll<T(!new)>(p: T -> bool, s: seq<T>)
    requires forall x :: x in s ==> p(x)
    ensures Filter(p, s) == s
  {
    if s != [] {
      assert s[0] in s;
      forall x | x in s[1..] ensures p(x) {
        assert x in s;
      }
      FilterAll(p, s[1..]);
      assert [s[0]] + s[1..] == s;
    }
  }

  /** Filtering depends only on which elements the test accepts. */
  lemma {:induction false} FilterExt<T(!new)>(p: T -> bool, g: T -> bool, s: seq<T>)
    requires forall x :: p(x) == g(x)
    ensures Filter(p, s) == Filter(g, s)
  {
    if s != [] {
      FilterExt(p, g, s[1..]);
    }
  }

  /** Filtering is idempotent. */
  lemma FilterIdempotent<T(!new)>(p: T -> bool, s: seq<T>)
    ensures Filter(p, Filter(p, s)) == Filter(p, s)
  {
    FilterAll(p, Filter(p, s));
  }
}
