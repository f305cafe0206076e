/** Order-preserving sublists and first-occurrence deduplication of sequences. */
module Seqs {

  predicate Distinct<T(==)>(s: seq<T>) {
    forall i, j :: 0 <= i < j < |s| ==> s[i] != s[j]
  }

  /** The elements of `s` that satisfy `p`, in their order in `s`. */
  function Filter<T>(s: seq<T>, p: T -> bool): (r: seq<T>)
    ensures |r| <= |s|
    ensures forall i :: 0 <= i < |r| ==> p(r[i])
  {
    if s == [] then [] else Filter(s[..|s| - 1], p) + (if p(s[|s| - 1]) then [s[|s| - 1]] else [])
  }

  lemma {:induction false} FilterMembers<T>(s: seq<T>, p: T -> bool, x: T)
    ensures x in Filter(s, p) <==> x in s && p(x)
  {
    if s != [] {
      FilterMembers(s[..|s| - 1], p, x);
      assert s == s[..|s| - 1] + [s[|s| - 1]];
    }
  }

  lemma {:induction false} FilterAppend<T>(a: seq<T>, b: seq<T>, p: T -> bool)
    ensures Filter(a + b, p) == Filter(a, p) + Filter(b, p)
  {
    if b == [] {
      assert a + b == a;
    } else {
      var b' := b[..|b| - 1];
      assert (a + b)[..|a + b| - 1] == a + b';
      FilterAppend(a, b', p);
    }
  }

  /** The two filters commute. */
  lemma {:induction false} FilterCommutes<T>(s: seq<T>, p: T -> bool, q: T -> bool)
    ensures Filter(Filter(s, p), q) == Filter(Filter(s, q), p)
  {
    if s != [] {
      var s' := s[..|s| - 1];
      var x := s[|s| - 1];
      FilterCommutes(s', p, q);
      FilterAppend(Filter(s', p), if p(x) then [x] else [], q);
      FilterAppend(Filter(s', q), if q(x) then [x] else [], p);
    }
  }

  /** `s` with every element after its first occurrence removed. */
  function Dedup<T(==)>(s: seq<T>): (r: seq<T>)
    ensures forall i :: 0 <= i < |r| ==> r[i] in s
    ensures forall i :: 0 <= i < |s| ==> s[i] in r
    ensures Distinct(r)
  {
    if s == [] then []
    else
      var d := Dedup(s[..|s| - 1]);
      assert s == s[..|s| - 1] + [s[|s| - 1]];
      if s[|s| - 1] in d then d else d + [s[|s| - 1]]
  }

  lemma {:induction false} DedupOfDistinct<T>(s: seq<T>)
    requires Distinct(s)
    ensures Dedup(s) == s
  {
    if s != [] {
      var s' := s[..|s| - 1];
      assert Distinct(s');
      DedupOfDistinct(s');
      assert s[|s| - 1] !in s';
    }
  }

  /** Deduplicating and filtering can be done in either order. */
  lemma {:induction false} DedupFilter<T>(s: seq<T>, p: T -> bool)
    ensures Filter(Dedup(s), p) == Dedup(Filter(s, p))
  {
    if s != [] {
      var s' := s[..|s| - 1];
      var x := s[|s| - 1];
      DedupFilter(s', p);
      var fs := Filter(s, p);
      if p(x) {
        assert fs[..|fs| - 1] == Filter(s', p);
        FilterMembers(s', p, x);
        if x !in Dedup(s') {
          FilterAppend(Dedup(s'), [x], p);
        }
      } else {
        assert fs == Filter(s', p);
        if x !in Dedup(s') {
          FilterAppend(Dedup(s'), [x], p);
        }
      }
    }
  }
}
