/**
 Order-preserving selection on sequences: the meaning of an array `filter`
 with a side-effect-free callback, and the subsequence relation it produces.
 */
module Sequences {

  /** `r` can be obtained from `s` by deleting elements, keeping the order
      of the rest (greedy matching is complete for this relation). A
      subsequence never holds an element more often than the sequence. */
  predicate Subseq<T(==)>(r: seq<T>, s: seq<T>): (b: bool)
    ensures b ==> multiset(r) <= multiset(s)
    decreases |s|
  {
    if r == [] then true
    else if s == [] then false
    else
      assert r == [r[0]] + r[1..] && s == [s[0]] + s[1..];
      if r[0] == s[0] then Subseq(r[1..], s[1..])
      else Subseq(r, s[1..])
  }

  /** The elements of `s` for which `keep` holds, in their original order. */
  function Filter<T(==,!new)>(s: seq<T>, keep: T -> bool): (r: seq<T>)
    ensures Subseq(r, s)
    ensures forall x :: multiset(r)[x] == if keep(x) then multiset(s)[x] else 0
    ensures forall x :: x in r ==> keep(x)
  {
    if s == [] then []
    else
      var rest := Filter(s[1..], keep);
      assert s == [s[0]] + s[1..];
      if keep(s[0]) then [s[0]] + rest else rest
  }

  lemma {:induction false} SubseqRefl<T>(s: seq<T>)
    ensures Subseq(s, s)
    decreases |s|
  {
    if s != [] {
      SubseqRefl(s[1..]);
    }
  }

  /** Filtering keeps everything when every element passes. */
  lemma {:induction false} FilterAll<T(!new)>(s: seq<T>, keep: T -> bool)
    requires forall x :: x in s ==> keep(x)
    ensures Filter(s, keep) == s
    decreases |s|
  {
    if s != [] {
      assert s[0] in s;
      assert forall x :: x in s[1..] ==> x in s;
      FilterAll(s[1..], keep);
    }
  }

  /** Independent characterisation of Filter: it is the one subsequence of
      `s` that holds every kept element as often as `s` does and nothing else. */
  lemma {:induction false} FilterUnique<T(!new)>(r: seq<T>, s: seq<T>, keep: T -> bool)
    requires Subseq(r, s)
    requires forall x :: multiset(r)[x] == if keep(x) then multiset(s)[x] else 0
    ensures r == Filter(s, keep)
    decreases |s|
  {
    if s == [] {
      assert r == [];
    } else {
      var x, t := s[0], s[1..];
      assert s == [x] + t;
      assert multiset(s) == multiset{x} + multiset(t);
      if r != [] && r[0] == x {
        assert keep(x) by {
          assert r == [r[0]] + r[1..];
          assert multiset(r)[x] > 0;
        }
        var r' := r[1..];
        assert r == [x] + r';
        assert multiset(r) == multiset{x} + multiset(r');
        assert forall y :: multiset(r')[y] == if keep(y) then multiset(t)[y] else 0 by {
          forall y ensures multiset(r')[y] == if keep(y) then multiset(t)[y] else 0 {
            assert multiset(r)[y] == multiset{x}[y] + multiset(r')[y];
            assert multiset(s)[y] == multiset{x}[y] + multiset(t)[y];
          }
        }
        FilterUnique(r', t, keep);
      } else {
        assert Subseq(r, t);
        assert !keep(x) by {
          assert multiset(r)[x] <= multiset(t)[x] < multiset(s)[x];
        }
        assert forall y :: multiset(r)[y] == if keep(y) then multiset(t)[y] else 0 by {
          forall y ensures multiset(r)[y] == if keep(y) then multiset(t)[y] else 0 {
            assert multiset(s)[y] == multiset{x}[y] + multiset(t)[y];
          }
        }
        FilterUnique(r, t, keep);
      }
    }
  }
}
