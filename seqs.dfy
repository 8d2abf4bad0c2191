/** Sequence and string helpers: `Array.prototype.filter` and
    `String.prototype.startsWith`, with the facts the model needs about them. */
module Seqs {

  /** `s.filter(p)`: the elements of `s` that satisfy `p`, in their order. */
  function Filter<T(!new)>(p: T -> bool, s: seq<T>): (r: seq<T>)
    ensures |r| <= |s|
    ensures forall x :: x in r <==> x in s && p(x)
    ensures forall i :: 0 <= i < |r| ==> p(r[i])
  {
    if s == [] then []
    else (if p(s[0]) then [s[0]] else []) + Filter(p, s[1..])
  }

  /** `r` is `s` with some elements dropped and the rest kept in order. */
  ghost predicate IsSubsequence<T>(r: seq<T>, s: seq<T>)
    decreases |s|
  {
    if r == [] then true
    else if s == [] then false
    else (r[0] == s[0] && IsSubsequence(r[1..], s[1..])) || IsSubsequence(r, s[1..])
  }

  /** Filtering keeps the order of the elements it keeps. */
  lemma {:induction false} FilterIsSubsequence<T(!new)>(p: T -> bool, s: seq<T>)
    ensures IsSubsequence(Filter(p, s), s)
  {
    if s != [] {
      FilterIsSubsequence(p, s[1..]);
      var rest := Filter(p, s[1..]);
      if p(s[0]) {
        assert Filter(p, s) == [s[0]] + rest;
        assert ([s[0]] + rest)[1..] == rest;
      } else {
        assert Filter(p, s) == rest;
        if rest != [] {
          assert IsSubsequence(rest, s[1..]);
        }
      }
    }
  }

  /** Filtering keeps every satisfying element as often as it occurs, and no other. */
  lemma {:induction false} FilterMultiset<T(!new)>(p: T -> bool, s: seq<T>, x: T)
    ensures multiset(Filter(p, s))[x] == if p(x) then multiset(s)[x] else 0
  {
    if s != [] {
      FilterMultiset(p, s[1..], x);
      assert s == [s[0]] + s[1..];
      assert multiset(s) == multiset([s[0]]) + multiset(s[1..]);
    }
  }

  /** Two predicates, of which each element satisfies exactly one, split a
      sequence into two filters whose contents add up to the sequence. */
  lemma {:induction false} FilterSplit<T(!new)>(p: T -> bool, q: T -> bool, s: seq<T>)
    requires forall i :: 0 <= i < |s| ==> p(s[i]) != q(s[i])
    ensures |Filter(p, s)| + |Filter(q, s)| == |s|
    ensures multiset(Filter(p, s)) + multiset(Filter(q, s)) == multiset(s)
  {
    if s != [] {
      FilterSplit(p, q, s[1..]);
      assert Filter(p, s) == (if p(s[0]) then [s[0]] else []) + Filter(p, s[1..]);
      assert Filter(q, s) == (if q(s[0]) then [s[0]] else []) + Filter(q, s[1..]);
      assert s == [s[0]] + s[1..];
      assert multiset(s) == multiset([s[0]]) + multiset(s[1..]);
    }
  }

  /** Three predicates, of which each element satisfies exactly one, split a
      sequence into three filters whose contents add up to the sequence. */
  lemma {:induction false} FilterPartition<T(!new)>(p: T -> bool, q: T -> bool, o: T -> bool, s: seq<T>)
    requires forall i :: 0 <= i < |s| ==> (p(s[i]) || q(s[i]) || o(s[i]))
    requires forall i :: 0 <= i < |s| ==> !(p(s[i]) && q(s[i])) && !(p(s[i]) && o(s[i])) && !(q(s[i]) && o(s[i]))
    ensures |Filter(p, s)| + |Filter(q, s)| + |Filter(o, s)| == |s|
    ensures multiset(Filter(p, s)) + multiset(Filter(q, s)) + multiset(Filter(o, s)) == multiset(s)
  {
    if s != [] {
      FilterPartition(p, q, o, s[1..]);
      assert s == [s[0]] + s[1..];
      assert multiset(s) == multiset([s[0]]) + multiset(s[1..]);
    }
  }

  /** Appending to the longer sequence keeps a subsequence a subsequence. */
  lemma {:induction false} SubsequenceAppendRight<T>(r: seq<T>, s: seq<T>, y: T)
    requires IsSubsequence(r, s)
    ensures IsSubsequence(r, s + [y])
    decreases |s|
  {
    if r != [] {
      assert (s + [y])[0] == s[0] && (s + [y])[1..] == s[1..] + [y];
      if r[0] == s[0] && IsSubsequence(r[1..], s[1..]) {
        SubsequenceAppendRight(r[1..], s[1..], y);
      } else {
        SubsequenceAppendRight(r, s[1..], y);
      }
    }
  }

  /** Appending the same element to both keeps a subsequence a subsequence. */
  lemma {:induction false} SubsequenceAppendBoth<T>(r: seq<T>, s: seq<T>, x: T)
    requires IsSubsequence(r, s)
    ensures IsSubsequence(r + [x], s + [x])
    decreases |s|
  {
    if s == [] {
      assert r == [];
      assert (r + [x])[1..] == [] && (s + [x])[1..] == [];
    } else {
      assert (s + [x])[0] == s[0] && (s + [x])[1..] == s[1..] + [x];
      if r == [] {
        assert IsSubsequence(r, s[1..]);
        SubsequenceAppendBoth(r, s[1..], x);
      } else {
        assert (r + [x])[0] == r[0] && (r + [x])[1..] == r[1..] + [x];
        if r[0] == s[0] && IsSubsequence(r[1..], s[1..]) {
          SubsequenceAppendBoth(r[1..], s[1..], x);
        } else {
          SubsequenceAppendBoth(r, s[1..], x);
        }
      }
    }
  }

  /** `s.startsWith(prefix)`. */
  predicate StartsWith(s: string, prefix: string) {
    |prefix| <= |s| && s[..|prefix|] == prefix
  }
}
