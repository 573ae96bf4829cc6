/**
 * Sequence operations shared by every view: `Array.prototype.filter`,
 * `Array.prototype.slice`, and the order and uniqueness facts about them.
 */
module Seqs {

  /** `a` can be obtained from `b` by deleting elements: same relative order. */
  ghost predicate IsSubsequence<T>(a: seq<T>, b: seq<T>)
    decreases |b|
  {
    if |a| == 0 then true
    else if |b| == 0 then false
    else (a[0] == b[0] && IsSubsequence(a[1..], b[1..])) || IsSubsequence(a, b[1..])
  }

  /** No two elements of `s` share a key. */
  ghost predicate UniqueBy<T, K>(s: seq<T>, key: T -> K) {
    forall i, j :: 0 <= i < j < |s| ==> key(s[i]) != key(s[j])
  }

  /** `s.filter(keep)`: the elements that satisfy `keep`, in their original order. */
  function Filter<T>(s: seq<T>, keep: T -> bool): (r: seq<T>)
    ensures |r| <= |s|
    ensures forall i :: 0 <= i < |r| ==> r[i] in s && keep(r[i])
    ensures forall i :: 0 <= i < |s| && keep(s[i]) ==> s[i] in r
    ensures IsSubsequence(r, s)
    decreases |s|
  {
    if |s| == 0 then []
    else
      var rest := Filter(s[1..], keep);
      assert s == [s[0]] + s[1..];
      if keep(s[0]) then
        var r := [s[0]] + rest;
        assert r[1..] == rest;
        r
      else
        rest
  }

  /**
   * `r` holds every element of `s` that satisfies `keep` exactly as often as
   * `s` does, and no copy of any other element of `s`.
   */
  ghost predicate KeepsCopies<T>(r: seq<T>, s: seq<T>, keep: T -> bool) {
    forall i :: 0 <= i < |s| ==> multiset(r)[s[i]] == (if keep(s[i]) then multiset(s)[s[i]] else 0)
  }

  /** A filter keeps every copy of a kept element: it never merges duplicates. */
  lemma {:induction false} FilterCopies<T>(s: seq<T>, keep: T -> bool)
    ensures KeepsCopies(Filter(s, keep), s, keep)
    decreases |s|
  {
    if |s| > 0 {
      var t := s[1..];
      var rest := Filter(t, keep);
      FilterCopies(t, keep);
      assert s == [s[0]] + t;
      var r := Filter(s, keep);
      assert r == (if keep(s[0]) then [s[0]] else []) + rest;
      forall i | 0 <= i < |s|
        ensures multiset(r)[s[i]] == (if keep(s[i]) then multiset(s)[s[i]] else 0)
      {
        var x := s[i];
        if x in t {
          var j :| 0 <= j < |t| && t[j] == x;
          assert multiset(rest)[t[j]] == (if keep(t[j]) then multiset(t)[t[j]] else 0);
        } else {
          assert multiset(t)[x] == 0;
          assert x !in rest;
        }
      }
    }
  }

  /** Filtering distributes over concatenation, which is what "keeps the order" means. */
  lemma {:induction false} FilterConcat<T>(a: seq<T>, b: seq<T>, keep: T -> bool)
    ensures Filter(a + b, keep) == Filter(a, keep) + Filter(b, keep)
    decreases |a|
  {
    if |a| == 0 {
      assert a + b == b;
    } else {
      assert (a + b)[1..] == a[1..] + b;
      FilterConcat(a[1..], b, keep);
    }
  }

  /** A filter that rejects nothing returns its input unchanged. */
  lemma {:induction false} FilterKeepsAll<T>(s: seq<T>, keep: T -> bool)
    requires forall i :: 0 <= i < |s| ==> keep(s[i])
    ensures Filter(s, keep) == s
    decreases |s|
  {
    if |s| > 0 {
      FilterKeepsAll(s[1..], keep);
      assert s == [s[0]] + s[1..];
    }
  }

  /** Filtering twice with the same test is filtering once. */
  lemma FilterIdempotent<T>(s: seq<T>, keep: T -> bool)
    ensures Filter(Filter(s, keep), keep) == Filter(s, keep)
  {
    var r := Filter(s, keep);
    forall i | 0 <= i < |r|
      ensures keep(r[i])
    {
      assert r[i] in r;
    }
    FilterKeepsAll(r, keep);
  }

  /** Removing elements cannot create a duplicate key. */
  lemma {:induction false} FilterKeepsUnique<T, K>(s: seq<T>, keep: T -> bool, key: T -> K)
    requires UniqueBy(s, key)
    ensures UniqueBy(Filter(s, keep), key)
    decreases |s|
  {
    if |s| > 0 {
      var tail := s[1..];
      assert UniqueBy(tail, key) by {
        forall i, j | 0 <= i < j < |tail|
          ensures key(tail[i]) != key(tail[j])
        {
          assert tail[i] == s[i + 1] && tail[j] == s[j + 1];
        }
      }
      FilterKeepsUnique(tail, keep, key);
      var rest := Filter(tail, keep);
      if keep(s[0]) {
        var r := [s[0]] + rest;
        assert Filter(s, keep) == r;
        forall i, j | 0 <= i < j < |r|
          ensures key(r[i]) != key(r[j])
        {
          if i == 0 {
            assert r[j] in tail;
            var k :| 0 <= k < |tail| && tail[k] == r[j];
            assert s[k + 1] == r[j];
          } else {
            assert r[i] == rest[i - 1] && r[j] == rest[j - 1];
          }
        }
      }
    }
  }

  /** Where `Array.prototype.slice` puts a (possibly negative) bound on a sequence of length `len`. */
  function SliceBound(i: int, len: nat): (b: nat)
    ensures b <= len
    ensures 0 <= i <= len ==> b == i
  {
    if i < 0 then (if len + i < 0 then 0 else len + i)
    else if i > len then len
    else i
  }

  /** `s.slice(start, end)`, including the source language's negative and out-of-range bounds. */
  function Slice<T>(s: seq<T>, start: int, end: int): (r: seq<T>)
    ensures |r| <= |s|
    ensures 0 <= start <= end ==>
      var a := if start < |s| then start else |s|;
      var b := if end < |s| then end else |s|;
      r == s[a..b]
  {
    var a := SliceBound(start, |s|);
    var b := SliceBound(end, |s|);
    if a < b then s[a..b] else []
  }
}
