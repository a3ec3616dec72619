/** `Array.prototype.filter` over sequences, and the facts about it that the
    store, the event bus and the controller filters rely on. */
module Seqs {

  /** The elements of `s` that satisfy `p`, in their original order. */
  function Filter<T>(p: T -> bool, s: seq<T>): (r: seq<T>)
    ensures |r| <= |s|
    ensures forall i :: 0 <= i < |r| ==> p(r[i])
    ensures forall i :: 0 <= i < |r| ==> r[i] in s
    ensures forall i :: 0 <= i < |s| && p(s[i]) ==> s[i] in r
  {
    if s == [] then []
    else if p(s[0]) then [s[0]] + Filter(p, s[1..])
    else Filter(p, s[1..])
  }

  /** Filtering distributes over concatenation: the kept elements keep their order. */
  lemma {:induction false} FilterAppend<T>(p: T -> bool, s: seq<T>, t: seq<T>)
    ensures Filter(p, s + t) == Filter(p, s) + Filter(p, t)
  {
    if s != [] {
      assert (s + t)[1..] == s[1..] + t;
      FilterAppend(p, s[1..], t);
    } else {
      assert s + t == t;
    }
  }

  /** When every element passes, the filter returns its input unchanged. */
  lemma {:induction false} FilterKeepsAll<T>(p: T -> bool, s: seq<T>)
    requires forall i :: 0 <= i < |s| ==> p(s[i])
    ensures Filter(p, s) == s
  {
    if s != [] {
      FilterKeepsAll(p, s[1..]);
    }
  }

  /** The filter is strictly shorter than its input exactly when some element fails `p`. */
  lemma {:induction false} FilterShorter<T>(p: T -> bool, s: seq<T>)
    ensures |Filter(p, s)| < |s| <==> exists i :: 0 <= i < |s| && !p(s[i])
  {
    if s != [] {
      FilterShorter(p, s[1..]);
      if exists i :: 0 <= i < |s[1..]| && !p(s[1..][i]) {
        var i :| 0 <= i < |s[1..]| && !p(s[1..][i]);
        assert !p(s[i + 1]);
      }
      if exists i :: 0 <= i < |s| && !p(s[i]) {
        var i :| 0 <= i < |s| && !p(s[i]);
        if i > 0 {
          assert !p(s[1..][i - 1]);
        }
      }
    }
  }

  /** Filtering keeps every occurrence of an element that passes and drops every
      occurrence of one that fails. */
  lemma {:induction false} FilterCounts<T>(p: T -> bool, s: seq<T>, x: T)
    ensures multiset(Filter(p, s))[x] == if p(x) then multiset(s)[x] else 0
  {
    if s != [] {
      FilterCounts(p, s[1..], x);
      assert s == [s[0]] + s[1..];
    }
  }

  /** Filtering twice by the same predicate is filtering once. */
  lemma FilterIdempotent<T>(p: T -> bool, s: seq<T>)
    ensures Filter(p, Filter(p, s)) == Filter(p, s)
  {
    FilterKeepsAll(p, Filter(p, s));
  }

  /** Filters by predicates that agree on every element are equal. */
  lemma {:induction false} FilterAgree<T>(p: T -> bool, q: T -> bool, s: seq<T>)
    requires forall i :: 0 <= i < |s| ==> p(s[i]) == q(s[i])
    ensures Filter(p, s) == Filter(q, s)
  {
    if s != [] {
      FilterAgree(p, q, s[1..]);
    }
  }

  /** Two filters in a row are one filter by the conjunction `pq`. */
  lemma {:induction false} FilterThenFilter<T>(p: T -> bool, q: T -> bool, pq: T -> bool, s: seq<T>)
    requires forall i :: 0 <= i < |s| ==> pq(s[i]) == (p(s[i]) && q(s[i]))
    ensures Filter(q, Filter(p, s)) == Filter(pq, s)
  {
    if s != [] {
      FilterThenFilter(p, q, pq, s[1..]);
      if p(s[0]) {
        assert Filter(p, s) == [s[0]] + Filter(p, s[1..]);
        assert Filter(p, s)[1..] == Filter(p, s[1..]);
      }
    }
  }
}
