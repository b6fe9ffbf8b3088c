/**
 * The array built-ins the pages use: `filter` (including a filter whose callback can throw),
 * and `[...new Set(xs)]`, which keeps the first occurrence of each element in order.
 */
module Seqs {
  import opened Wrappers

  /** `s.filter(p)`. */
  function Filter<T>(s: seq<T>, p: T -> bool): (r: seq<T>)
    ensures |r| <= |s|
    ensures forall i :: 0 <= i < |r| ==> p(r[i])
  {
    if s == [] then [] else (if p(s[0]) then [s[0]] else []) + Filter(s[1..], p)
  }

  /** `r` is `s` with some elements removed, the rest in their original order. */
  ghost predicate Subsequence<T>(r: seq<T>, s: seq<T>) {
    exists idx: seq<nat> :: SelectsFrom(idx, r, s)
  }

  /** `idx` lists, strictly increasing, the positions of `s` that `r` was taken from. */
  ghost predicate SelectsFrom<T>(idx: seq<nat>, r: seq<T>, s: seq<T>) {
    && |idx| == |r|
    && (forall i :: 0 <= i < |idx| ==> idx[i] < |s| && r[i] == s[idx[i]])
    && (forall i, j :: 0 <= i < j < |idx| ==> idx[i] < idx[j])
  }

  /** The positions `Filter` keeps, strictly increasing. */
  lemma {:induction false} FilterPositions<T>(s: seq<T>, p: T -> bool) returns (idx: seq<nat>)
    ensures SelectsFrom(idx, Filter(s, p), s)
  {
    if s == [] {
      idx := [];
    } else {
      var rest := FilterPositions(s[1..], p);
      var shifted := SelectsShift(rest, Filter(s[1..], p), s);
      if p(s[0]) {
        assert Filter(s, p) == [s[0]] + Filter(s[1..], p);
        idx := [0] + shifted;
        SelectsCons(shifted, Filter(s[1..], p), s);
      } else {
        assert Filter(s, p) == Filter(s[1..], p);
        idx := shifted;
      }
    }
  }

  /** Positions taken from the tail of `s` are those positions plus one in `s` itself, and none is 0. */
  lemma SelectsShift<T>(rest: seq<nat>, r: seq<T>, s: seq<T>) returns (shifted: seq<nat>)
    requires s != [] && SelectsFrom(rest, r, s[1..])
    ensures SelectsFrom(shifted, r, s) && forall i :: 0 <= i < |shifted| ==> 0 < shifted[i]
  {
    shifted := seq(|rest|, i requires 0 <= i < |rest| => rest[i] + 1);
  }

  /** Taking position 0 first, then positions after it, selects the head followed by what they select. */
  lemma SelectsCons<T>(shifted: seq<nat>, r: seq<T>, s: seq<T>)
    requires s != [] && SelectsFrom(shifted, r, s) && forall i :: 0 <= i < |shifted| ==> 0 < shifted[i]
    ensures SelectsFrom([0] + shifted, [s[0]] + r, s)
  {
    var idx := [0] + shifted;
    assert forall i :: 0 < i < |idx| ==> idx[i] == shifted[i - 1];
  }

  /** A filtered list is an order-preserving sub-list of its input. */
  lemma FilterIsSubsequence<T>(s: seq<T>, p: T -> bool)
    ensures Subsequence(Filter(s, p), s)
  {
    var idx := FilterPositions(s, p);
  }

  /** A filtered list holds every element that passes, as often as the input does, and no other. */
  lemma {:induction false} FilterMultiset<T>(s: seq<T>, p: T -> bool, x: T)
    ensures multiset(Filter(s, p))[x] == if p(x) then multiset(s)[x] else 0
  {
    if s != [] {
      FilterMultiset(s[1..], p, x);
      assert s == [s[0]] + s[1..];
    }
  }

  /** Filtering with a predicate every element passes keeps the whole list. */
  lemma {:induction false} FilterAll<T>(s: seq<T>, p: T -> bool)
    requires forall i :: 0 <= i < |s| ==> p(s[i])
    ensures Filter(s, p) == s
  {
    if s != [] {
      FilterAll(s[1..], p);
    }
  }

  /** Filtering with two predicates in turn is filtering with their conjunction. */
  lemma {:induction false} FilterFilter<T>(s: seq<T>, p: T -> bool, q: T -> bool)
    ensures Filter(Filter(s, p), q) == Filter(s, x => p(x) && q(x))
  {
    if s != [] {
      FilterFilter(s[1..], p, q);
      var head := if p(s[0]) then [s[0]] else [];
      assert Filter(s, p) == head + Filter(s[1..], p);
      FilterAppend(head, Filter(s[1..], p), q);
    }
  }

  lemma {:induction false} FilterAppend<T>(a: seq<T>, b: seq<T>, p: T -> bool)
    ensures Filter(a + b, p) == Filter(a, p) + Filter(b, p)
  {
    if a == [] {
      assert a + b == b;
    } else {
      assert (a + b)[0] == a[0];
      assert (a + b)[1..] == a[1..] + b;
      FilterAppend(a[1..], b, p);
    }
  }

  /**
   * `s.filter(f)` with a callback that may throw: the first element whose test throws aborts
   * the whole filter with that error.
   */
  function FilterOrThrow<T>(s: seq<T>, f: T -> Result<bool, string>): Result<seq<T>, string> {
    if s == [] then Success([])
    else match f(s[0])
      case Failure(e) => Failure(e)
      case Success(keep) =>
        match FilterOrThrow(s[1..], f)
        case Failure(e) => Failure(e)
        case Success(rest) => Success((if keep then [s[0]] else []) + rest)
  }

  /** A filter whose callback answers, without throwing, as `p` does is the plain filter by `p`. */
  lemma {:induction false} FilterOrThrowAgrees<T>(s: seq<T>, f: T -> Result<bool, string>, p: T -> bool)
    requires forall i :: 0 <= i < |s| ==> f(s[i]) == Success(p(s[i]))
    ensures FilterOrThrow(s, f) == Success(Filter(s, p))
  {
    if s != [] {
      assert forall i :: 0 <= i < |s[1..]| ==> s[1..][i] == s[i + 1];
      FilterOrThrowAgrees(s[1..], f, p);
    }
  }

  /** A filter fails exactly when some element's test throws. */
  lemma {:induction false} FilterOrThrowFails<T>(s: seq<T>, f: T -> Result<bool, string>)
    ensures FilterOrThrow(s, f).Failure? <==> exists i :: 0 <= i < |s| && f(s[i]).Failure?
  {
    if s != [] {
      FilterOrThrowFails(s[1..], f);
      if exists i :: 0 <= i < |s| && f(s[i]).Failure? {
        var i :| 0 <= i < |s| && f(s[i]).Failure?;
        if i > 0 {
          assert s[1..][i - 1] == s[i];
        }
      }
      if exists i :: 0 <= i < |s[1..]| && f(s[1..][i]).Failure? {
        var i :| 0 <= i < |s[1..]| && f(s[1..][i]).Failure?;
        assert s[i + 1] == s[1..][i];
      }
    }
  }

  /** Throwing filters with callbacks that agree on every element give the same outcome. */
  lemma {:induction false} FilterOrThrowCongruent<T>(s: seq<T>, f: T -> Result<bool, string>, g: T -> Result<bool, string>)
    requires forall i :: 0 <= i < |s| ==> f(s[i]) == g(s[i])
    ensures FilterOrThrow(s, f) == FilterOrThrow(s, g)
  {
    if s != [] {
      FilterOrThrowCongruent(s[1..], f, g);
    }
  }

  // ---------------------------------------------------------------- de-duplication

  /** The position of the first occurrence of `x` in `s`. */
  function FirstIndex<T(==)>(s: seq<T>, x: T): (i: nat)
    requires x in s
    ensures i < |s| && s[i] == x
    ensures forall j :: 0 <= j < i ==> s[j] != x
  {
    if s[0] == x then 0 else 1 + FirstIndex(s[1..], x)
  }

  /** `[...new Set(s)]`. */
  function Dedup<T(==)>(s: seq<T>): (r: seq<T>)
    ensures forall i :: 0 <= i < |r| ==> r[i] in s
    ensures forall i :: 0 <= i < |s| ==> s[i] in r
  {
    if s == [] then []
    else
      var d := Dedup(s[..|s| - 1]);
      assert forall i :: 0 <= i < |s| - 1 ==> s[i] == s[..|s| - 1][i];
      if s[|s| - 1] in d then d else d + [s[|s| - 1]]
  }

  /** A list with no element twice. */
  predicate Distinct<T(==)>(s: seq<T>) {
    forall i, j :: 0 <= i < j < |s| ==> s[i] != s[j]
  }

  /** The de-duplicated list holds each element exactly once. */
  lemma {:induction false} DedupDistinct<T>(s: seq<T>)
    ensures Distinct(Dedup(s))
  {
    if s != [] {
      DedupDistinct(s[..|s| - 1]);
    }
  }

  lemma {:induction false} FirstIndexInit<T>(s: seq<T>, x: T)
    requires s != [] && x in s[..|s| - 1]
    ensures FirstIndex(s, x) == FirstIndex(s[..|s| - 1], x)
  {
    if s[0] != x {
      assert s[1..][..|s[1..]| - 1] == s[..|s| - 1][1..];
      FirstIndexInit(s[1..], x);
    }
  }

  /** The de-duplicated list is ordered by where each element first occurs. */
  lemma {:induction false} DedupFirstOccurrenceOrder<T>(s: seq<T>)
    ensures forall i, j :: 0 <= i < j < |Dedup(s)| ==> FirstIndex(s, Dedup(s)[i]) < FirstIndex(s, Dedup(s)[j])
  {
    if s != [] {
      var init := s[..|s| - 1];
      var d := Dedup(init);
      DedupFirstOccurrenceOrder(init);
      forall x | x in d
        ensures FirstIndex(s, x) == FirstIndex(init, x)
      {
        FirstIndexInit(s, x);
      }
      var last := s[|s| - 1];
      if last !in d {
        assert last !in init;
        assert FirstIndex(s, last) == |s| - 1;
        var r := d + [last];
        forall i, j | 0 <= i < j < |r|
          ensures FirstIndex(s, r[i]) < FirstIndex(s, r[j])
        {
          assert r[i] in d;
          if j < |d| {
            assert r[i] == d[i] && r[j] == d[j];
          }
        }
      }
    }
  }
}
