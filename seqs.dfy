/** `Array.prototype.filter` and `reduce`-sums over sequences. */
module Seqs {

  /** `s.filter(p)`. */
  function Filter<T>(s: seq<T>, p: T -> bool): (r: seq<T>)
    ensures |r| <= |s|
    ensures forall x :: x in r ==> x in s && p(x)
  {
    if s == [] then [] else (if p(s[0]) then [s[0]] else []) + Filter(s[1..], p)
  }

  /** Filtering keeps exactly the elements that satisfy the predicate. */
  lemma {:induction false} FilterMembership<T>(s: seq<T>, p: T -> bool, x: T)
    ensures x in Filter(s, p) <==> x in s && p(x)
  {
    if s != [] {
      FilterMembership(s[1..], p, x);
      assert s == [s[0]] + s[1..];
    }
  }

  /** Filtering distributes over concatenation, so it preserves the order of
      what it keeps. */
  lemma {:induction false} FilterAppend<T>(a: seq<T>, b: seq<T>, p: T -> bool)
    ensures Filter(a + b, p) == Filter(a, p) + Filter(b, p)
  {
    if a == [] {
      assert a + b == b;
    } else {
      var head := if p(a[0]) then [a[0]] else [];
      assert (a + b)[0] == a[0] && (a + b)[1..] == a[1..] + b;
      FilterAppend(a[1..], b, p);
      calc {
        Filter(a + b, p);
        head + Filter(a[1..] + b, p);
        head + (Filter(a[1..], p) + Filter(b, p));
        (head + Filter(a[1..], p)) + Filter(b, p);
      }
    }
  }

  /** Two filters in a row keep what any predicate equivalent to their conjunction keeps. */
  lemma {:induction false} FilterThenFilter<T>(s: seq<T>, p: T -> bool, q: T -> bool, both: T -> bool)
    requires forall x :: both(x) == (p(x) && q(x))
    ensures Filter(Filter(s, p), q) == Filter(s, both)
  {
    if s != [] {
      FilterThenFilter(s[1..], p, q, both);
      var head := if p(s[0]) then [s[0]] else [];
      FilterAppend(head, Filter(s[1..], p), q);
      if p(s[0]) {
        assert head[1..] == [];
      }
    }
  }

  /** A filter keeps every element that already satisfies it. */
  lemma {:induction false} FilterAll<T>(s: seq<T>, p: T -> bool)
    requires forall x :: x in s ==> p(x)
    ensures Filter(s, p) == s
  {
    if s != [] {
      assert s[0] in s;
      assert forall x :: x in s[1..] ==> x in s;
      FilterAll(s[1..], p);
      assert s == [s[0]] + s[1..];
    }
  }

  /** Filtering twice with the same predicate changes nothing. */
  lemma FilterIdempotent<T>(s: seq<T>, p: T -> bool)
    ensures Filter(Filter(s, p), p) == Filter(s, p)
  {
    FilterAll(Filter(s, p), p);
  }

  /** Filtering with a predicate whose result is the same as another's on every
      element of `s` gives the same sequence. */
  lemma {:induction false} FilterCongruent<T>(s: seq<T>, p: T -> bool, q: T -> bool)
    requires forall i :: 0 <= i < |s| ==> p(s[i]) == q(s[i])
    ensures Filter(s, p) == Filter(s, q)
  {
    if s != [] {
      assert forall i :: 0 <= i < |s| - 1 ==> s[1..][i] == s[i + 1];
      FilterCongruent(s[1..], p, q);
    }
  }

  /** `s.filter(p).length`. */
  function Count<T>(s: seq<T>, p: T -> bool): nat {
    |Filter(s, p)|
  }

  /** The count is 0 exactly when no element satisfies the predicate, and the
      length exactly when every element does. */
  lemma {:induction false} CountExtremes<T>(s: seq<T>, p: T -> bool)
    ensures Count(s, p) == 0 <==> forall i :: 0 <= i < |s| ==> !p(s[i])
    ensures Count(s, p) == |s| <==> forall i :: 0 <= i < |s| ==> p(s[i])
  {
    if s != [] {
      CountExtremes(s[1..], p);
      assert forall i :: 1 <= i < |s| ==> s[1..][i - 1] == s[i];
    }
  }

  /** Counts of predicates that exclude each other add up to at most the length. */
  lemma {:induction false} CountDisjoint3<T>(s: seq<T>, p: T -> bool, q: T -> bool, r: T -> bool)
    requires forall x :: !(p(x) && q(x)) && !(p(x) && r(x)) && !(q(x) && r(x))
    ensures Count(s, p) + Count(s, q) + Count(s, r) <= |s|
  {
    if s != [] {
      CountDisjoint3(s[1..], p, q, r);
    }
  }

  /** `s.reduce((sum, x) => sum + f(x), 0)`. */
  function SumOf<T>(s: seq<T>, f: T -> real): real {
    if s == [] then 0.0 else f(s[0]) + SumOf(s[1..], f)
  }

  lemma {:induction false} SumOfAppend<T>(a: seq<T>, b: seq<T>, f: T -> real)
    ensures SumOf(a + b, f) == SumOf(a, f) + SumOf(b, f)
  {
    if a == [] {
      assert a + b == b;
    } else {
      SumOfAppend(a[1..], b, f);
      assert (a + b)[1..] == a[1..] + b;
    }
  }

  /** Sums of terms that agree element by element are equal. */
  lemma {:induction false} SumOfCongruent<T, U>(s: seq<T>, f: T -> real, t: seq<U>, g: U -> real)
    requires |s| == |t|
    requires forall i :: 0 <= i < |s| ==> f(s[i]) == g(t[i])
    ensures SumOf(s, f) == SumOf(t, g)
  {
    if s != [] {
      assert forall i :: 0 <= i < |s| - 1 ==> s[1..][i] == s[i + 1] && t[1..][i] == t[i + 1];
      SumOfCongruent(s[1..], f, t[1..], g);
    }
  }

  /** A sum of non-negative terms is non-negative. */
  lemma {:induction false} SumOfNonNegative<T>(s: seq<T>, f: T -> real)
    requires forall i :: 0 <= i < |s| ==> f(s[i]) >= 0.0
    ensures SumOf(s, f) >= 0.0
  {
    if s != [] {
      assert forall i :: 0 <= i < |s| - 1 ==> s[1..][i] == s[i + 1];
      SumOfNonNegative(s[1..], f);
    }
  }

  /** `s.slice(start, end)` for non-negative bounds. */
  function Slice<T>(s: seq<T>, start: nat, end: nat): (r: seq<T>)
    ensures |r| <= |s| && (end <= start ==> r == [])
    ensures start < end <= |s| ==> r == s[start..end]
  {
    var e := if end <= |s| then end else |s|;
    if start >= e then [] else s[start..e]
  }

  /** A non-empty sequence holds `x` exactly when its last element is `x` or
      the rest holds it. */
  lemma InSnoc<T>(s: seq<T>, x: T)
    requires s != []
    ensures x in s <==> x in s[..|s| - 1] || x == s[|s| - 1]
  {
    assert s == s[..|s| - 1] + [s[|s| - 1]];
  }
}
