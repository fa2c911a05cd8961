/** The array operations the TypeScript code uses (`filter`, `reduce` with `+`,
    `findIndex`/`find` followed by an in-place replacement), as functions on
    sequences, with the facts about them that the rest of the model needs. */
module Seqs {
  import opened Wrappers

  /** `s.filter(p)`: the elements of `s` that satisfy `p`, in their order in `s`. */
  function Filter<T(!new)>(s: seq<T>, p: T -> bool): (r: seq<T>)
    ensures |r| <= |s|
    ensures forall x :: x in r <==> x in s && p(x)
  {
    if |s| == 0 then []
    else Filter(s[..|s| - 1], p) + (if p(s[|s| - 1]) then [s[|s| - 1]] else [])
  }

  /** `s.reduce((acc, x) => acc + f(x), 0)` over reals. */
  function Sum<T(!new)>(s: seq<T>, f: T -> real): real {
    if |s| == 0 then 0.0 else Sum(s[..|s| - 1], f) + f(s[|s| - 1])
  }

  /** `s.reduce((acc, x) => acc + f(x), 0)` over naturals. */
  function SumNat<T(!new)>(s: seq<T>, f: T -> nat): nat {
    if |s| == 0 then 0 else SumNat(s[..|s| - 1], f) + f(s[|s| - 1])
  }

  /** `s.findIndex(p)`, with `None` for the source's -1. */
  function FindFirst<T(!new)>(s: seq<T>, p: T -> bool): (r: Option<nat>)
    ensures r.Some? ==> r.value < |s| && p(s[r.value])
    ensures r.Some? ==> forall j :: 0 <= j < r.value ==> !p(s[j])
    ensures r.None? <==> forall j :: 0 <= j < |s| ==> !p(s[j])
  {
    if |s| == 0 then None
    else if p(s[0]) then Some(0)
    else match FindFirst(s[1..], p)
      case None => None
      case Some(i) => Some(i + 1)
  }

  /** Find the first element satisfying `p` and replace it by `f` of itself; the
      shape of `const i = s.findIndex(p); if (i !== -1) s[i] = f(s[i])` and of
      `const x = s.find(p); if (x) mutate(x)`. */
  function UpdateFirst<T(!new)>(s: seq<T>, p: T -> bool, f: T -> T): (r: seq<T>)
    ensures |r| == |s|
    ensures forall j :: 0 <= j < |s| ==>
      r[j] == if FindFirst(s, p) == Some(j) then f(s[j]) else s[j]
  {
    match FindFirst(s, p)
    case None => s
    case Some(i) => s[i := f(s[i])]
  }

  /** When `f` keeps `p` true and applying it twice is applying it once,
      updating the first match twice is updating it once. */
  lemma UpdateFirstIdempotent<T(!new)>(s: seq<T>, p: T -> bool, f: T -> T)
    requires forall x :: x in s && p(x) ==> p(f(x)) && f(f(x)) == f(x)
    ensures UpdateFirst(UpdateFirst(s, p, f), p, f) == UpdateFirst(s, p, f)
  {
    var r := UpdateFirst(s, p, f);
    match FindFirst(s, p)
    case None =>
    case Some(i) =>
      assert r[i] == f(s[i]) && p(r[i]);
      assert forall j :: 0 <= j < i ==> r[j] == s[j];
      assert FindFirst(r, p) == Some(i);
  }

  /** Filtering distributes over concatenation, so `Filter` keeps the relative
      order of the elements it keeps. */
  lemma {:induction false} FilterAppend<T(!new)>(a: seq<T>, b: seq<T>, p: T -> bool)
    ensures Filter(a + b, p) == Filter(a, p) + Filter(b, p)
  {
    if |b| == 0 {
      assert a + b == a;
    } else {
      var b' := b[..|b| - 1];
      assert (a + b)[..|a + b| - 1] == a + b';
      FilterAppend(a, b', p);
    }
  }

  /** Filtering twice with the same predicate is filtering once. */
  lemma {:induction false} FilterIdempotent<T(!new)>(s: seq<T>, p: T -> bool)
    ensures Filter(Filter(s, p), p) == Filter(s, p)
  {
    if |s| > 0 {
      var s' := s[..|s| - 1];
      var tail := if p(s[|s| - 1]) then [s[|s| - 1]] else [];
      FilterIdempotent(s', p);
      FilterAppend(Filter(s', p), tail, p);
    }
  }

  /** Nothing is kept when no element satisfies the predicate. */
  lemma {:induction false} FilterNone<T(!new)>(s: seq<T>, p: T -> bool)
    requires forall x :: x in s ==> !p(x)
    ensures Filter(s, p) == []
  {
    if |s| > 0 {
      FilterNone(s[..|s| - 1], p);
    }
  }

  /** Everything is kept when every element satisfies the predicate. */
  lemma {:induction false} FilterAll<T(!new)>(s: seq<T>, p: T -> bool)
    requires forall x :: x in s ==> p(x)
    ensures Filter(s, p) == s
  {
    if |s| > 0 {
      FilterAll(s[..|s| - 1], p);
    }
  }

  /** A filter with a weaker predicate keeps at least as many elements. */
  lemma {:induction false} FilterWeaker<T(!new)>(s: seq<T>, p: T -> bool, q: T -> bool)
    requires forall x :: x in s && p(x) ==> q(x)
    ensures |Filter(s, p)| <= |Filter(s, q)|
  {
    if |s| > 0 {
      FilterWeaker(s[..|s| - 1], p, q);
    }
  }

  /** Replacing one element changes the number of kept elements by the
      difference the replacement makes to that element alone. */
  lemma FilterCountUpdate<T(!new)>(s: seq<T>, i: nat, y: T, p: T -> bool)
    requires i < |s|
    ensures |Filter(s[i := y], p)| + (if p(s[i]) then 1 else 0)
         == |Filter(s, p)| + (if p(y) then 1 else 0)
  {
    var before, after := s[..i], s[i + 1..];
    assert s == before + [s[i]] + after;
    assert s[i := y] == before + [y] + after;
    FilterAppend(before + [s[i]], after, p);
    FilterAppend(before, [s[i]], p);
    FilterAppend(before + [y], after, p);
    FilterAppend(before, [y], p);
    assert [s[i]][..0] == [y][..0] == [];
  }

  /** The size of the elements kept by `p` and of those kept by `q`, when no
      element satisfies both, is the size of those kept by their disjunction. */
  lemma {:induction false} FilterDisjointCount<T(!new)>(s: seq<T>, p: T -> bool, q: T -> bool, pq: T -> bool)
    requires forall x :: x in s ==> (pq(x) <==> p(x) || q(x)) && !(p(x) && q(x))
    ensures |Filter(s, pq)| == |Filter(s, p)| + |Filter(s, q)|
  {
    if |s| > 0 {
      FilterDisjointCount(s[..|s| - 1], p, q, pq);
    }
  }

  lemma {:induction false} SumAppend<T(!new)>(a: seq<T>, b: seq<T>, f: T -> real)
    ensures Sum(a + b, f) == Sum(a, f) + Sum(b, f)
  {
    if |b| == 0 {
      assert a + b == a;
    } else {
      var b' := b[..|b| - 1];
      assert (a + b)[..|a + b| - 1] == a + b';
      SumAppend(a, b', f);
    }
  }

  /** Elementwise bounds give bounds on the sum. */
  lemma {:induction false} SumBounds<T(!new)>(s: seq<T>, f: T -> real, lo: real, hi: real)
    requires forall x :: x in s ==> lo <= f(x) <= hi
    ensures |s| as real * lo <= Sum(s, f) <= |s| as real * hi
  {
    if |s| > 0 {
      SumBounds(s[..|s| - 1], f, lo, hi);
    }
  }

  /** Non-negative terms have a non-negative sum. */
  lemma {:induction false} SumNonNegative<T(!new)>(s: seq<T>, f: T -> real)
    requires forall x :: x in s ==> f(x) >= 0.0
    ensures Sum(s, f) >= 0.0
  {
    if |s| > 0 {
      SumNonNegative(s[..|s| - 1], f);
    }
  }

  /** Terms that are all zero sum to zero. */
  lemma {:induction false} SumZero<T(!new)>(s: seq<T>, f: T -> real)
    requires forall x :: x in s ==> f(x) == 0.0
    ensures Sum(s, f) == 0.0
  {
    if |s| > 0 {
      SumZero(s[..|s| - 1], f);
    }
  }

  /** Summing over the kept elements only is summing `f` where `p` holds and 0 elsewhere. */
  lemma {:induction false} SumFilter<T(!new)>(s: seq<T>, p: T -> bool, f: T -> real, g: T -> real)
    requires forall x :: x in s ==> g(x) == if p(x) then f(x) else 0.0
    ensures Sum(Filter(s, p), f) == Sum(s, g)
  {
    if |s| > 0 {
      var s' := s[..|s| - 1];
      var last := s[|s| - 1];
      SumFilter(s', p, f, g);
      SumAppend(Filter(s', p), if p(last) then [last] else [], f);
      assert Sum([last], f) == f(last) by {
        assert [last][..0] == [];
      }
    }
  }
}
