/** The array methods the application leans on (`filter`, `reduce`), as functions on sequences. */
module Seqs {
  import opened Wrappers
  import opened Numbers

  /** `s.filter(keep)`: the elements that pass, in their original order. */
  function Filter<T(!new)>(s: seq<T>, keep: T -> bool): (r: seq<T>)
    ensures |r| <= |s|
    ensures forall x :: x in r <==> x in s && keep(x)
  {
    if s == [] then []
    else (if keep(s[0]) then [s[0]] else []) + Filter(s[1..], keep)
  }

  /** Filtering distributes over concatenation, so `Filter` keeps the relative order of what it keeps. */
  lemma {:induction false} FilterConcat<T(!new)>(a: seq<T>, b: seq<T>, keep: T -> bool)
    ensures Filter(a + b, keep) == Filter(a, keep) + Filter(b, keep)
  {
    if a == [] {
      assert a + b == b;
    } else {
      assert (a + b)[0] == a[0];
      assert (a + b)[1..] == a[1..] + b;
      FilterConcat(a[1..], b, keep);
    }
  }

  /** When every element passes, `Filter` returns its input unchanged. */
  lemma {:induction false} FilterKeepsAll<T(!new)>(s: seq<T>, keep: T -> bool)
    requires forall x :: x in s ==> keep(x)
    ensures Filter(s, keep) == s
  {
    if s != [] {
      assert s == [s[0]] + s[1..];
      FilterKeepsAll(s[1..], keep);
    }
  }

  /** When no element passes, `Filter` returns nothing. */
  lemma {:induction false} FilterDropsAll<T(!new)>(s: seq<T>, keep: T -> bool)
    requires forall x :: x in s ==> !keep(x)
    ensures Filter(s, keep) == []
  {
    if s != [] {
      assert s[0] in s;
      FilterDropsAll(s[1..], keep);
    }
  }

  /** `s.reduce((acc, x) => acc + f(x), 0)`: a left fold, so NaN anywhere gives NaN. */
  function SumNum<T(!new)>(s: seq<T>, f: T -> Num): (r: Num)
    ensures r.Some? <==> forall x :: x in s ==> f(x).Some?
  {
    if s == [] then Some(0.0)
    else
      assert forall x :: x in s <==> x in s[..|s| - 1] || x == s[|s| - 1];
      Plus(SumNum(s[..|s| - 1], f), f(s[|s| - 1]))
  }

  /** Summing agrees with pointwise-equal summands. */
  lemma {:induction false} SumNumCongruent<T(!new)>(s: seq<T>, f: T -> Num, g: T -> Num)
    requires forall x :: x in s ==> f(x) == g(x)
    ensures SumNum(s, f) == SumNum(s, g)
  {
    if s != [] {
      SumNumCongruent(s[..|s| - 1], f, g);
    }
  }

  /** The sum of pointwise sums is the sum of the two sums, NaN included. */
  lemma {:induction false} SumNumPlus<T(!new)>(s: seq<T>, f: T -> Num, g: T -> Num, h: T -> Num)
    requires forall x :: x in s ==> h(x) == Plus(f(x), g(x))
    ensures SumNum(s, h) == Plus(SumNum(s, f), SumNum(s, g))
  {
    if s != [] {
      SumNumPlus(s[..|s| - 1], f, g, h);
    }
  }

  /** The sum of pointwise differences is the difference of the two sums, NaN included. */
  lemma {:induction false} SumNumMinus<T(!new)>(s: seq<T>, f: T -> Num, g: T -> Num, h: T -> Num)
    requires forall x :: x in s ==> h(x) == Minus(f(x), g(x))
    ensures SumNum(s, h) == Minus(SumNum(s, f), SumNum(s, g))
  {
    if s != [] {
      SumNumMinus(s[..|s| - 1], f, g, h);
    }
  }

  /** Replacing one summand moves the sum by the difference (NaN elsewhere stays NaN). */
  lemma {:induction false} SumNumUpdate<T(!new)>(s: seq<T>, k: int, x: T, f: T -> Num)
    requires 0 <= k < |s| && f(s[k]).Some? && f(x).Some?
    ensures SumNum(s[k := x], f) == Plus(SumNum(s, f), Some(f(x).value - f(s[k]).value))
  {
    var n := |s| - 1;
    if k == n {
      assert s[k := x][..n] == s[..n];
    } else {
      assert s[k := x][..n] == s[..n][k := x];
      SumNumUpdate(s[..n], k, x, f);
    }
  }

  /** `s.filter(x => x.id !== id)`: the delete every list screen performs. */
  function RemoveById<T(!new)>(s: seq<T>, idOf: T -> string, id: string): (r: seq<T>)
    ensures |r| <= |s|
    ensures forall x :: x in r <==> x in s && idOf(x) != id
  {
    Filter(s, x => idOf(x) != id)
  }

  /** Deleting keeps the survivors in order: it acts on each part of a list separately. */
  lemma RemoveByIdKeepsOrder<T(!new)>(a: seq<T>, b: seq<T>, idOf: T -> string, id: string)
    ensures RemoveById(a + b, idOf, id) == RemoveById(a, idOf, id) + RemoveById(b, idOf, id)
  {
    FilterConcat(a, b, x => idOf(x) != id);
  }

  /** Deleting an id no record has changes nothing. */
  lemma RemoveAbsentId<T(!new)>(s: seq<T>, idOf: T -> string, id: string)
    requires forall x :: x in s ==> idOf(x) != id
    ensures RemoveById(s, idOf, id) == s
  {
    FilterKeepsAll(s, x => idOf(x) != id);
  }

  /** `[...s].reverse()`: a reversed copy; the input is left as it was. */
  function Reverse<T>(s: seq<T>): (r: seq<T>)
    ensures |r| == |s|
    ensures forall i :: 0 <= i < |s| ==> r[i] == s[|s| - 1 - i]
  {
    if s == [] then [] else [s[|s| - 1]] + Reverse(s[..|s| - 1])
  }

  /** Reversing twice gives the list back. */
  lemma ReverseReverse<T>(s: seq<T>)
    ensures Reverse(Reverse(s)) == s
  {
    assert forall i :: 0 <= i < |s| ==> Reverse(Reverse(s))[i] == s[i];
  }
}
