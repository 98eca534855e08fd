/** Finite sums over sets. */
module Sums {

  lemma {:induction false} SetShrinks<T>(a: set<T>, b: set<T>)
    requires a <= b
    ensures |a| <= |b|
    decreases a
  {
    if a != {} {
      var x :| x in a;
      SetShrinks(a - {x}, b - {x});
    }
  }

  ghost function Sum<T>(s: set<T>, f: T -> int): int {
    if s == {} then 0 else
      var x :| x in s;
      f(x) + Sum(s - {x}, f)
  }

  // The order of summation does not matter.
  lemma {:induction false} SumRemove<T>(s: set<T>, f: T -> int, x: T)
    requires x in s
    ensures Sum(s, f) == f(x) + Sum(s - {x}, f)
    decreases s
  {
    var y :| y in s && Sum(s, f) == f(y) + Sum(s - {y}, f);
    if y != x {
      SumRemove(s - {y}, f, x);
      SumRemove(s - {x}, f, y);
      assert s - {y} - {x} == s - {x} - {y};
    }
  }

  lemma SumAdd<T>(s: set<T>, f: T -> int, x: T)
    requires x !in s
    ensures Sum(s + {x}, f) == f(x) + Sum(s, f)
  {
    SumRemove(s + {x}, f, x);
    assert s + {x} - {x} == s;
  }

  lemma SumSame<T>(s: set<T>, f: T -> int, g: T -> int)
    requires forall x :: x in s ==> f(x) == g(x)
    ensures Sum(s, f) == Sum(s, g)
  {
  }

  lemma {:induction false} SumZero<T>(s: set<T>, f: T -> int)
    requires forall x :: x in s ==> f(x) == 0
    ensures Sum(s, f) == 0
    decreases s
  {
    if s != {} {
      var x :| x in s;
      SumRemove(s, f, x);
      SumZero(s - {x}, f);
    }
  }

  // A larger set whose extra members count nothing or more.
  lemma {:induction false} SumSubset<T>(s: set<T>, t: set<T>, f: T -> int)
    requires forall x :: x in s - t ==> f(x) == 0
    requires forall x :: x in t ==> f(x) >= 0
    ensures Sum(s, f) <= Sum(t, f)
    decreases s + t
  {
    if s != {} {
      var x :| x in s;
      SumRemove(s, f, x);
      if x in t {
        SumRemove(t, f, x);
        assert s - {x} + (t - {x}) < s + t;
        SumSubset(s - {x}, t - {x}, f);
      } else {
        assert x in s + t && x !in s - {x} + t;
        SumSubset(s - {x}, t, f);
      }
    } else if t != {} {
      var x :| x in t;
      SumRemove(t, f, x);
      SumSubset(s, t - {x}, f);
    }
  }

  // One member is at most the whole.
  lemma SumMember<T>(s: set<T>, f: T -> int, x: T)
    requires x in s
    requires forall y :: y in s ==> f(y) >= 0
    ensures f(x) <= Sum(s, f)
  {
    SumRemove(s, f, x);
    SumSubset({}, s - {x}, f);
  }

  // One member grows, the others stay.
  lemma SumGrows<T>(s: set<T>, f: T -> int, g: T -> int, x: T, size: int)
    requires x in s && g(x) == f(x) + size
    requires forall y :: y in s && y != x ==> g(y) == f(y)
    ensures Sum(s, g) == Sum(s, f) + size
  {
    SumRemove(s, f, x);
    SumRemove(s, g, x);
    SumSame(s - {x}, f, g);
  }

  ghost function SumSeq<T>(xs: seq<T>, f: T -> int): int {
    if xs == [] then 0 else SumSeq(xs[..|xs| - 1], f) + f(xs[|xs| - 1])
  }

  ghost function SetOf<T>(xs: seq<T>): set<T> {
    if xs == [] then {} else SetOf(xs[..|xs| - 1]) + {xs[|xs| - 1]}
  }

  lemma {:induction false} InSetOf<T>(xs: seq<T>, x: T)
    ensures x in SetOf(xs) <==> x in xs
  {
    if xs != [] {
      InSetOf(xs[..|xs| - 1], x);
      assert xs == xs[..|xs| - 1] + [xs[|xs| - 1]];
    }
  }

  // Adding up the distinct members of a list is summing over their set.
  lemma {:induction false} SumSeqIsSum<T>(xs: seq<T>, f: T -> int)
    requires forall i, j :: 0 <= i < j < |xs| ==> xs[i] != xs[j]
    ensures SumSeq(xs, f) == Sum(SetOf(xs), f)
  {
    if xs != [] {
      var last := |xs| - 1;
      SumSeqIsSum(xs[..last], f);
      InSetOf(xs[..last], xs[last]);
      SumAdd(SetOf(xs[..last]), f, xs[last]);
    }
  }
}
