/** Sorting by a comparison, and the order of strings. */
module Sorting {

  // Unordered pairs are interchangeable, and less is transitive.
  ghost predicate WeakOrder<T(!new)>(less: (T, T) -> bool) {
    && (forall a, b :: less(a, b) ==> !less(b, a))
    && (forall a, b, c :: !less(b, a) && !less(c, b) ==> !less(c, a))
  }

  ghost predicate Sorted<T(!new)>(xs: seq<T>, less: (T, T) -> bool) {
    forall i, j :: 0 <= i < j < |xs| ==> !less(xs[j], xs[i])
  }

  method Sort<T(!new)>(xs: seq<T>, less: (T, T) -> bool) returns (sorted: seq<T>)
    requires WeakOrder(less)
    ensures multiset(sorted) == multiset(xs) && Sorted(sorted, less)
  {
    sorted := [];
    for i := 0 to |xs|
      invariant multiset(sorted) == multiset(xs[..i]) && Sorted(sorted, less)
    {
      assert xs[..i + 1] == xs[..i] + [xs[i]];
      sorted := Insert(sorted, xs[i], less);
    }
    assert xs[..|xs|] == xs;
  }

  method Insert<T(!new)>(xs: seq<T>, x: T, less: (T, T) -> bool) returns (ys: seq<T>)
    requires WeakOrder(less) && Sorted(xs, less)
    ensures multiset(ys) == multiset(xs) + multiset{x} && Sorted(ys, less)
  {
    var at := |xs|;
    while at > 0 && less(x, xs[at - 1])
      invariant 0 <= at <= |xs| && forall i :: at <= i < |xs| ==> less(x, xs[i])
    {
      at := at - 1;
    }
    InsertSorted(xs, x, at, less);
    ys := xs[..at] + [x] + xs[at..];
    assert xs == xs[..at] + xs[at..];
  }

  lemma InsertSorted<T(!new)>(xs: seq<T>, x: T, at: nat, less: (T, T) -> bool)
    requires WeakOrder(less) && Sorted(xs, less) && at <= |xs|
    requires (forall i :: at <= i < |xs| ==> less(x, xs[i])) && (at > 0 ==> !less(x, xs[at - 1]))
    ensures Sorted(xs[..at] + [x] + xs[at..], less)
  {
  }

  // Strings compare by their first different character; a prefix comes first.
  predicate Before(a: string, b: string) {
    if b == "" then false
    else if a == "" then true
    else a[0] < b[0] || (a[0] == b[0] && Before(a[1..], b[1..]))
  }

  lemma {:induction false} BeforeOrders(a: string, b: string, c: string)
    ensures Before(a, b) ==> !Before(b, a)
    ensures !Before(b, a) && !Before(c, b) ==> !Before(c, a)
    ensures !Before(a, b) && !Before(b, a) ==> a == b
    decreases |a| + |b| + |c|
  {
    if a != "" && b != "" && c != "" {
      BeforeOrders(a[1..], b[1..], c[1..]);
      assert a == [a[0]] + a[1..] && b == [b[0]] + b[1..];
    } else if a != "" && b != "" {
      BeforeOrders(a[1..], b[1..], c);
      assert a == [a[0]] + a[1..] && b == [b[0]] + b[1..];
    }
  }

  // They share a beginning after which the first one ends or goes on with the smaller character.
  ghost predicate Precedes(a: string, b: string) { exists k: nat :: SplitAt(a, b, k) }

  predicate SplitAt(a: string, b: string, k: nat) {
    k <= |a| && k < |b| && a[..k] == b[..k] && (k == |a| || a[k] < b[k])
  }

  lemma {:induction false} BeforeIsLexical(a: string, b: string)
    ensures Before(a, b) <==> Precedes(a, b)
  {
    if a == "" && b != "" {
      assert SplitAt(a, b, 0);
    } else if a != "" && b != "" {
      BeforeIsLexical(a[1..], b[1..]);
      if a[0] < b[0] {
        assert SplitAt(a, b, 0);
      }
      if a[0] == b[0] && Precedes(a[1..], b[1..]) {
        var k: nat :| SplitAt(a[1..], b[1..], k);
        assert a[..k + 1] == [a[0]] + a[1..][..k] && b[..k + 1] == [b[0]] + b[1..][..k];
        assert SplitAt(a, b, k + 1);
      }
      if Precedes(a, b) {
        var k: nat :| SplitAt(a, b, k);
        if k > 0 {
          assert a[..k][0] == b[..k][0];
          assert a[1..][..k - 1] == a[..k][1..] && b[1..][..k - 1] == b[..k][1..];
          assert SplitAt(a[1..], b[1..], k - 1);
        }
      }
    }
  }
}
