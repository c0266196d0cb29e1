/** The stable sort that JavaScript's `Array.prototype.sort` performs on a rank comparator. */
module Sorting {

  /** An item's rank and its place in creation (or submission) order. */
  datatype Ranked = Ranked(rank: int, id: nat)

  predicate Before(a: Ranked, b: Ranked) {
    a.rank < b.rank || (a.rank == b.rank && a.id < b.id)
  }

  ghost predicate InOrder(s: seq<Ranked>) {
    forall i, j :: 0 <= i < j < |s| ==> Before(s[i], s[j])
  }

  ghost predicate Ascending(s: seq<Ranked>) {
    forall i, j :: 0 <= i < j < |s| ==> s[i].id < s[j].id
  }

  // The comparator looks at ranks only; an earlier item goes before its equals.
  function Insert(x: Ranked, ys: seq<Ranked>): seq<Ranked> {
    if ys == [] || x.rank <= ys[0].rank then [x] + ys else [ys[0]] + Insert(x, ys[1..])
  }

  function StableSort(xs: seq<Ranked>): seq<Ranked> {
    if xs == [] then [] else Insert(xs[0], StableSort(xs[1..]))
  }

  lemma {:induction false} InsertKeepsItems(x: Ranked, ys: seq<Ranked>)
    ensures multiset(Insert(x, ys)) == multiset{x} + multiset(ys)
  {
    if ys == [] || x.rank <= ys[0].rank {
    } else {
      InsertKeepsItems(x, ys[1..]);
      assert ys == [ys[0]] + ys[1..];
    }
  }

  lemma {:induction false} InsertKeepsOrder(x: Ranked, ys: seq<Ranked>)
    requires InOrder(ys) && forall y :: y in ys ==> x.id < y.id
    ensures InOrder(Insert(x, ys))
  {
    if ys != [] && x.rank > ys[0].rank {
      var rest := Insert(x, ys[1..]);
      InsertKeepsOrder(x, ys[1..]);
      InsertKeepsItems(x, ys[1..]);
      forall y | y in rest ensures Before(ys[0], y) {
        assert y in multiset(rest);
        if y != x {
          assert y in multiset(ys[1..]);
        }
      }
    }
  }

  /** Items submitted in ascending order come out by rank and, within a rank, in submission order. */
  lemma {:induction false} StableSortSorts(xs: seq<Ranked>)
    requires Ascending(xs)
    ensures multiset(StableSort(xs)) == multiset(xs)
    ensures InOrder(StableSort(xs))
  {
    if xs != [] {
      var rest := StableSort(xs[1..]);
      StableSortSorts(xs[1..]);
      InsertKeepsItems(xs[0], rest);
      assert xs == [xs[0]] + xs[1..];
      forall y | y in rest ensures xs[0].id < y.id {
        assert y in multiset(xs[1..]);
      }
      InsertKeepsOrder(xs[0], rest);
    }
  }

  /** Rank and submission order leave no choice: any arrangement in that order is the sorted one. */
  lemma {:induction false} OnlyOneOrder(a: seq<Ranked>, b: seq<Ranked>)
    requires InOrder(a) && InOrder(b) && multiset(a) == multiset(b)
    ensures a == b
  {
    assert |a| == |multiset(a)| == |b|;
    if a != [] {
      assert a[0] in multiset(b) && b[0] in multiset(a);
      assert a[0] == b[0];
      assert a == [a[0]] + a[1..] && b == [b[0]] + b[1..];
      assert multiset(a[1..]) == multiset(a) - multiset{a[0]};
      OnlyOneOrder(a[1..], b[1..]);
    }
  }
}
