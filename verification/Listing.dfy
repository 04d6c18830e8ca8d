/** What some items of some lists stand for, collected list by list and item by item. */
module Listing {
  import opened Types

  /** The list and the place in it. */
  type Place = (nat, nat)

  ghost predicate Before(x: Place, y: Place) { x.0 < y.0 || (x.0 == y.0 && x.1 < y.1) }

  ghost predicate Ascending(at: seq<Place>) { forall a, b :: 0 <= a < b < |at| ==> Before(at[a], at[b]) }

  ghost predicate Inside<A>(lists: seq<seq<A>>, x: Place) { x.0 < |lists| && x.1 < |lists[x.0]| }

  /** Each of `result` stands for the item at its place: all items that `f` picks, in their order. */
  ghost predicate StandsFor<A, B>(result: seq<B>, lists: seq<seq<A>>, f: (nat, A) -> Option<B>, at: seq<Place>) {
    && Ascending(at) && |at| == |result|
    && (forall n :: 0 <= n < |at| ==> Inside(lists, at[n]) && f(at[n].0, lists[at[n].0][at[n].1]) == Some(result[n]))
    && (forall j, k :: 0 <= j < |lists| && 0 <= k < |lists[j]| && f(j, lists[j][k]).Some? ==> (j, k) in at)
  }

  /** `result` has one element for each item that `f` picks, left to right, and nothing else. */
  ghost predicate Collects<A, B>(result: seq<B>, lists: seq<seq<A>>, f: (nat, A) -> Option<B>) {
    exists at :: StandsFor(result, lists, f, at)
  }

  lemma NotLater(a: seq<Place>, b: seq<Place>, n: nat)
    requires Ascending(a) && Ascending(b) && forall x :: x in a ==> x in b
    requires n < |a| && n <= |b| && forall i :: 0 <= i < n ==> a[i] == b[i]
    ensures n < |b| && !Before(a[n], b[n])
  {
    assert a[n] in b;
    var m :| 0 <= m < |b| && b[m] == a[n];
    assert forall i :: 0 <= i < n ==> Before(b[i], a[n]);
    assert m > n ==> Before(b[n], b[m]);
  }

  lemma {:induction false} SamePlaces(a: seq<Place>, b: seq<Place>, n: nat)
    requires Ascending(a) && Ascending(b) && forall x :: x in a <==> x in b
    requires n <= |a| && n <= |b| && forall i :: 0 <= i < n ==> a[i] == b[i]
    ensures a == b
    decreases |a| - n
  {
    if n < |a| {
      NotLater(a, b, n);
      NotLater(b, a, n);
      SamePlaces(a, b, n + 1);
    } else if n < |b| {
      NotLater(b, a, n);
    }
  }

  /** There is no other such list. */
  lemma CollectedOnce<A, B>(r1: seq<B>, r2: seq<B>, lists: seq<seq<A>>, f: (nat, A) -> Option<B>)
    requires Collects(r1, lists, f) && Collects(r2, lists, f)
    ensures r1 == r2
  {
    var a: seq<Place> :| StandsFor(r1, lists, f, a);
    var b: seq<Place> :| StandsFor(r2, lists, f, b);
    SameItems(r1, r2, lists, f, a, b);
    SameItems(r2, r1, lists, f, b, a);
    SamePlaces(a, b, 0);
    forall n | 0 <= n < |r1| ensures r1[n] == r2[n] {
      assert f(a[n].0, lists[a[n].0][a[n].1]) == Some(r1[n]);
    }
  }

  lemma SameItems<A, B>(r1: seq<B>, r2: seq<B>, lists: seq<seq<A>>, f: (nat, A) -> Option<B>, a: seq<Place>, b: seq<Place>)
    requires StandsFor(r1, lists, f, a) && StandsFor(r2, lists, f, b)
    ensures forall x :: x in a ==> x in b
  {
    forall x | x in a ensures x in b {
      var n :| 0 <= n < |a| && a[n] == x;
      assert (x.0, x.1) == x && f(x.0, lists[x.0][x.1]).Some?;
    }
  }

  // ----- collecting -----

  /** From the item at `k` on. */
  function Row<A, B>(items: seq<A>, k: nat, j: nat, f: (nat, A) -> Option<B>): seq<B>
    requires k <= |items|
    decreases |items| - k
  {
    if k == |items| then []
    else
      var first: Option<B> := f(j, items[k]);
      (if first.Some? then [first.value] else []) + Row(items, k + 1, j, f)
  }

  /** From the list at `j` on. */
  function Collect<A, B>(lists: seq<seq<A>>, j: nat, f: (nat, A) -> Option<B>): seq<B>
    requires j <= |lists|
    decreases |lists| - j
  {
    if j == |lists| then [] else Row(lists[j], 0, j, f) + Collect(lists, j + 1, f)
  }

  /** What `StandsFor` says of the items from the place `x` on, in the lists before `last` alone. */
  ghost predicate StandsFrom<A, B>(result: seq<B>, lists: seq<seq<A>>, f: (nat, A) -> Option<B>, x: Place, last: nat, at: seq<Place>) {
    && Ascending(at) && |at| == |result|
    && (forall n :: 0 <= n < |at| ==> Inside(lists, at[n]) && f(at[n].0, lists[at[n].0][at[n].1]) == Some(result[n]))
    && (forall n :: 0 <= n < |at| ==> !Before(at[n], x) && at[n].0 < last)
    && Complete(lists, f, x, last, at)
  }

  ghost predicate Complete<A, B>(lists: seq<seq<A>>, f: (nat, A) -> Option<B>, x: Place, last: nat, at: seq<Place>) {
    forall j, k :: 0 <= j < last && j < |lists| && 0 <= k < |lists[j]| && !Before((j, k), x) && f(j, lists[j][k]).Some? ==> (j, k) in at
  }

  lemma OneMoreComplete<A, B>(lists: seq<seq<A>>, f: (nat, A) -> Option<B>, j: nat, k: nat, at: seq<Place>)
    requires j < |lists| && k < |lists[j]| && Complete(lists, f, (j, k + 1), j + 1, at)
    ensures Complete(lists, f, (j, k), j + 1, [(j, k)] + at)
    ensures f(j, lists[j][k]).None? ==> Complete(lists, f, (j, k), j + 1, at)
  {
    forall i, m | 0 <= i < j + 1 && 0 <= m < |lists[i]| && !Before((i, m), (j, k)) && f(i, lists[i][m]).Some?
      ensures (i, m) == (j, k) || (i, m) in at
    {
      assert i == j && (m == k || !Before((i, m), (j, k + 1)));
    }
  }

  lemma AscendingMore(x: Place, at: seq<Place>)
    requires Ascending(at) && forall n :: 0 <= n < |at| ==> Before(x, at[n])
    ensures Ascending([x] + at)
  {
    hide Before;
    assert forall n :: 1 <= n < |at| + 1 ==> ([x] + at)[n] == at[n - 1];
  }

  lemma LaterInRow(j: nat, k: nat, at: seq<Place>)
    requires forall n :: 0 <= n < |at| ==> !Before(at[n], (j, k + 1))
    ensures forall n :: 0 <= n < |at| ==> Before((j, k), at[n]) && !Before(at[n], (j, k))
  {
  }

  lemma OneMorePicked<A, B>(lists: seq<seq<A>>, f: (nat, A) -> Option<B>, j: nat, k: nat, rest: seq<B>, at: seq<Place>, first: B)
    requires j < |lists| && k < |lists[j]| && StandsFrom(rest, lists, f, (j, k + 1), j + 1, at) && f(j, lists[j][k]) == Some(first)
    ensures StandsFrom([first] + rest, lists, f, (j, k), j + 1, [(j, k)] + at)
  {
    OneMoreComplete(lists, f, j, k, at);
    LaterInRow(j, k, at);
    AscendingMore((j, k), at);
    hide Complete;
    hide Ascending;
    assert !Before((j, k), (j, k));
    hide Before;
    var all, results := [(j, k)] + at, [first] + rest;
    forall n | 0 <= n < |all|
      ensures Inside(lists, all[n]) && f(all[n].0, lists[all[n].0][all[n].1]) == Some(results[n])
      ensures !Before(all[n], (j, k)) && all[n].0 < j + 1
    {
      if n > 0 {
        assert all[n] == at[n - 1] && results[n] == rest[n - 1];
      }
    }
  }

  lemma OneMoreSkipped<A, B>(lists: seq<seq<A>>, f: (nat, A) -> Option<B>, j: nat, k: nat, rest: seq<B>, at: seq<Place>)
    requires j < |lists| && k < |lists[j]| && StandsFrom(rest, lists, f, (j, k + 1), j + 1, at) && f(j, lists[j][k]).None?
    ensures StandsFrom(rest, lists, f, (j, k), j + 1, at)
  {
    OneMoreComplete(lists, f, j, k, at);
    hide Complete;
  }

  lemma OneMore<A, B>(lists: seq<seq<A>>, f: (nat, A) -> Option<B>, j: nat, k: nat, rest: seq<B>, at: seq<Place>)
    returns (all: seq<Place>)
    requires j < |lists| && k < |lists[j]| && StandsFrom(rest, lists, f, (j, k + 1), j + 1, at)
    ensures var first := f(j, lists[j][k]);
            StandsFrom(if first.Some? then [first.value] + rest else rest, lists, f, (j, k), j + 1, all)
  {
    hide StandsFrom;
    var first := f(j, lists[j][k]);
    if first.Some? {
      OneMorePicked(lists, f, j, k, rest, at, first.value);
      all := [(j, k)] + at;
    } else {
      OneMoreSkipped(lists, f, j, k, rest, at);
      all := at;
    }
  }

  lemma {:induction false} RowIs<A, B>(lists: seq<seq<A>>, f: (nat, A) -> Option<B>, j: nat, k: nat) returns (at: seq<Place>)
    requires j < |lists| && k <= |lists[j]|
    ensures StandsFrom(Row(lists[j], k, j, f), lists, f, (j, k), j + 1, at)
    decreases |lists[j]| - k
  {
    if k == |lists[j]| {
      at := [];
    } else {
      var rest := RowIs(lists, f, j, k + 1);
      hide StandsFrom;
      at := OneMore(lists, f, j, k, Row(lists[j], k + 1, j, f), rest);
      assert [] + Row(lists[j], k + 1, j, f) == Row(lists[j], k + 1, j, f);
    }
  }

  lemma Joined<A, B>(lists: seq<seq<A>>, f: (nat, A) -> Option<B>, j: nat, row: seq<B>, here: seq<Place>, rest: seq<B>, later: seq<Place>)
    requires j < |lists| && StandsFrom(row, lists, f, (j, 0), j + 1, here) && StandsFrom(rest, lists, f, (j + 1, 0), |lists|, later)
    ensures StandsFrom(row + rest, lists, f, (j, 0), |lists|, here + later)
  {
    forall i, m | 0 <= i < |lists| && 0 <= m < |lists[i]| && !Before((i, m), (j, 0)) && f(i, lists[i][m]).Some?
      ensures (i, m) in here + later
    {
      assert i == j ==> (i, m) in here;
      assert i > j ==> (i, m) in later;
    }
  }

  lemma {:induction false} CollectIs<A, B>(lists: seq<seq<A>>, f: (nat, A) -> Option<B>, j: nat) returns (at: seq<Place>)
    requires j <= |lists|
    ensures StandsFrom(Collect(lists, j, f), lists, f, (j, 0), |lists|, at)
    decreases |lists| - j
  {
    if j == |lists| {
      at := [];
    } else {
      var here := RowIs(lists, f, j, 0);
      var later := CollectIs(lists, f, j + 1);
      hide StandsFrom;
      Joined(lists, f, j, Row(lists[j], 0, j, f), here, Collect(lists, j + 1, f), later);
      at := here + later;
    }
  }

  /** Collecting recursively gives that list. */
  lemma CollectCollects<A, B>(lists: seq<seq<A>>, f: (nat, A) -> Option<B>)
    ensures Collects(Collect(lists, 0, f), lists, f)
  {
    var at := CollectIs(lists, f, 0);
    assert StandsFor(Collect(lists, 0, f), lists, f, at);
  }
}
