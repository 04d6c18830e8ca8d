/** Rearranging the board: the chain's `mov` over a list of indexes, and the list the client builds
    while the player moves emos one place at a time. */
module Moves {
  import opened Types

  function Swap<T>(s: seq<T>, i: nat, j: nat): seq<T>
    requires i < |s| && j < |s|
  {
    s[i := s[j]][j := s[i]]
  }

  function IndexOf(s: seq<nat>, n: nat): (r: Option<nat>)
    ensures r.Some? <==> n in s
    ensures r.Some? ==> r.value < |s| && s[r.value] == n
  {
    if s == [] then None
    else if s[0] == n then Some(0)
    else
      var i :- IndexOf(s[1..], n);
      Some(i + 1)
  }

  function Identity(n: nat): seq<nat> { seq<nat>(n, i requires 0 <= i < n => i) }

  /** For each place in turn, finds where the wanted emo now is and swaps it in. */
  function MovFrom<T>(s: seq<T>, current: seq<nat>, wanted: seq<nat>, i: nat): Option<seq<T>>
    requires |s| == |current| == |wanted| && i <= |wanted|
    decreases |wanted| - i
  {
    if i == |wanted| then Some(s)
    else
      var j :- IndexOf(current, wanted[i]);
      MovFrom(Swap(s, i, j), Swap(current, i, j), wanted, i + 1)
  }

  function Mov<T>(s: seq<T>, wanted: seq<nat>): Option<seq<T>> {
    if |s| != |wanted| then None else MovFrom(s, Identity(|s|), wanted, 0)
  }

  lemma SwapKeeps<T>(s: seq<T>, i: nat, j: nat)
    requires i < |s| && j < |s|
    ensures multiset(Swap(s, i, j)) == multiset(s)
    ensures |Swap(s, i, j)| == |s|
    ensures forall x :: x in Swap(s, i, j) <==> x in s
  {
    assert forall x :: x in s <==> multiset(s)[x] > 0;
  }

  lemma {:induction false} MovFromRearranges<T>(s: seq<T>, current: seq<nat>, wanted: seq<nat>, i: nat)
    requires |s| == |current| == |wanted| && i <= |wanted|
    ensures var r := MovFrom(s, current, wanted, i);
            r.Some? ==> multiset(r.value) == multiset(s) && |r.value| == |s|
    decreases |wanted| - i
  {
    if i < |wanted| && wanted[i] in current {
      var j := IndexOf(current, wanted[i]).value;
      SwapKeeps(s, i, j);
      MovFromRearranges(Swap(s, i, j), Swap(current, i, j), wanted, i + 1);
    }
  }

  lemma {:induction false} MovFromAccepts<T>(s: seq<T>, current: seq<nat>, wanted: seq<nat>, i: nat)
    requires |s| == |current| == |wanted| && i <= |wanted|
    ensures MovFrom(s, current, wanted, i).Some? <==> forall k :: i <= k < |wanted| ==> wanted[k] in current
    decreases |wanted| - i
  {
    if i < |wanted| && wanted[i] in current {
      var j := IndexOf(current, wanted[i]).value;
      SwapKeeps(current, i, j);
      MovFromAccepts(Swap(s, i, j), Swap(current, i, j), wanted, i + 1);
    }
  }

  /** Whatever indexes it accepts, repeated ones included, `mov` only rearranges;
      it accepts exactly the lists of valid indexes of the board's length. */
  lemma MovRearranges<T>(s: seq<T>, wanted: seq<nat>)
    ensures var r := Mov(s, wanted); r.Some? ==> multiset(r.value) == multiset(s) && |r.value| == |s|
    ensures Mov(s, wanted).Some? <==> |wanted| == |s| && forall k :: 0 <= k < |wanted| ==> wanted[k] < |s|
  {
    if |s| == |wanted| {
      var id := Identity(|s|);
      forall k: nat ensures k in id <==> k < |s| {
        assert k < |s| ==> id[k] == k;
      }
      MovFromRearranges(s, id, wanted, 0);
      MovFromAccepts(s, id, wanted, 0);
    }
  }

  ghost predicate IsPermutation(p: seq<nat>) {
    && (forall k :: 0 <= k < |p| ==> p[k] < |p|)
    && (forall k, l :: 0 <= k < l < |p| ==> p[k] != p[l])
  }

  function Pick<T>(s: seq<T>, p: seq<nat>): seq<T>
    requires |p| == |s| && forall k :: 0 <= k < |p| ==> p[k] < |s|
  {
    seq(|p|, k requires 0 <= k < |p| => s[p[k]])
  }

  /** One more place holds what is wanted there. */
  lemma SwapPicks<T>(start: seq<T>, s: seq<T>, current: seq<nat>, wanted: seq<nat>, i: nat, j: nat)
    requires |start| == |s| == |wanted| == |current| && i < |wanted| && j < |wanted|
    requires IsPermutation(wanted) && IsPermutation(current) && s == Pick(start, current)
    requires (forall k :: 0 <= k < i ==> current[k] == wanted[k]) && current[j] == wanted[i]
    ensures var current' := Swap(current, i, j);
            && IsPermutation(current') && Swap(s, i, j) == Pick(start, current')
            && forall k :: 0 <= k <= i ==> current'[k] == wanted[k]
  {
  }

  lemma {:induction false} MovFromPicks<T>(start: seq<T>, s: seq<T>, current: seq<nat>, wanted: seq<nat>, i: nat)
    requires |start| == |s| == |wanted| == |current| && i <= |wanted|
    requires IsPermutation(wanted) && IsPermutation(current) && s == Pick(start, current)
    requires forall k :: 0 <= k < i ==> current[k] == wanted[k]
    requires forall k :: 0 <= k < |wanted| ==> wanted[k] in current
    ensures MovFrom(s, current, wanted, i) == Some(Pick(start, wanted))
    decreases |wanted| - i
  {
    if i < |wanted| {
      var j := IndexOf(current, wanted[i]).value;
      SwapPicks(start, s, current, wanted, i, j);
      SwapKeeps(current, i, j);
      SwapKeeps(s, i, j);
      hide Swap;
      hide IndexOf;
      MovFromPicks(start, Swap(s, i, j), Swap(current, i, j), wanted, i + 1);
    } else {
      assert current == wanted;
    }
  }

  /** For a true permutation the emo at place k of the result is the one from place p[k]. */
  lemma MovOfPermutation<T>(s: seq<T>, p: seq<nat>)
    requires IsPermutation(p) && |p| == |s|
    ensures Mov(s, p) == Some(Pick(s, p))
  {
    var id := Identity(|s|);
    assert Pick(s, id) == s;
    forall k | 0 <= k < |p| ensures p[k] in id {
      assert id[p[k]] == p[k];
    }
    MovFromPicks(s, s, id, p, 0);
  }

  ghost predicate PairwiseDifferent<T>(s: seq<T>) { forall k, l :: 0 <= k < l < |s| ==> s[k] != s[l] }

  lemma {:induction false} OnlyOnce<T>(s: seq<T>, x: T)
    requires PairwiseDifferent(s)
    ensures multiset(s)[x] <= 1
  {
    if s != [] {
      OnlyOnce(s[1..], x);
      assert s == [s[0]] + s[1..];
      assert x == s[0] ==> x !in s[1..];
    }
  }

  lemma TwiceIn<T>(s: seq<T>, k: nat, l: nat)
    requires k < l < |s| && s[k] == s[l]
    ensures multiset(s)[s[k]] >= 2
  {
    assert s == s[..l] + s[l..] && s[..l][k] == s[k] && s[l..][0] == s[k];
  }

  /** On a board of pairwise different emos `mov` takes the emo of place p[k] to place k, for every k, exactly when p
      repeats no index. */
  lemma MovPicksIffPermutation<T>(s: seq<T>, p: seq<nat>)
    requires PairwiseDifferent(s) && |p| == |s| && forall k :: 0 <= k < |p| ==> p[k] < |s|
    ensures Mov(s, p) == Some(Pick(s, p)) <==> IsPermutation(p)
  {
    if IsPermutation(p) {
      MovOfPermutation(s, p);
    } else if Mov(s, p) == Some(Pick(s, p)) {
      MovRearranges(s, p);
      var k, l :| 0 <= k < l < |p| && p[k] == p[l];
      TwiceIn(Pick(s, p), k, l);
      OnlyOnce(s, s[p[k]]);
    }
  }

  /** `moveArrayElement`: take the element out, put it back at `to`. */
  function Splice<T>(s: seq<T>, from: nat, to: nat): seq<T>
    requires from < |s| && to < |s|
  {
    var rest := s[..from] + s[from + 1..];
    rest[..to] + [s[from]] + rest[to..]
  }

  lemma AdjacentSpliceIsSwap<T>(s: seq<T>, from: nat, to: nat)
    requires from < |s| && to < |s| && (to == from + 1 || from == to + 1)
    ensures Splice(s, from, to) == Swap(s, from, to)
  {
    var rest := s[..from] + s[from + 1..];
    assert forall k :: 0 <= k < |s| ==> Splice(s, from, to)[k] == Swap(s, from, to)[k];
  }

  /** Composing one more adjacent move into the list is doing that move after the list. */
  lemma OneMoreMove<T>(s: seq<T>, p: seq<nat>, from: nat, to: nat)
    requires IsPermutation(p) && |p| == |s|
    requires from < |s| && to < |s| && (to == from + 1 || from == to + 1)
    ensures IsPermutation(Splice(p, from, to)) && |Splice(p, from, to)| == |s|
    ensures Mov(s, Splice(p, from, to)) == Some(Swap(Pick(s, p), from, to))
  {
    AdjacentSpliceIsSwap(p, from, to);
    var p' := Swap(p, from, to);
    assert IsPermutation(p');
    MovOfPermutation(s, p');
    assert Pick(s, p') == Swap(Pick(s, p), from, to);
  }

  lemma IdentityIsPermutation(n: nat)
    ensures IsPermutation(Identity(n))
  {
  }
}
