/** Random picks. The generator is a tape of naturals that the run consumes; a result
    proved for every tape holds for every legal choice the generator could make. */
module Rng {
  import opened Types

  type Tape = seq<nat>

  function Peek(tape: Tape): nat { if tape == [] then 0 else tape[0] }

  /** The tape once `n` picks are made. */
  function After(tape: Tape, n: nat): Tape { if |tape| <= n then [] else tape[n..] }

  function Choice(tape: Tape, n: nat): (i: nat)
    requires n > 0
    ensures i < n
  {
    Peek(tape) % n
  }

  lemma ChoiceIs(k: nat, n: nat)
    requires k < n
    ensures Choice([k], n) == k
  {
  }

  /** Up to `k` elements of `s`, no position twice, in any order: `choose`, `choose_multiple`, `shuffle`. */
  function Draw<T>(s: seq<T>, k: nat, tape: Tape): (r: seq<T>)
    ensures |r| == Min(k, |s|)
    decreases k
  {
    if k == 0 || s == [] then []
    else
      var i := Choice(tape, |s|);
      [s[i]] + Draw(s[..i] + s[i + 1..], k - 1, After(tape, 1))
  }

  function Shuffle<T>(s: seq<T>, tape: Tape): seq<T> { Draw(s, |s|, tape) }

  lemma TakeOut<T>(s: seq<T>, i: nat)
    requires i < |s|
    ensures multiset(s) == multiset(s[..i] + s[i + 1..]) + multiset{s[i]}
  {
    assert s == s[..i] + ([s[i]] + s[i + 1..]);
  }

  lemma PutBack<T>(s: seq<T>, i: nat, rest: seq<T>)
    requires i < |s| && multiset(rest) <= multiset(s[..i] + s[i + 1..])
    ensures multiset([s[i]] + rest) <= multiset(s)
  {
    TakeOut(s, i);
    assert multiset([s[i]] + rest) == multiset{s[i]} + multiset(rest);
  }

  /** A draw repeats no position. */
  lemma {:induction false} DrawIsSelection<T>(s: seq<T>, k: nat, tape: Tape)
    ensures multiset(Draw(s, k, tape)) <= multiset(s)
    decreases k
  {
    hide Choice;
    if k != 0 && s != [] {
      var i := Choice(tape, |s|);
      DrawIsSelection(s[..i] + s[i + 1..], k - 1, After(tape, 1));
      PutBack(s, i, Draw(s[..i] + s[i + 1..], k - 1, After(tape, 1)));
    }
  }

  lemma ShuffleIsPermutation<T>(s: seq<T>, tape: Tape)
    ensures multiset(Shuffle(s, tape)) == multiset(s)
  {
    DrawIsSelection(s, |s|, tape);
    SameSize(multiset(Shuffle(s, tape)), multiset(s));
  }

  lemma SameSize<T>(a: multiset<T>, b: multiset<T>)
    requires a <= b && |a| == |b|
    ensures a == b
  {
    assert b == a + (b - a);
    assert |b - a| == 0;
  }

  lemma RestFits<T>(s: seq<T>, r: seq<T>, i: nat)
    requires multiset(r) <= multiset(s)
    requires r != [] && i < |s| && s[i] == r[0]
    ensures multiset(r[1..]) <= multiset(s[..i] + s[i + 1..])
  {
    var rest := s[..i] + s[i + 1..];
    assert r == [r[0]] + r[1..];
    assert multiset(r) == multiset{r[0]} + multiset(r[1..]);
    TakeOut(s, i);
    forall x ensures multiset(r[1..])[x] <= multiset(rest)[x] {
      assert multiset(r)[x] == multiset(r[1..])[x] + multiset{r[0]}[x];
      assert multiset(s)[x] == multiset(rest)[x] + multiset{r[0]}[x];
    }
  }

  lemma DrawFirst<T>(s: seq<T>, k: nat, i: nat, tape: Tape)
    requires i < |s| && k > 0
    ensures Draw(s, k, [i] + tape) == [s[i]] + Draw(s[..i] + s[i + 1..], k - 1, tape)
  {
    assert After([i] + tape, 1) == tape;
    assert Choice([i] + tape, |s|) == i;
  }

  /** The tape loses nothing: any selection without repetition is what some tape draws. */
  lemma {:induction false} EverySelectionIsDrawn<T>(s: seq<T>, r: seq<T>) returns (tape: Tape)
    requires multiset(r) <= multiset(s)
    ensures Draw(s, |r|, tape) == r
    decreases |r|
  {
    if r == [] {
      tape := [];
    } else {
      assert r[0] in multiset(r) && r[0] in multiset(s);
      var i :| 0 <= i < |s| && s[i] == r[0];
      RestFits(s, r, i);
      var rest := EverySelectionIsDrawn(s[..i] + s[i + 1..], r[1..]);
      tape := [i] + rest;
      DrawFirst(s, |r|, i, rest);
    }
  }
}
