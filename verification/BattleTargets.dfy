/** Whom an ability reaches: for every kind of target exactly the emos that it describes. */
module BattleTargets {
  import opened Types
  import opened Rng
  import opened Battle

  /** A standing emo that meets the condition, other than the one that acts unless that one has retired. */
  ghost predicate Eligible(board: seq<Fighter>, i: nat, isRetired: bool, cond: Cond, j: nat) {
    j < |board| && (isRetired || j != i) && MatchedFighter(cond, board[j])
  }

  /** A retired emo has left its place, so its right neighbour now stands there. */
  predicate Reaches(destination: Destination, i: nat, isRetired: bool, j: nat) {
    match destination
    case Left => j + 1 == i
    case Right => j == if isRetired then i else i + 1
    case All => true
  }

  ghost predicate Increasing(indexes: seq<nat>) { forall a, b :: 0 <= a < b < |indexes| ==> indexes[a] < indexes[b] }

  ghost predicate Distinct(indexes: seq<nat>) { forall a, b :: 0 <= a < b < |indexes| ==> indexes[a] != indexes[b] }

  lemma {:induction false} OtherIndexIs(board: seq<Fighter>, from: nat, i: nat, isRetired: bool, cond: Cond, j: nat)
    ensures j in OtherIndexes(board, from, i, isRetired, cond)
       <==> from <= j < from + |board| && (isRetired || j != i) && MatchedFighter(cond, board[j - from])
  {
    if board != [] {
      OtherIndexIs(board[1..], from + 1, i, isRetired, cond, j);
      var head := if (isRetired || from != i) && MatchedFighter(cond, board[0]) then [from] else [];
      assert OtherIndexes(board, from, i, isRetired, cond) == head + OtherIndexes(board[1..], from + 1, i, isRetired, cond);
    }
  }

  lemma Prepended(x: nat, rest: seq<nat>)
    requires Increasing(rest) && (rest != [] ==> x < rest[0])
    ensures Increasing([x] + rest)
  {
    forall a, b | 0 <= a < b < |[x] + rest| ensures ([x] + rest)[a] < ([x] + rest)[b] {
      if a == 0 && b > 1 {
        assert rest[0] < rest[b - 1];
      }
    }
  }

  lemma {:induction false} OthersIncrease(board: seq<Fighter>, from: nat, i: nat, isRetired: bool, cond: Cond)
    ensures var r := OtherIndexes(board, from, i, isRetired, cond); Increasing(r) && (r != [] ==> r[0] >= from)
  {
    hide Increasing;
    if board != [] {
      OthersIncrease(board[1..], from + 1, i, isRetired, cond);
      var rest := OtherIndexes(board[1..], from + 1, i, isRetired, cond);
      Prepended(from, rest);
      assert [] + rest == rest;
    } else {
      EmptyIncreases();
    }
  }

  lemma EmptyIncreases()
    ensures Increasing([])
  {
  }

  lemma OthersAreEligible(board: seq<Fighter>, i: nat, isRetired: bool, cond: Cond)
    ensures forall j: nat :: j in OtherIndexes(board, 0, i, isRetired, cond) <==> Eligible(board, i, isRetired, cond, j)
    ensures Increasing(OtherIndexes(board, 0, i, isRetired, cond))
  {
    hide OtherIndexes;
    hide Increasing;
    OthersIncrease(board, 0, i, isRetired, cond);
    forall j: nat ensures j in OtherIndexes(board, 0, i, isRetired, cond) <==> Eligible(board, i, isRetired, cond, j) {
      OtherIndexIs(board, 0, i, isRetired, cond, j);
    }
  }

  /** The index `j` is meant by the target of an ability that acts from the place `i`. */
  ghost predicate Describes(board: seq<Fighter>, i: nat, isRetired: bool, target: Target, j: nat) {
    match target
    case Oneself => !isRetired && j == i
    case Others(destination, cond) => Eligible(board, i, isRetired, cond, j) && Reaches(destination, i, isRetired, j)
  }

  /** A target reaches exactly the emos that it describes, each once, from left to right; it is an error only for a left
      neighbour beyond the end of the board. */
  lemma TargetsAreExact(board: seq<Fighter>, i: nat, target: Target, isRetired: bool)
    ensures var r := TargetIndexes(board, i, target, isRetired);
            && (r.None? <==> target.Others? && target.destination == Left && i > |board|)
            && (r.Some? ==> Increasing(r.value) && forall j: nat :: j in r.value <==> Describes(board, i, isRetired, target, j))
  {
    hide OtherIndexes;
    if target.Others? {
      OthersAreEligible(board, i, isRetired, target.cond);
    }
  }

  lemma {:induction false} NoIndexTwice(indexes: seq<nat>, j: nat)
    requires Increasing(indexes)
    ensures multiset(indexes)[j] <= 1
  {
    if indexes != [] {
      NoIndexTwice(indexes[1..], j);
      assert indexes == [indexes[0]] + indexes[1..];
      assert j == indexes[0] ==> j !in indexes[1..];
    }
  }

  lemma SelectionIsDistinct(all: seq<nat>, r: seq<nat>)
    requires multiset(r) <= multiset(all) && Increasing(all)
    ensures Distinct(r) && forall j :: j in r ==> j in all
  {
    forall j | j in r ensures j in all {
      assert j in multiset(r) && j in multiset(all);
    }
    forall a, b | 0 <= a < b < |r| ensures r[a] != r[b] {
      NoIndexTwice(all, r[a]);
      var front, back := r[..b], r[b..];
      assert r == front + back && r[a] == front[a] && r[b] == back[0];
      assert multiset(r)[r[a]] == multiset(front)[r[a]] + multiset(back)[r[a]];
      assert r[a] in front && r[b] in back;
    }
  }

  ghost function AllEligible(board: seq<Fighter>, i: nat, isRetired: bool, cond: Cond): set<nat> {
    set j: nat | j < |board| && Eligible(board, i, isRetired, cond, j)
  }

  lemma {:induction false} SizeOfIncreasing(indexes: seq<nat>, all: set<nat>)
    requires Increasing(indexes) && forall j :: j in indexes <==> j in all
    ensures |indexes| == |all|
  {
    if indexes == [] {
      assert all == {};
    } else {
      assert indexes == [indexes[0]] + indexes[1..] && indexes[0] in all;
      assert forall k :: 0 <= k < |indexes[1..]| ==> indexes[1..][k] == indexes[k + 1] > indexes[0];
      SizeOfIncreasing(indexes[1..], all - {indexes[0]});
    }
  }

  /** A random choice takes as many different eligible emos as it may. */
  lemma RandomIsLegal(board: seq<Fighter>, i: nat, cond: Cond, count: U8, isRetired: bool, tape: Tape)
    ensures var r := PickIndexes(board, i, Random(cond, count), isRetired, tape);
            && r.Some? && |r.value.0| == Min(count, |AllEligible(board, i, isRetired, cond)|) && Distinct(r.value.0)
            && forall j: nat :: j in r.value.0 ==> Eligible(board, i, isRetired, cond, j)
  {
    hide OtherIndexes;
    hide Draw;
    hide Increasing;
    hide Distinct;
    var all := OtherIndexes(board, 0, i, isRetired, cond);
    OthersAreEligible(board, i, isRetired, cond);
    SizeOfIncreasing(all, AllEligible(board, i, isRetired, cond));
    DrawIsSelection(all, count, tape);
    SelectionIsDistinct(all, Draw(all, count, tape));
  }

  /** And every such choice can happen: any different eligible emos, in any order, are what some generator picks. */
  lemma EveryChoiceHappens(board: seq<Fighter>, i: nat, cond: Cond, isRetired: bool, wanted: seq<nat>) returns (tape: Tape)
    requires Distinct(wanted) && (forall j :: j in wanted ==> Eligible(board, i, isRetired, cond, j)) && |wanted| <= U8_MAX
    ensures var r := PickIndexes(board, i, Random(cond, |wanted|), isRetired, tape); r.Some? && r.value.0 == wanted
  {
    hide OtherIndexes;
    hide Draw;
    hide Increasing;
    hide Distinct;
    var all := OtherIndexes(board, 0, i, isRetired, cond);
    OthersAreEligible(board, i, isRetired, cond);
    forall j ensures multiset(wanted)[j] <= multiset(all)[j] {
      if j in multiset(wanted) {
        assert j in wanted;
        DistinctOnce(wanted, j);
        assert Eligible(board, i, isRetired, cond, j) && j in all;
        assert j in multiset(all);
      }
    }
    tape := EverySelectionIsDrawn(all, wanted);
  }

  lemma {:induction false} DistinctOnce(indexes: seq<nat>, j: nat)
    requires Distinct(indexes)
    ensures multiset(indexes)[j] <= 1
  {
    if indexes != [] {
      DistinctOnce(indexes[1..], j);
      assert indexes == [indexes[0]] + indexes[1..];
      assert j == indexes[0] ==> j !in indexes[1..];
    }
  }

  lemma {:induction false} WithoutIs(indexes: seq<nat>, board: seq<Fighter>, x: Ability, j: nat)
    requires forall k :: k in indexes ==> k < |board|
    ensures j in Without(indexes, board, x) <==> j in indexes && x !in board[j].attr.abilities
  {
    if indexes != [] {
      assert indexes[0] in indexes && forall k :: k in indexes[1..] ==> k in indexes;
      WithoutIs(indexes[1..], board, x, j);
      assert indexes == [indexes[0]] + indexes[1..];
      var head := if x in board[indexes[0]].attr.abilities then [] else [indexes[0]];
      assert Without(indexes, board, x) == head + Without(indexes[1..], board, x);
    }
  }

  lemma {:induction false} WithoutIncreases(indexes: seq<nat>, board: seq<Fighter>, x: Ability)
    requires Increasing(indexes)
    ensures Increasing(Without(indexes, board, x)) && forall j :: j in Without(indexes, board, x) ==> j in indexes
  {
    if indexes != [] {
      WithoutIncreases(indexes[1..], board, x);
      var rest := Without(indexes[1..], board, x);
      assert indexes == [indexes[0]] + indexes[1..];
      forall a | 0 <= a < |rest| ensures rest[a] > indexes[0] {
        assert rest[a] in rest && rest[a] in indexes[1..];
      }
    }
  }

  /** A special ability is granted only to emos that do not have it yet. */
  ghost predicate MayReceive(board: seq<Fighter>, i: nat, isRetired: bool, cond: Cond, ability: BattleAbility, j: nat) {
    Eligible(board, i, isRetired, cond, j) && (ability.SpecialAbility? ==> Ability.Battle(ability) !in board[j].attr.abilities)
  }

  ghost function Receivers(board: seq<Fighter>, i: nat, isRetired: bool, cond: Cond, ability: BattleAbility): set<nat> {
    set j: nat | j < |board| && MayReceive(board, i, isRetired, cond, ability, j)
  }

  lemma AbleIs(board: seq<Fighter>, i: nat, isRetired: bool, cond: Cond, ability: BattleAbility) returns (able: seq<nat>)
    ensures var all := OtherIndexes(board, 0, i, isRetired, cond);
            able == if ability.SpecialAbility? then Without(all, board, Ability.Battle(ability)) else all
    ensures Increasing(able) && forall j: nat :: j in able <==> MayReceive(board, i, isRetired, cond, ability, j)
  {
    hide OtherIndexes;
    hide Without;
    hide Increasing;
    var all := OtherIndexes(board, 0, i, isRetired, cond);
    OthersAreEligible(board, i, isRetired, cond);
    able := all;
    if ability.SpecialAbility? {
      var x := Ability.Battle(ability);
      able := Without(all, board, x);
      WithoutIncreases(all, board, x);
      forall j: nat ensures j in able <==> MayReceive(board, i, isRetired, cond, ability, j) {
        WithoutIs(all, board, x, j);
      }
    }
  }

  /** An ability granted at random goes to different eligible emos, a special one to such as do not have it yet; to as many
      of them as the count says, or twice as many when a triple grants it, and to all of them when they are fewer. */
  lemma RandomGrantIsLegal(board: seq<Fighter>, i: nat, cond: Cond, count: U8, ability: BattleAbility, isTriple: bool, isRetired: bool,
                           tape: Tape)
    ensures var r := PickReceivers(board, i, Random(cond, count), ability, isTriple, isRetired, tape);
            && r.Some? && Distinct(r.value.0)
            && |r.value.0| == Min(if isTriple then 2 * count else count, |Receivers(board, i, isRetired, cond, ability)|)
            && forall j: nat :: j in r.value.0 ==> MayReceive(board, i, isRetired, cond, ability, j)
  {
    hide OtherIndexes;
    hide Without;
    hide Draw;
    hide Increasing;
    hide Distinct;
    var able := AbleIs(board, i, isRetired, cond, ability);
    var n := if isTriple then 2 * count else count;
    SizeOfIncreasing(able, Receivers(board, i, isRetired, cond, ability));
    DrawIsSelection(able, n, tape);
    SelectionIsDistinct(able, Draw(able, n, tape));
  }
}
