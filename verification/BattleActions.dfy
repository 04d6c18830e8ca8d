/** What an action does to the boards of a battle, told in numbers: whose stats change and by how much, who gets an ability,
    whose place a new emo takes and who is hit. */
module BattleActions {
  import opened Types
  import opened Rng
  import opened Battle
  import opened BattleLaws
  import opened BattleReactions
  import opened BattleTargets
  import opened Listing

  // ----- changes of single emos -----

  type Change = Fighter -> Fighter

  function Raised(attack: nat, health: nat): Change {
    (e: Fighter) => e.(attr := e.attr.(attack := Min(65535, e.attr.attack + attack), health := Min(65535, e.attr.health + health)))
  }

  function NotBelowOne(n: int): U16
    requires n < 65536
  {
    if n < 1 then 1 else n
  }

  function Lowered(attack: U16, health: U16): Change {
    (e: Fighter) =>
      if attack == 0 && health == 0 then e
      else e.(attr := e.attr.(attack := NotBelowOne(e.attr.attack - attack), health := NotBelowOne(e.attr.health - health)))
  }

  /** No emo has more than 255 abilities, and none a special one twice by being granted it. */
  function Granted(ability: BattleAbility): Change {
    (e: Fighter) =>
      if |e.attr.abilities| >= 255 || (ability.SpecialAbility? && Ability.Battle(ability) in e.attr.abilities) then e
      else e.(attr := e.attr.(abilities := e.attr.abilities + [Ability.Battle(ability)]))
  }

  /** The emos at these places of one board are changed, and nothing else: no other emo, no place, no generator. */
  ghost predicate Changed(s: State, s': State, p: Player, at: set<nat>, change: Change) {
    && |s'.At(p)| == |s.At(p)| && s'.At(Other(p)) == s.At(Other(p)) && s'.next == s.next && s'.tape == s.tape
    && forall j: nat :: j < |s.At(p)| ==> s'.At(p)[j] == if j in at then change(s.At(p)[j]) else s.At(p)[j]
  }

  ghost predicate Makes(make: nat -> Task, p: Player, change: Change, bases: Bases) {
    forall s: State, i: nat :: i < |s.At(p)| ==>
      var r := Step(s, make(i), bases); r.Some? && r.value.1 == [] && Changed(s, r.value.0, p, {i}, change)
  }

  /** One task for each of different places. */
  ghost predicate OneEach(ts: seq<Task>, indexes: seq<nat>, make: nat -> Task) {
    |ts| == |indexes| && forall n :: 0 <= n < |ts| ==> ts[n] == make(indexes[n])
  }

  function SetOf(indexes: seq<nat>): set<nat> { set j | j in indexes }

  lemma ChangedMore(s: State, s1: State, s2: State, p: Player, i: nat, rest: set<nat>, change: Change)
    requires i !in rest && Changed(s, s1, p, {i}, change) && Changed(s1, s2, p, rest, change)
    ensures Changed(s, s2, p, {i} + rest, change)
  {
  }

  lemma MakesOne(make: nat -> Task, change: Change, s: State, p: Player, i: nat, bases: Bases) returns (s': State)
    requires Makes(make, p, change, bases) && i < |s.At(p)|
    ensures Step(s, make(i), bases) == Some((s', [])) && Changed(s, s', p, {i}, change) && |s'.At(p)| == |s.At(p)|
  {
    hide Step;
    s' := Step(s, make(i), bases).value.0;
  }

  lemma TailOf(indexes: seq<nat>)
    requires Distinct(indexes) && indexes != []
    ensures Distinct(indexes[1..]) && indexes[0] !in SetOf(indexes[1..]) && SetOf(indexes) == {indexes[0]} + SetOf(indexes[1..])
    ensures forall j :: j in indexes[1..] ==> j in indexes
  {
    assert indexes == [indexes[0]] + indexes[1..];
  }

  lemma NothingChanged(s: State, p: Player, change: Change)
    ensures Changed(s, s, p, {}, change)
  {
  }

  lemma {:induction false} ChangesAll(ts: seq<Task>, indexes: seq<nat>, make: nat -> Task, change: Change, s: State, p: Player, n: nat,
                                      bases: Bases)
    requires Makes(make, p, change, bases) && OneEach(ts, indexes, make)
    requires Distinct(indexes) && (forall j :: j in indexes ==> j < |s.At(p)|) && n >= |indexes|
    ensures var o := Eval(ts, s, n, bases); o.Done? && o.left == n - |indexes| && Changed(s, o.s, p, SetOf(indexes), change)
    decreases |ts|
  {
    hide Step;
    hide Makes;
    hide Changed;
    hide SetOf;
    hide Distinct;
    if ts != [] {
      TailOf(indexes);
      assert indexes[0] in indexes;
      var s1 := MakesOne(make, change, s, p, indexes[0], bases);
      assert [] + ts[1..] == ts[1..];
      ChangesAll(ts[1..], indexes[1..], make, change, s1, p, n - 1, bases);
      ChangedMore(s, s1, Eval(ts[1..], s1, n - 1, bases).s, p, indexes[0], SetOf(indexes[1..]), change);
    } else {
      NothingChanged(s, p, change);
      assert SetOf(indexes) == {} by {
        EmptySet(indexes);
      }
    }
  }

  lemma EmptySet(indexes: seq<nat>)
    requires indexes == []
    ensures SetOf(indexes) == {}
  {
  }

  // ----- the three kinds of tasks -----

  function ToRaise(p: Player, attack: U16, health: U16): nat -> Task { (i: nat) => RaiseAt(p, i, attack, health) }
  function ToLower(p: Player, attack: U16, health: U16): nat -> Task { (i: nat) => LowerAt(p, i, attack, health) }
  function ToGrant(p: Player, ability: BattleAbility): nat -> Task { (i: nat) => GrantAt(p, i, ability) }

  lemma RaisingChanges(p: Player, attack: U16, health: U16, bases: Bases)
    ensures Makes(ToRaise(p, attack, health), p, Raised(attack, health), bases)
  {
  }

  lemma LoweringChanges(p: Player, attack: U16, health: U16, bases: Bases)
    ensures Makes(ToLower(p, attack, health), p, Lowered(attack, health), bases)
  {
  }

  lemma GrantingChanges(p: Player, ability: BattleAbility, bases: Bases)
    ensures Makes(ToGrant(p, ability), p, Granted(ability), bases)
  {
  }

  lemma {:induction false} OneRaiseEach(p: Player, indexes: seq<nat>, attack: U16, health: U16)
    ensures OneEach(RaiseTasks(p, indexes, attack, health), indexes, ToRaise(p, attack, health))
    ensures OneEach(LowerTasks(p, indexes, attack, health), indexes, ToLower(p, attack, health))
  {
    if indexes != [] {
      OneRaiseEach(p, indexes[1..], attack, health);
    }
  }

  lemma {:induction false} OneGrantEach(p: Player, indexes: seq<nat>, ability: BattleAbility)
    ensures OneEach(GrantTasks(p, indexes, ability), indexes, ToGrant(p, ability))
  {
    if indexes != [] {
      OneGrantEach(p, indexes[1..], ability);
    }
  }

  // ----- whom an action reaches -----

  /** The emos that an action reaches: those its target describes, or as many different eligible ones as it may pick. */
  ghost predicate Reached(board: seq<Fighter>, i: nat, isRetired: bool, who: TargetOrRandom, reached: set<nat>) {
    match who
    case To(target) => forall j: nat :: j in reached <==> BattleTargets.Describes(board, i, isRetired, target, j)
    case Random(cond, count) =>
      && (forall j :: j in reached ==> Eligible(board, i, isRetired, cond, j))
      && |reached| == Min(count, |AllEligible(board, i, isRetired, cond)|)
  }

  /** The emos that receive an ability: at random, a triple gives it to twice as many, and a special one goes to such as do not
      have it. */
  ghost predicate Receive(board: seq<Fighter>, i: nat, isRetired: bool, who: TargetOrRandom, ability: BattleAbility, isTriple: bool,
                          reached: set<nat>)
  {
    match who
    case To(target) => forall j: nat :: j in reached <==> BattleTargets.Describes(board, i, isRetired, target, j)
    case Random(cond, count) =>
      && (forall j :: j in reached ==> MayReceive(board, i, isRetired, cond, ability, j))
      && |reached| == Min(if isTriple then 2 * count else count, |Receivers(board, i, isRetired, cond, ability)|)
  }

  /** A standing actor is on the board, a retired one left a place that is there. */
  predicate Placed(s: State, p: Player, i: nat, retired: Option<Fighter>) { if retired.Some? then i <= |s.At(p)| else i < |s.At(p)| }

  lemma {:induction false} SizeOfDistinct(indexes: seq<nat>)
    requires Distinct(indexes)
    ensures |SetOf(indexes)| == |indexes|
  {
    if indexes == [] {
      EmptySet(indexes);
    } else {
      TailOf(indexes);
      SizeOfDistinct(indexes[1..]);
    }
  }

  lemma PicksReached(s: State, p: Player, i: nat, who: TargetOrRandom, retired: Option<Fighter>) returns (indexes: seq<nat>)
    requires Placed(s, p, i, retired)
    ensures var r := PickIndexes(s.At(p), i, who, retired.Some?, s.tape); r.Some? && indexes == r.value.0
    ensures Distinct(indexes) && (forall j :: j in indexes ==> j < |s.At(p)|) && Reached(s.At(p), i, retired.Some?, who, SetOf(indexes))
  {
    hide OtherIndexes;
    hide TargetIndexes;
    match who {
      case To(target) => TargetsAreExact(s.At(p), i, target, retired.Some?);
      case Random(cond, count) => RandomIsLegal(s.At(p), i, cond, count, retired.Some?, s.tape);
    }
    indexes := PickIndexes(s.At(p), i, who, retired.Some?, s.tape).value.0;
    SizeOfDistinct(indexes);
  }

  lemma ReceiversReached(s: State, p: Player, i: nat, who: TargetOrRandom, ability: BattleAbility, isTriple: bool,
                         retired: Option<Fighter>) returns (indexes: seq<nat>)
    requires Placed(s, p, i, retired)
    ensures var r := PickReceivers(s.At(p), i, who, ability, isTriple, retired.Some?, s.tape); r.Some? && indexes == r.value.0
    ensures Distinct(indexes) && forall j :: j in indexes ==> j < |s.At(p)|
    ensures Receive(s.At(p), i, retired.Some?, who, ability, isTriple, SetOf(indexes))
  {
    hide OtherIndexes;
    hide TargetIndexes;
    hide Without;
    match who {
      case To(target) => TargetsAreExact(s.At(p), i, target, retired.Some?);
      case Random(cond, count) => RandomGrantIsLegal(s.At(p), i, cond, count, ability, isTriple, retired.Some?, s.tape);
    }
    indexes := PickReceivers(s.At(p), i, who, ability, isTriple, retired.Some?, s.tape).value.0;
    SizeOfDistinct(indexes);
  }

  /** What a finished action did: these emos of the side are changed, and nothing else but the generator moved on. */
  ghost predicate Does(t: Task, s: State, p: Player, reached: set<nat>, change: Change, bases: Bases) {
    forall n: nat :: n > |reached| ==>
      var o := Eval([t], s, n, bases); o.Done? && Changed(s.(tape := o.s.tape), o.s, p, reached, change)
  }

  lemma SpreadDoes(t: Task, s: State, tape: Tape, ts: seq<Task>, indexes: seq<nat>, make: nat -> Task, change: Change, p: Player,
                   bases: Bases)
    requires Step(s, t, bases) == Some((s.(tape := tape), ts))
    requires Makes(make, p, change, bases) && OneEach(ts, indexes, make)
    requires Distinct(indexes) && forall j :: j in indexes ==> j < |s.At(p)|
    ensures Does(t, s, p, SetOf(indexes), change, bases)
  {
    hide Step;
    hide Makes;
    hide Changed;
    hide Distinct;
    SizeOfDistinct(indexes);
    forall n: nat | n > |SetOf(indexes)|
      ensures var o := Eval([t], s, n, bases); o.Done? && Changed(s.(tape := o.s.tape), o.s, p, SetOf(indexes), change)
    {
      assert [t] + [] == [t] && ts + [] == ts;
      Unfold(t, [], s, n, bases, s.(tape := tape), ts);
      ChangesAll(ts, indexes, make, change, s.(tape := tape), p, n - 1, bases);
      KeepsTape(s.(tape := tape), Eval(ts, s.(tape := tape), n - 1, bases).s, p, SetOf(indexes), change);
    }
  }

  lemma KeepsTape(s: State, s': State, p: Player, at: set<nat>, change: Change)
    requires Changed(s, s', p, at, change)
    ensures s'.tape == s.tape
  {
  }

  function TwiceIf(isTriple: bool, n: nat): nat { if isTriple then Min(65535, 2 * n) else n }

  // ----- the actions -----

  /** Every emo reached has so much more attack and health, twice as much from a triple, and no more than 65535. */
  lemma RaiseReaches(s: State, p: Player, who: TargetOrRandom, attack: U16, health: U16, i: nat, retired: Option<Fighter>,
                     isTriple: bool, bases: Bases) returns (reached: set<nat>)
    requires Placed(s, p, i, retired)
    ensures Reached(s.At(p), i, retired.Some?, who, reached)
    ensures Does(Act(p, Raise(who, attack, health), i, retired, isTriple), s, p, reached,
                 Raised(TwiceIf(isTriple, attack), TwiceIf(isTriple, health)), bases)
  {
    hide PickIndexes;
    hide Makes;
    hide Distinct;
    hide Reached;
    hide Does;
    var indexes := PicksReached(s, p, i, who, retired);
    var tape := PickIndexes(s.At(p), i, who, retired.Some?, s.tape).value.1;
    var a, h := DoubleIf(isTriple, attack), DoubleIf(isTriple, health);
    RaisingChanges(p, a, h, bases);
    OneRaiseEach(p, indexes, a, h);
    SpreadDoes(Act(p, Raise(who, attack, health), i, retired, isTriple), s, tape, RaiseTasks(p, indexes, a, h), indexes,
               ToRaise(p, a, h), Raised(a, h), p, bases);
    reached := SetOf(indexes);
  }

  /** Every emo reached has so much less, but no less than one. */
  lemma LowerReaches(s: State, p: Player, who: TargetOrRandom, attack: U16, health: U16, i: nat, retired: Option<Fighter>,
                     isTriple: bool, bases: Bases) returns (reached: set<nat>)
    requires Placed(s, p, i, retired)
    ensures Reached(s.At(p), i, retired.Some?, who, reached)
    ensures Does(Act(p, Lower(who, attack, health), i, retired, isTriple), s, p, reached,
                 Lowered(TwiceIf(isTriple, attack), TwiceIf(isTriple, health)), bases)
  {
    hide PickIndexes;
    hide Makes;
    hide Distinct;
    hide Reached;
    hide Does;
    var indexes := PicksReached(s, p, i, who, retired);
    var tape := PickIndexes(s.At(p), i, who, retired.Some?, s.tape).value.1;
    var a, h := DoubleIf(isTriple, attack), DoubleIf(isTriple, health);
    LoweringChanges(p, a, h, bases);
    OneRaiseEach(p, indexes, a, h);
    SpreadDoes(Act(p, Lower(who, attack, health), i, retired, isTriple), s, tape, LowerTasks(p, indexes, a, h), indexes,
               ToLower(p, a, h), Lowered(a, h), p, bases);
    reached := SetOf(indexes);
  }

  /** The emos counted: of the own side all that meet the condition but the one at the acting place, of the rivals all. */
  ghost function Counted(s: State, p: Player, i: nat, side: Side, cond: Cond): nat {
    if side == Ally then |set j: nat | j < |s.At(p)| && j != i && MatchedFighter(cond, s.At(p)[j])|
    else |set j: nat | j < |s.At(Other(p))| && MatchedFighter(cond, s.At(Other(p))[j])|
  }

  lemma CountIs(s: State, p: Player, i: nat, side: Side, cond: Cond)
    ensures Counted(s, p, i, side, cond)
         == if side == Ally then CountMatched(s.At(p), 0, i, false, cond) else CountMatched(s.At(Other(p)), 0, 0, true, cond)
  {
    hide OtherIndexes;
    hide Increasing;
    if side == Ally {
      OthersAreEligible(s.At(p), i, false, cond);
      SizeOfIncreasing(OtherIndexes(s.At(p), 0, i, false, cond),
                       set j: nat | j < |s.At(p)| && j != i && MatchedFighter(cond, s.At(p)[j]));
    } else {
      var board := s.At(Other(p));
      OthersAreEligible(board, 0, true, cond);
      SizeOfIncreasing(OtherIndexes(board, 0, 0, true, cond), set j: nat | j < |board| && MatchedFighter(cond, board[j]));
    }
  }

  /** So much more for every emo counted. */
  lemma RaiseByCountReaches(s: State, p: Player, side: Side, who: TargetOrRandom, cond: Cond, attack: U16, health: U16, i: nat,
                            retired: Option<Fighter>, isTriple: bool, bases: Bases) returns (reached: set<nat>)
    requires Placed(s, p, i, retired)
    ensures Reached(s.At(p), i, retired.Some?, who, reached)
    ensures var count := Counted(s, p, i, side, cond);
            Does(Act(p, RaiseByEmoCount(side, who, cond, attack, health), i, retired, isTriple), s, p, reached,
                 Raised(TwiceIf(isTriple, Min(65535, attack * count)), TwiceIf(isTriple, Min(65535, health * count))), bases)
  {
    hide PickIndexes;
    hide CountMatched;
    hide Counted;
    hide Makes;
    hide Distinct;
    hide Reached;
    hide Does;
    CountIs(s, p, i, side, cond);
    var count := Counted(s, p, i, side, cond);
    var indexes := PicksReached(s, p, i, who, retired);
    var tape := PickIndexes(s.At(p), i, who, retired.Some?, s.tape).value.1;
    var a, h := DoubleIf(isTriple, Sat16(attack * count)), DoubleIf(isTriple, Sat16(health * count));
    RaisingChanges(p, a, h, bases);
    OneRaiseEach(p, indexes, a, h);
    SpreadDoes(Act(p, RaiseByEmoCount(side, who, cond, attack, health), i, retired, isTriple), s, tape, RaiseTasks(p, indexes, a, h),
               indexes, ToRaise(p, a, h), Raised(a, h), p, bases);
    reached := SetOf(indexes);
  }

  /** Every emo reached has the ability now, if it can take another one. */
  lemma GrantReaches(s: State, p: Player, who: TargetOrRandom, ability: BattleAbility, i: nat, retired: Option<Fighter>, isTriple: bool,
                     bases: Bases) returns (reached: set<nat>)
    requires Placed(s, p, i, retired)
    ensures Receive(s.At(p), i, retired.Some?, who, ability, isTriple, reached)
    ensures Does(Act(p, AddBattleAbility(who, ability), i, retired, isTriple), s, p, reached, Granted(ability), bases)
  {
    hide PickReceivers;
    hide Makes;
    hide Distinct;
    hide Receive;
    hide Does;
    var indexes := ReceiversReached(s, p, i, who, ability, isTriple, retired);
    var tape := PickReceivers(s.At(p), i, who, ability, isTriple, retired.Some?, s.tape).value.1;
    GrantingChanges(p, ability, bases);
    OneGrantEach(p, indexes, ability);
    SpreadDoes(Act(p, AddBattleAbility(who, ability), i, retired, isTriple), s, tape, GrantTasks(p, indexes, ability), indexes,
               ToGrant(p, ability), Granted(ability), p, bases);
    reached := SetOf(indexes);
  }

  // ----- new emos -----

  /** The emo of a base as it comes in: with twice the stats when it is a triple, and the counter it inherits. */
  function Fresh(base: Base, isTriple: bool, survived: nat, id: nat): Fighter {
    Fighter(id % 65536, base.id, base.typ,
            Attributes(TwiceIf(isTriple, base.attack), TwiceIf(isTriple, base.health), base.abilities, isTriple), survived)
  }

  /** Where a new emo comes in: for the own side at the place given, for the rivals at the right end of their board, there with
      the counter of the emo that stood at that end. */
  lemma SetEmoIs(s: State, p: Player, i: nat, baseId: U16, isTriple: bool, survived: nat, side: Side, bases: Bases)
    requires baseId in bases && (side == Ally ==> i <= |s.At(p)|)
    ensures var q, board := if side == Ally then p else Other(p), s.At(if side == Ally then p else Other(p));
            var place := if side == Ally then i else |board|;
            var counter := if side == Ally then survived else if board == [] then 0 else board[|board| - 1].survived;
            var e := Fresh(bases[baseId], isTriple, counter, s.next);
            var r := Step(s, Task.SetEmo(p, i, baseId, isTriple, survived, side), bases);
            && r.Some? && r.value.0.At(Other(q)) == s.At(Other(q)) && r.value.0.next == s.next + 1
            && (if |board| >= 7 then r.value.0.At(q) == board && r.value.1 == []
                else && r.value.0.At(q) == board[..place] + [e] + board[place..]
                     && Collects(r.value.1, AbilitiesOf(r.value.0.At(q)), ForNewAlly(q, place, e)))
  {
    hide AddFighter;
    hide Collects;
    var q := if side == Ally then p else Other(p);
    var board := s.At(q);
    var place := if side == Ally then i else |board|;
    var counter := if side == Ally then survived else if board == [] then 0 else board[|board| - 1].survived;
    var e := Fresh(bases[baseId], isTriple, counter, s.next);
    assert e == NewFighter(bases[baseId], isTriple, counter, s.next);
    NewEmoIs(s.(next := s.next + 1), q, place, e);
    NextStays(s.(next := s.next + 1), q, place, e);
  }

  lemma NextStays(s: State, p: Player, i: nat, e: Fighter)
    ensures var r := AddFighter(s, p, i, e); r.Some? ==> r.value.0.next == s.next
  {
  }

  /** A spawn for the own side stands right of a standing actor, or where a retired one stood, with the counter of the actor. A
      spawn for the rivals stands at the right end of their board with the counter of the emo that stood there. On a full
      board nothing is spawned. What is spawned is a triple when the action is one. */
  lemma SpawnStands(s: State, p: Player, side: Side, baseId: U16, i: nat, retired: Option<Fighter>, isTriple: bool, rest: seq<Task>,
                    n: nat, bases: Bases) returns (reactions: seq<Task>, s': State)
    requires Placed(s, p, i, retired) && baseId in bases && n >= 2
    ensures Eval([Act(p, Spawn(side, baseId), i, retired, isTriple)] + rest, s, n, bases) == Eval(reactions + rest, s', n - 2, bases)
    ensures var q, board := if side == Ally then p else Other(p), s.At(if side == Ally then p else Other(p));
            var place := if side == Rival then |board| else if retired.Some? then i else i + 1;
            var survived := if side == Ally then (if retired.Some? then retired.value.survived else s.At(p)[i].survived)
                            else if board == [] then 0 else board[|board| - 1].survived;
            var e := Fresh(bases[baseId], isTriple, survived, s.next);
            && s'.At(Other(q)) == s.At(Other(q)) && s'.next == s.next + 1
            && (if |board| >= 7 then s'.At(q) == board && reactions == []
                else && s'.At(q) == board[..place] + [e] + board[place..]
                     && Collects(reactions, AbilitiesOf(s'.At(q)), ForNewAlly(q, place, e)))
  {
    hide Eval;
    hide SetFighter;
    hide Collects;
    hide Fresh;
    var emo := if retired.Some? then retired.value else s.At(p)[i];
    var place := if retired.Some? then i else i + 1;
    var act, setEmo := Act(p, Spawn(side, baseId), i, retired, isTriple), Task.SetEmo(p, place, baseId, isTriple, emo.survived, side);
    assert s.(tape := s.tape) == s;
    assert Step(s, act, bases) == Some((s, [setEmo]));
    SetEmoIs(s, p, place, baseId, isTriple, emo.survived, side, bases);
    s', reactions := Step(s, setEmo, bases).value.0, Step(s, setEmo, bases).value.1;
    hide Step;
    Unfold(act, rest, s, n, bases, s, [setEmo]);
    Unfold(setEmo, rest, s, n - 1, bases, s', reactions);
  }

  /** As many spawns as the attack contains the divisor, at most seven. */
  lemma SpawnsByAttack(s: State, p: Player, side: Side, baseId: U16, divisor: U8, i: nat, retired: Option<Fighter>, isTriple: bool,
                       bases: Bases)
    requires Placed(s, p, i, retired)
    ensures var emo := if retired.Some? then retired.value else s.At(p)[i];
            var r := Step(s, Act(p, SpawnByAttackDiv(side, baseId, divisor), i, retired, isTriple), bases);
            if divisor == 0 then r.None?
            else && r.Some? && r.value.0 == s && |r.value.1| == Min(emo.attr.attack / divisor, 7)
                 && forall t :: t in r.value.1 ==> Step(s, Act(p, Spawn(side, baseId), i, retired, isTriple), bases) == Some((s, [t]))
  {
    if divisor != 0 {
      var emo := if retired.Some? then retired.value else s.At(p)[i];
      var t := Task.SetEmo(p, if retired.Some? then i else i + 1, baseId, isTriple, emo.survived, side);
      RepeatIs(t, Min(emo.attr.attack / divisor, 7));
    }
  }

  lemma {:induction false} RepeatIs(t: Task, n: nat)
    ensures |Repeat(t, n)| == n && forall x :: x in Repeat(t, n) ==> x == t
  {
    if n > 0 {
      RepeatIs(t, n - 1);
    }
  }

  // ----- damage -----

  lemma {:induction false} DamageIdsAre(p: Player, board: seq<Fighter>, damage: U16)
    ensures var ts := DamageTasks(p, Ids(board), damage);
            |ts| == |board| && forall k :: 0 <= k < |board| ==> ts[k] == DamageId(p, board[k].id, damage)
  {
    if board != [] {
      DamageIdsAre(p, board[1..], damage);
      assert Ids(board)[1..] == Ids(board[1..]);
    }
  }

  /** Damage to a whole board is meant for every emo that stands there, from the left, each looked up again by its id. */
  lemma DamageAllIs(s: State, p: Player, side: Side, damage: U16, i: nat, retired: Option<Fighter>, isTriple: bool, bases: Bases)
    requires Placed(s, p, i, retired)
    ensures var q := if side == Ally then p else Other(p);
            var r := Step(s, Act(p, DamageAll(side, damage), i, retired, isTriple), bases);
            && r.Some? && r.value.0 == s && |r.value.1| == |s.At(q)|
            && forall k :: 0 <= k < |s.At(q)| ==> r.value.1[k] == DamageId(q, s.At(q)[k].id, TwiceIf(isTriple, damage))
  {
    var q := if side == Ally then p else Other(p);
    DamageIdsAre(q, s.At(q), DoubleIf(isTriple, damage));
  }

  /** It is dealt to the first emo with the id, and to nobody when there is none. */
  lemma DamagedById(s: State, p: Player, id: U16, damage: U16, bases: Bases)
    ensures var r := Step(s, DamageId(p, id, damage), bases);
            && r.Some? && r.value.0 == s
            && (r.value.1 == [] <==> forall j :: 0 <= j < |s.At(p)| ==> s.At(p)[j].id != id)
            && forall i: nat :: i < |s.At(p)| && s.At(p)[i].id == id && (forall j :: 0 <= j < i ==> s.At(p)[j].id != id) ==>
                 r.value.1 == [DamageAt(p, i, damage, false)]
  {
    FirstWithId(s.At(p), id);
  }

  lemma {:induction false} FirstWithId(board: seq<Fighter>, id: U16)
    ensures var k := IndexOfId(board, id);
            && (k.Some? ==> forall j :: 0 <= j < k.value ==> board[j].id != id)
            && (k.None? ==> forall j :: 0 <= j < |board| ==> board[j].id != id)
  {
    if board != [] && board[0].id != id {
      FirstWithId(board[1..], id);
      assert forall j :: 1 <= j < |board| ==> board[j] == board[1..][j - 1];
    }
  }

  /** Damage is warded off by the first shield, which is lost; else it is taken from the health of an emo that survives it. */
  lemma DamageIs(s: State, p: Player, i: nat, damage: U16, counted: bool)
    requires i < |s.At(p)|
    ensures var r, e := DamageFighter(s, p, i, damage, counted), s.At(p)[i];
            var due := if counted then [CountSurvived(p, i)] else [];
            && r.Some?
            && (SHIELD in e.attr.abilities ==>
                  exists k :: 0 <= k < |e.attr.abilities| && e.attr.abilities[k] == SHIELD && SHIELD !in e.attr.abilities[..k]
                              && r.value == LoseShield(s, p, i, k, counted))
            && (SHIELD !in e.attr.abilities && damage == 0 ==> r.value == (s, due))
            && (SHIELD !in e.attr.abilities && 0 < damage < e.attr.health ==>
                  && r.value.1 == due && r.value.0.At(Other(p)) == s.At(Other(p)) && r.value.0.next == s.next
                  && r.value.0.At(p) == s.At(p)[i := e.(attr := e.attr.(health := e.attr.health - damage))])
  {
    hide LoseShield;
    hide Retire;
    FirstAbility(s.At(p)[i].attr.abilities, SHIELD);
  }

  lemma {:induction false} FirstAbility(abilities: seq<Ability>, a: Ability)
    ensures var k := IndexOfAbility(abilities, a); k.Some? ==> a !in abilities[..k.value]
  {
    if abilities != [] && abilities[0] != a {
      FirstAbility(abilities[1..], a);
      var k := IndexOfAbility(abilities[1..], a);
      if k.Some? {
        assert abilities[..k.value + 1] == [abilities[0]] + abilities[1..][..k.value];
      }
    }
  }

  function Hit(e: Fighter, damage: U16): Fighter
    requires damage < e.attr.health
  {
    e.(attr := e.attr.(health := e.attr.health - damage))
  }

  lemma HitSurvived(s: State, p: Player, i: nat, damage: U16, counted: bool, rest: seq<Task>, n: nat, bases: Bases) returns (s': State)
    requires i < |s.At(p)| && SHIELD !in s.At(p)[i].attr.abilities && damage < s.At(p)[i].attr.health && n > 0
    ensures Eval([DamageAt(p, i, damage, counted)] + rest, s, n, bases)
         == Eval((if counted then [CountSurvived(p, i)] else []) + rest, s', n - 1, bases)
    ensures s'.At(p) == s.At(p)[i := Hit(s.At(p)[i], damage)] && s'.At(Other(p)) == s.At(Other(p))
  {
    hide Eval;
    hide DamageFighter;
    DamageIs(s, p, i, damage, counted);
    s' := Step(s, DamageAt(p, i, damage, counted), bases).value.0;
    assert damage == 0 ==> s.At(p)[i := s.At(p)[i]] == s.At(p);
    Unfold(DamageAt(p, i, damage, counted), rest, s, n, bases, s', if counted then [CountSurvived(p, i)] else []);
  }

  lemma BlowReturned(s: State, p: Player, i: nat, damage: U16, n: nat, bases: Bases) returns (s': State)
    requires i < |s.At(p)| && SHIELD !in s.At(p)[i].attr.abilities && damage < s.At(p)[i].attr.health && n >= 3
    ensures Eval([StrikeBack(p, i, damage)], s, n, bases) == Done(s', n - 3)
    ensures var e := s.At(p)[i];
            s'.At(p) == s.At(p)[i := Hit(e, damage).(survived := e.survived + 1)] && s'.At(Other(p)) == s.At(Other(p))
  {
    hide Eval;
    var strike, count := StrikeBack(p, i, damage), CountSurvived(p, i);
    var none: seq<Task> := [];
    Unfold(strike, none, s, n, bases, s, [DamageAt(p, i, damage, true)]);
    var s1 := HitSurvived(s, p, i, damage, true, none, n - 1, bases);
    s' := Step(s1, count, bases).value.0;
    Unfold(count, none, s1, n - 2, bases, s', none);
    assert [strike] + none == [strike] && none + none == none;
    DoneAtOnce(s', n - 3, bases);
  }

  /** An attack starts with its entry, and the blows are the attacks of the two emos as they stand. */
  lemma AttackStarts(s: State, p: Player) returns (i: nat, j: nat)
    requires s.At(p) != [] && s.At(Other(p)) != []
    ensures i < |s.At(p)| && j < |s.At(Other(p))| && i == AttackIndex(s.At(p))
    ensures j == DefenseIndex(s.At(Other(p)), Ability.Battle(SpecialAbility(AttackLowestAttack)) in s.At(p)[i].attr.abilities, s.tape)
    ensures var r := AttackTasks(s, p);
            && r.Some? && r.value.0.zero == s.zero && r.value.0.one == s.one && r.value.0.logs == s.logs + [Attack(p, i, j)]
            && r.value.1 == [DamageAt(Other(p), j, s.At(p)[i].attr.attack, false)]
                            + [StrikeBack(p, i, s.At(Other(p))[j].attr.attack)]
  {
    hide AttackIndex;
    hide DefenseIndex;
    i := AttackIndex(s.At(p));
    j := DefenseIndex(s.At(Other(p)), HasSpecial(s.At(p)[i], AttackLowestAttack), s.tape);
  }

  /** Every emo that may be attacked is attacked for some pick of the generator. */
  lemma AnyMayBeAttacked(board: seq<Fighter>, isLowest: bool, j: nat) returns (tape: Tape)
    requires j < |board|
    requires isLowest ==> forall k :: 0 <= k < |board| ==> board[j].attr.attack <= board[k].attr.attack
    requires !isLowest ==> HasSpecial(board[j], Attractive) || forall k :: 0 <= k < |board| ==> !HasSpecial(board[k], Attractive)
    ensures DefenseIndex(board, isLowest, tape) == j
  {
    hide HasSpecial;
    hide LowestIndexes;
    hide AttractiveIndexes;
    if isLowest {
      var lowest := LowestIndexes(board, |board|).0;
      assert lowest[0] in lowest && j in lowest;
      tape := PickAt(lowest, j);
    } else {
      var attractive := AttractiveIndexes(board, 0);
      if HasSpecial(board[j], Attractive) {
        assert HasSpecial(board[j - 0], Attractive);
        tape := PickAt(attractive, j);
      } else {
        assert forall k :: k !in attractive;
        EmptyWithout(attractive);
        tape := [j];
        assert Choice(tape, |board|) == j;
      }
    }
  }

  lemma EmptyWithout(indexes: seq<nat>)
    ensures indexes == [] || exists k :: k in indexes
  {
    if indexes != [] {
      assert indexes[0] in indexes;
    }
  }

  lemma PickAt(indexes: seq<nat>, j: nat) returns (tape: Tape)
    requires j in indexes
    ensures indexes[Choice(tape, |indexes|)] == j
  {
    var k: nat :| k < |indexes| && indexes[k] == j;
    tape := [k];
    ChoiceIs(k, |indexes|);
    hide Choice;
  }

  /** When neither emo of an attack has a shield and both survive it, each loses what the other one strikes with, the attacker
      counts one survived attack more, and nothing else changes. */
  lemma BlowsAreExchanged(s: State, p: Player, n: nat, bases: Bases) returns (i: nat, j: nat, s': State)
    requires s.At(p) != [] && s.At(Other(p)) != [] && n >= 4
    ensures i < |s.At(p)| && j < |s.At(Other(p))| && i == AttackIndex(s.At(p))
    ensures j == DefenseIndex(s.At(Other(p)), Ability.Battle(SpecialAbility(AttackLowestAttack)) in s.At(p)[i].attr.abilities, s.tape)
    ensures var r, e, d := AttackTasks(s, p), s.At(p)[i], s.At(Other(p))[j];
            && r.Some?
            && (SHIELD !in e.attr.abilities && SHIELD !in d.attr.abilities
                && e.attr.attack < d.attr.health && d.attr.attack < e.attr.health ==>
                  && Eval(r.value.1, r.value.0, n, bases) == Done(s', n - 4)
                  && s'.At(p) == s.At(p)[i := Hit(e, d.attr.attack).(survived := e.survived + 1)]
                  && s'.At(Other(p)) == s.At(Other(p))[j := Hit(d, e.attr.attack)])
  {
    hide Eval;
    hide AttackTasks;
    hide AttackIndex;
    hide DefenseIndex;
    i, j := AttackStarts(s, p);
    var q, e, d := Other(p), s.At(p)[i], s.At(Other(p))[j];
    s' := AttackTasks(s, p).value.0;
    if SHIELD !in e.attr.abilities && SHIELD !in d.attr.abilities && e.attr.attack < d.attr.health && d.attr.attack < e.attr.health {
      var strike := [StrikeBack(p, i, d.attr.attack)];
      var s1 := HitSurvived(s', q, j, e.attr.attack, false, strike, n, bases);
      assert [] + strike == strike;
      s' := BlowReturned(s1, p, i, d.attr.attack, n - 1, bases);
    }
  }

  lemma DoneAtOnce(s: State, n: nat, bases: Bases)
    ensures Eval([], s, n, bases) == Done(s, n)
  {
  }

  // ----- who acts -----

  /** An emo that acts by itself, standing or retired, acts as the triple it is or is not; what acts through an ally acts as
      the triple its owner is or is not. */
  lemma ActsAsTriple(s: State, p: Player, action: BattleAction, i: nat, retired: Option<Fighter>, owner: nat, bases: Bases)
    requires Placed(s, p, i, retired) && owner < |s.At(p)|
    ensures Step(s, ActAsOneself(p, action, i, retired), bases)
         == Some((s, [Act(p, action, i, retired, if retired.Some? then retired.value.attr.isTriple else s.At(p)[i].attr.isTriple)]))
    ensures Step(s, ActAsAlly(p, AllyNormal(action), i, retired, owner), bases)
         == Some((s, [Act(p, action, i, retired, s.At(p)[owner].attr.isTriple)]))
  {
  }

  /** A reaction to a lost shield that leaves out its own base is not performed by an emo of the base that lost it. */
  lemma ShieldReactionIs(s: State, p: Player, action: BattleAction, j: nat, baseId: U16, excludes: bool, bases: Bases)
    requires j < |s.At(p)|
    ensures Step(s, ShieldReact(p, action, j, baseId, excludes), bases)
         == Some((s, if excludes && s.At(p)[j].baseId == baseId then [] else [ActAsOneself(p, action, j, None)]))
  {
  }
}
