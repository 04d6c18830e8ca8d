/** What an action does to the board of the shop, told in numbers: whose stats change and by how much, who gets an ability, and
    how many coins are earned. */
module ShopActions {
  import opened Types
  import opened Shop
  import opened ShopRun
  import opened ShopLaws
  import opened ShopTargets
  import opened ShopPlaces

  // ----- changes of single emos -----

  type Change = ShopEmo -> ShopEmo

  function Raised(attack: nat, health: nat): Change {
    (e: ShopEmo) => e.(attr := e.attr.(attack := Min(65535, e.attr.attack + attack), health := Min(65535, e.attr.health + health)))
  }

  /** No emo has a special battle ability twice by being granted it. */
  function Granted(ability: Ability): Change {
    (e: ShopEmo) =>
      if ability.Battle? && ability.battle.SpecialAbility? && ability in e.attr.abilities then e
      else e.(attr := e.attr.(abilities := e.attr.abilities + [ability]))
  }

  /** The emos with these ids are changed, and nothing else but the log. */
  ghost predicate ChangedIds(s: State, s': State, ids: set<nat>, change: Change) {
    && |s'.board| == |s.board| && s'.next == s.next && s'.earned == s.earned && s'.tape == s.tape
    && forall j: nat :: j < |s.board| ==> s'.board[j] == if s.board[j].id in ids then change(s.board[j]) else s.board[j]
  }

  /** The emos at these places are changed, and nothing else but the log. */
  ghost predicate Changed(s: State, s': State, at: set<nat>, change: Change) {
    && |s'.board| == |s.board| && s'.next == s.next && s'.earned == s.earned && s'.tape == s.tape
    && forall j: nat :: j < |s.board| ==> s'.board[j] == if j in at then change(s.board[j]) else s.board[j]
  }

  ghost predicate KeepsIds(change: Change) { forall e: ShopEmo :: change(e).id == e.id }

  ghost predicate Makes(make: nat -> Task, change: Change, bases: Bases) {
    forall s: State, i: nat :: DistinctIds(s.board) && i < |s.board| ==>
      var r := Step(s, make(s.board[i].id), bases); r.Some? && r.value.1 == [] && ChangedIds(s, r.value.0, {s.board[i].id}, change)
  }

  /** One task for each id. */
  ghost predicate OneEach(ts: seq<Task>, ids: seq<nat>, make: nat -> Task) {
    |ts| == |ids| && forall n :: 0 <= n < |ts| ==> ts[n] == make(ids[n])
  }

  ghost predicate Different(ids: seq<nat>) { forall a, b :: 0 <= a < b < |ids| ==> ids[a] != ids[b] }

  function SetOf(ids: seq<nat>): set<nat> { set x | x in ids }

  lemma ChangedMore(s: State, s1: State, s2: State, x: nat, rest: set<nat>, change: Change)
    requires KeepsIds(change) && x !in rest && ChangedIds(s, s1, {x}, change) && ChangedIds(s1, s2, rest, change)
    ensures ChangedIds(s, s2, {x} + rest, change)
  {
    assert forall j: nat :: j < |s.board| ==> s1.board[j].id == s.board[j].id;
  }

  lemma SameIds(s: State, s': State, ids: set<nat>, change: Change)
    requires KeepsIds(change) && ChangedIds(s, s', ids, change)
    ensures |s'.board| == |s.board| && forall j :: 0 <= j < |s.board| ==> s'.board[j].id == s.board[j].id
    ensures DistinctIds(s.board) ==> DistinctIds(s'.board)
    ensures forall x: seq<nat> :: OnBoards(s.board, x) ==> OnBoards(s'.board, x)
  {
    forall x: seq<nat> | OnBoards(s.board, x) ensures OnBoards(s'.board, x) {
      forall id | id in x ensures exists i :: 0 <= i < |s'.board| && s'.board[i].id == id {
        var i :| 0 <= i < |s.board| && s.board[i].id == id;
        assert s'.board[i].id == id;
      }
    }
  }

  lemma MakesOne(make: nat -> Task, change: Change, s: State, x: nat, bases: Bases) returns (s': State)
    requires Makes(make, change, bases) && DistinctIds(s.board) && OnBoards(s.board, [x])
    ensures Step(s, make(x), bases) == Some((s', [])) && ChangedIds(s, s', {x}, change)
  {
    hide Step;
    assert x in [x];
    var i :| 0 <= i < |s.board| && s.board[i].id == x;
    s' := Step(s, make(s.board[i].id), bases).value.0;
    assert Step(s, make(x), bases).value == (s', []);
  }

  lemma TailOf(board: seq<ShopEmo>, ids: seq<nat>)
    requires Different(ids) && ids != [] && OnBoards(board, ids)
    ensures Different(ids[1..]) && OnBoards(board, [ids[0]]) && OnBoards(board, ids[1..])
    ensures ids[0] !in SetOf(ids[1..]) && SetOf(ids) == {ids[0]} + SetOf(ids[1..])
  {
    assert ids == [ids[0]] + ids[1..] && ids[0] in ids;
    assert forall x :: x in ids[1..] ==> x in ids;
  }

  lemma {:induction false} ChangesAll(ts: seq<Task>, ids: seq<nat>, make: nat -> Task, change: Change, s: State, bases: Bases)
    requires Makes(make, change, bases) && KeepsIds(change) && OneEach(ts, ids, make)
    requires DistinctIds(s.board) && Different(ids) && OnBoards(s.board, ids)
    ensures var r := Run(ts, s, bases); r.Some? && ChangedIds(s, r.value, SetOf(ids), change)
    decreases |ts|
  {
    hide Step;
    hide Makes;
    hide KeepsIds;
    hide Different;
    hide OnBoards;
    if ts != [] {
      TailOf(s.board, ids);
      var s1 := MakesOne(make, change, s, ids[0], bases);
      SameIds(s, s1, {ids[0]}, change);
      RunOne(ts[0], s, bases);
      RunFirst(ts, s, bases);
      ChangesAll(ts[1..], ids[1..], make, change, s1, bases);
      ChangedMore(s, s1, Run(ts[1..], s1, bases).value, ids[0], SetOf(ids[1..]), change);
    }
  }

  // ----- the two kinds of tasks -----

  function ToRaise(attack: U16, health: U16): nat -> Task { (id: nat) => RaiseById(id, attack, health) }
  function ToGrant(ability: Ability): nat -> Task { (id: nat) => GrantById(id, ability) }

  lemma RaisingChangesOne(s: State, i: nat, attack: U16, health: U16, bases: Bases)
    requires DistinctIds(s.board) && i < |s.board|
    ensures var r := Step(s, RaiseById(s.board[i].id, attack, health), bases);
            r.Some? && r.value.1 == [] && ChangedIds(s, r.value.0, {s.board[i].id}, Raised(attack, health))
  {
    FoundWhereItIs(s.board, i);
  }

  lemma RaisingChanges(attack: U16, health: U16, bases: Bases)
    ensures Makes(ToRaise(attack, health), Raised(attack, health), bases) && KeepsIds(Raised(attack, health))
  {
    hide Step;
    hide ChangedIds;
    forall s: State, i: nat | DistinctIds(s.board) && i < |s.board|
      ensures var r := Step(s, ToRaise(attack, health)(s.board[i].id), bases);
              r.Some? && r.value.1 == [] && ChangedIds(s, r.value.0, {s.board[i].id}, Raised(attack, health))
    {
      RaisingChangesOne(s, i, attack, health, bases);
    }
  }

  lemma GrantingChangesOne(s: State, i: nat, ability: Ability, bases: Bases)
    requires DistinctIds(s.board) && i < |s.board|
    ensures var r := Step(s, GrantById(s.board[i].id, ability), bases);
            r.Some? && r.value.1 == [] && ChangedIds(s, r.value.0, {s.board[i].id}, Granted(ability))
  {
    FoundWhereItIs(s.board, i);
  }

  lemma GrantingChanges(ability: Ability, bases: Bases)
    ensures Makes(ToGrant(ability), Granted(ability), bases) && KeepsIds(Granted(ability))
  {
    hide Step;
    hide ChangedIds;
    forall s: State, i: nat | DistinctIds(s.board) && i < |s.board|
      ensures var r := Step(s, ToGrant(ability)(s.board[i].id), bases);
              r.Some? && r.value.1 == [] && ChangedIds(s, r.value.0, {s.board[i].id}, Granted(ability))
    {
      GrantingChangesOne(s, i, ability, bases);
    }
  }

  lemma {:induction false} OneRaiseEach(ids: seq<nat>, attack: U16, health: U16)
    ensures OneEach(RaiseTasks(ids, attack, health), ids, ToRaise(attack, health))
  {
    if ids != [] {
      OneRaiseEach(ids[1..], attack, health);
    }
  }

  lemma {:induction false} OneGrantEach(ids: seq<nat>, ability: Ability)
    ensures OneEach(GrantTasks(ids, ability), ids, ToGrant(ability))
  {
    if ids != [] {
      OneGrantEach(ids[1..], ability);
    }
  }

  lemma OrderedDiffer(board: seq<ShopEmo>, ids: seq<nat>)
    requires DistinctIds(board) && InBoardOrder(board, ids)
    ensures Different(ids)
  {
    forall a, b | 0 <= a < b < |ids| ensures ids[a] != ids[b] {
      assert LeftOf(board, ids[a], ids[b]);
    }
  }

  lemma ChangedHere(s: State, s': State, ids: seq<nat>, at: set<nat>, change: Change)
    requires ChangedIds(s, s', SetOf(ids), change) && forall j: nat :: j < |s.board| ==> (s.board[j].id in ids <==> j in at)
    ensures Changed(s, s', at, change)
  {
  }

  lemma SpreadChanges(s: State, s1: State, t: Task, ts: seq<Task>, ids: seq<nat>, at: set<nat>, make: nat -> Task, change: Change,
                      bases: Bases)
    requires Step(s, t, bases) == Some((s1, ts)) && Makes(make, change, bases) && KeepsIds(change) && OneEach(ts, ids, make)
    requires DistinctIds(s1.board) && Different(ids) && OnBoards(s1.board, ids)
    requires forall j: nat :: j < |s1.board| ==> (s1.board[j].id in ids <==> j in at)
    ensures var r := Run([t], s, bases); r.Some? && Changed(s1, r.value, at, change)
  {
    hide Step;
    hide Run;
    hide Makes;
    hide OnBoards;
    hide Changed;
    RunOne(t, s, bases);
    ChangesAll(ts, ids, make, change, s1, bases);
    ChangedHere(s1, Run(ts, s1, bases).value, ids, at, change);
  }

  // ----- whom an action reaches -----

  /** A board of known bases with different ids, and an actor that stands on it or has left it. */
  ghost predicate Ready(board: seq<ShopEmo>, ptr: Pointer, bases: Bases) {
    && DistinctIds(board) && (forall e :: e in board ==> e.baseId in bases) && Placed(board, ptr)
    && (ptr.Removed? ==> ptr.emo.baseId in bases)
  }

  /** Where the actor stands or stood. */
  ghost predicate StandsAt(board: seq<ShopEmo>, ptr: Pointer, k: nat) {
    match ptr
    case OnBoard(id) => k < |board| && board[k].id == id
    case Removed(_, prevIndex) => k == prevIndex
  }

  predicate Means(ptr: Pointer, k: nat, target: Target, j: nat) {
    match target
    case Oneself => ptr.OnBoard? && j == k
    case Others(destination, _) => Reaches(destination, k, ptr.Removed?, j)
  }

  /** The places of the emos that the target of an ability describes, seen from the place of the actor. */
  ghost predicate Reached(board: seq<ShopEmo>, ptr: Pointer, k: nat, target: Target, bases: Bases, at: set<nat>) {
    forall j: nat :: j in at <==>
      j < |board| && Means(ptr, k, target, j) && (target.Others? ==> Meets(board[j], target.cond, bases))
  }

  /** The left neighbour of an emo that was sold from beyond the present end of the board. */
  predicate Astray(board: seq<ShopEmo>, k: nat, target: Target) { target.Others? && target.destination == Left && k > |board| }

  lemma TargetsReach(board: seq<ShopEmo>, ptr: Pointer, k: nat, target: Target, bases: Bases) returns (ids: seq<nat>, at: set<nat>)
    requires Ready(board, ptr, bases) && StandsAt(board, ptr, k)
    ensures Reached(board, ptr, k, target, bases, at)
    ensures TargetIds(board, ptr, target, bases) == if Astray(board, k, target) then None else Some(ids)
    ensures !Astray(board, k, target) ==>
              Different(ids) && OnBoards(board, ids) && forall j: nat :: j < |board| ==> (board[j].id in ids <==> j in at)
  {
    hide TargetIds;
    hide InBoardOrder;
    hide OnBoards;
    hide Meets;
    ids, at := [], set j: nat | j < |board| && Means(ptr, k, target, j) && (target.Others? ==> Meets(board[j], target.cond, bases));
    IndexOfActor(board, ptr, k);
    TargetsAreExact(board, ptr, target, bases);
    if !Astray(board, k, target) {
      ids := TargetIds(board, ptr, target, bases).value;
      OrderedDiffer(board, ids);
    }
  }

  lemma IndexOfActor(board: seq<ShopEmo>, ptr: Pointer, k: nat)
    requires DistinctIds(board) && StandsAt(board, ptr, k)
    ensures PointedIndex(board, ptr) == Some(k)
    ensures PointedEmo(board, ptr) == Some(if ptr.Removed? then ptr.emo else board[k])
  {
    if ptr.OnBoard? {
      FoundWhereItIs(board, k);
    }
  }

  // ----- raising -----

  /** The whole course of an action: an error, or these emos changed. */
  ghost predicate Does(s: State, t: Task, fails: bool, at: set<nat>, change: Change, bases: Bases) {
    var r := Run([t], s, bases);
    if fails then r.None? else r.Some? && Changed(s, r.value, at, change)
  }

  lemma RaisesReached(s: State, t: Task, target: Target, ptr: Pointer, k: nat, attack: U16, health: U16, bases: Bases)
    returns (at: set<nat>)
    requires Ready(s.board, ptr, bases) && StandsAt(s.board, ptr, k)
    requires var ids := TargetIds(s.board, ptr, target, bases);
             Step(s, t, bases) == if ids.None? then None else Some((s, RaiseTasks(ids.value, attack, health)))
    ensures Reached(s.board, ptr, k, target, bases, at)
    ensures Does(s, t, Astray(s.board, k, target), at, Raised(attack, health), bases)
  {
    hide Step;
    hide Run;
    hide TargetIds;
    hide Makes;
    hide OnBoards;
    hide Different;
    hide Reached;
    hide Changed;
    var ids;
    ids, at := TargetsReach(s.board, ptr, k, target, bases);
    RunOne(t, s, bases);
    if !Astray(s.board, k, target) {
      RaisingChanges(attack, health, bases);
      OneRaiseEach(ids, attack, health);
      SpreadChanges(s, s, t, RaiseTasks(ids, attack, health), ids, at, ToRaise(attack, health), Raised(attack, health), bases);
    }
  }

  /** Every emo that the target describes has so much more attack and health, twice as much from a triple, and no more
      than 65535. */
  lemma RaiseReaches(s: State, ptr: Pointer, k: nat, target: Target, attack: U16, health: U16, isTriple: bool, bases: Bases)
    returns (at: set<nat>)
    requires Ready(s.board, ptr, bases) && StandsAt(s.board, ptr, k)
    ensures Reached(s.board, ptr, k, target, bases, at)
    ensures Does(s, Act(IncreaseStats(target, attack, health), ptr, isTriple), Astray(s.board, k, target), at,
                 Raised(TwiceIf(isTriple, attack), TwiceIf(isTriple, health)), bases)
  {
    hide TargetIds;
    at := RaisesReached(s, Act(IncreaseStats(target, attack, health), ptr, isTriple), target, ptr, k, DoubleIf(isTriple, attack),
                        DoubleIf(isTriple, health), bases);
  }

  function Times(isTriple: bool, n: U16, factor: nat): (r: U16)
    ensures r == Min(65535, TwiceIf(isTriple, n) * factor)
  {
    Sat16(DoubleIf(isTriple, n) * factor)
  }

  /** So much more for every grade of the actor's base. */
  lemma RaiseByGradeReaches(s: State, ptr: Pointer, k: nat, target: Target, attack: U16, health: U16, isTriple: bool, bases: Bases)
    returns (at: set<nat>)
    requires Ready(s.board, ptr, bases) && StandsAt(s.board, ptr, k)
    ensures Reached(s.board, ptr, k, target, bases, at)
    ensures var actor := if ptr.Removed? then ptr.emo else s.board[k];
            && actor.baseId in bases
            && var grade := bases[actor.baseId].grade;
               Does(s, Act(IncreaseStatsByGrade(target, attack, health), ptr, isTriple), Astray(s.board, k, target), at,
                    Raised(Min(65535, TwiceIf(isTriple, attack) * grade), Min(65535, TwiceIf(isTriple, health) * grade)), bases)
  {
    hide TargetIds;
    IndexOfActor(s.board, ptr, k);
    var actor := if ptr.Removed? then ptr.emo else s.board[k];
    var grade: nat := bases[actor.baseId].grade;
    var a, h := Times(isTriple, attack, grade), Times(isTriple, health, grade);
    at := RaisesReached(s, Act(IncreaseStatsByGrade(target, attack, health), ptr, isTriple), target, ptr, k, a, h, bases);
  }

  // ----- counting -----

  /** All the others that meet the condition. */
  ghost function Counted(board: seq<ShopEmo>, ptr: Pointer, k: nat, cond: Cond, bases: Bases): nat {
    |set j: nat | j < |board| && (ptr.Removed? || j != k) && Meets(board[j], cond, bases)|
  }

  lemma {:induction false} CountFrom(board: seq<ShopEmo>, m: nat, id: nat, cond: Cond, bases: Bases)
    requires m <= |board| && forall e :: e in board ==> e.baseId in bases
    ensures CountOthers(board[m..], id, cond, bases)
         == Some(|set j: nat | m <= j < |board| && board[j].id != id && Meets(board[j], cond, bases)|)
    decreases |board| - m
  {
    hide Meets;
    var here := set j: nat | m <= j < |board| && board[j].id != id && Meets(board[j], cond, bases);
    if m == |board| {
      assert here == {};
    } else {
      CountFrom(board, m + 1, id, cond, bases);
      var rest := set j: nat | m + 1 <= j < |board| && board[j].id != id && Meets(board[j], cond, bases);
      CountOne(board, m, id, cond, bases);
      assert here == (if board[m].id != id && Meets(board[m], cond, bases) then {m} else {}) + rest;
    }
  }

  lemma CountOne(board: seq<ShopEmo>, m: nat, id: nat, cond: Cond, bases: Bases)
    requires m < |board| && forall e :: e in board ==> e.baseId in bases
    ensures var rest := CountOthers(board[m + 1..], id, cond, bases);
            CountOthers(board[m..], id, cond, bases)
            == if rest.None? then None
               else Some(rest.value + if board[m].id != id && Meets(board[m], cond, bases) then 1 else 0)
  {
    assert board[m..][1..] == board[m + 1..] && board[m] in board;
  }

  lemma CountIs(board: seq<ShopEmo>, ptr: Pointer, k: nat, cond: Cond, bases: Bases)
    requires Ready(board, ptr, bases) && StandsAt(board, ptr, k)
    ensures CountOthers(board, PointedId(ptr), cond, bases) == Some(Counted(board, ptr, k, cond, bases))
  {
    assert board[0..] == board;
    CountFrom(board, 0, PointedId(ptr), cond, bases);
    assert forall j: nat :: j < |board| ==> board[j] in board;
    assert (set j: nat | j < |board| && (ptr.Removed? || j != k) && Meets(board[j], cond, bases))
        == set j: nat | 0 <= j < |board| && board[j].id != PointedId(ptr) && Meets(board[j], cond, bases);
  }

  lemma CountStep(s: State, ptr: Pointer, target: Target, cond: Cond, attack: U16, health: U16, isTriple: bool, count: nat, bases: Bases)
    requires CountOthers(s.board, PointedId(ptr), cond, bases) == Some(count)
    ensures var ids := TargetIds(s.board, ptr, target, bases);
            Step(s, Act(IncreaseStatsByEmoCount(target, cond, attack, health), ptr, isTriple), bases)
            == if ids.None? then None
               else Some((s, RaiseTasks(ids.value, Times(isTriple, attack, count), Times(isTriple, health, count))))
  {
  }

  /** So much more for every other emo that meets a condition. */
  lemma RaiseByCountReaches(s: State, ptr: Pointer, k: nat, target: Target, cond: Cond, attack: U16, health: U16, isTriple: bool,
                            bases: Bases) returns (at: set<nat>)
    requires Ready(s.board, ptr, bases) && StandsAt(s.board, ptr, k)
    ensures Reached(s.board, ptr, k, target, bases, at)
    ensures var count := Counted(s.board, ptr, k, cond, bases);
            Does(s, Act(IncreaseStatsByEmoCount(target, cond, attack, health), ptr, isTriple), Astray(s.board, k, target), at,
                 Raised(Min(65535, TwiceIf(isTriple, attack) * count), Min(65535, TwiceIf(isTriple, health) * count)), bases)
  {
    var count := Counted(s.board, ptr, k, cond, bases);
    CountIs(s.board, ptr, k, cond, bases);
    hide Counted;
    var a, h := Times(isTriple, attack, count), Times(isTriple, health, count);
    CountStep(s, ptr, target, cond, attack, health, isTriple, count, bases);
    hide Step;
    hide Reached;
    hide Does;
    hide Ready;
    at := RaisesReached(s, Act(IncreaseStatsByEmoCount(target, cond, attack, health), ptr, isTriple), target, ptr, k, a, h, bases);
  }

  // ----- granting -----

  /** Every emo that the target describes has the ability now; triples grant it once. */
  lemma GrantReaches(s: State, ptr: Pointer, k: nat, target: Target, ability: Ability, isTriple: bool, bases: Bases)
    returns (at: set<nat>)
    requires Ready(s.board, ptr, bases) && StandsAt(s.board, ptr, k)
    ensures Reached(s.board, ptr, k, target, bases, at)
    ensures Does(s, Act(AddAbility(target, ability), ptr, isTriple), Astray(s.board, k, target), at, Granted(ability), bases)
  {
    hide TargetIds;
    hide Makes;
    hide OnBoards;
    hide Different;
    hide Reached;
    hide Changed;
    var t := Act(AddAbility(target, ability), ptr, isTriple);
    var ids;
    ids, at := TargetsReach(s.board, ptr, k, target, bases);
    RunOne(t, s, bases);
    if !Astray(s.board, k, target) {
      GrantingChanges(ability, bases);
      OneGrantEach(ids, ability);
      SpreadChanges(s, s, t, GrantTasks(ids, ability), ids, at, ToGrant(ability), Granted(ability), bases);
    }
  }

  // ----- the neighbours -----

  /** The left neighbour, and the right one unless it is of the typ of the left one. */
  ghost predicate Neighbours(board: seq<ShopEmo>, ptr: Pointer, k: nat, bases: Bases, at: set<nat>)
    requires forall e :: e in board ==> e.baseId in bases
  {
    forall j: nat :: j in at <==>
      && j < |board|
      && (|| j + 1 == k
          || (&& j == (if ptr.Removed? then k else k + 1)
              && (0 < k <= |board| ==> bases[board[j].baseId].typ != bases[board[k - 1].baseId].typ)))
  }

  lemma TypIs(board: seq<ShopEmo>, i: nat, bases: Bases)
    requires DistinctIds(board) && i < |board| && forall e :: e in board ==> e.baseId in bases
    ensures FindEmo(board, board[i].id) == Some(board[i]) && TypOf(board, board[i].id, bases) == Some(bases[board[i].baseId].typ)
  {
    FoundWhereItIs(board, i);
    assert board[i] in board;
  }

  lemma SidesAre(board: seq<ShopEmo>, ptr: Pointer, k: nat)
    requires DistinctIds(board) && StandsAt(board, ptr, k)
    ensures var r := if ptr.Removed? then k else k + 1; RightId(board, ptr) == Some(if r < |board| then Some(board[r].id) else None)
    ensures LeftId(board, ptr) == if k == 0 then Some(None) else if k <= |board| then Some(Some(board[k - 1].id)) else None
  {
    IndexOfActor(board, ptr, k);
  }

  ghost predicate Differs(board: seq<ShopEmo>, k: nat, r: nat, bases: Bases)
    requires forall e :: e in board ==> e.baseId in bases
  {
    r < |board| && (0 < k <= |board| ==> bases[board[r].baseId].typ != bases[board[k - 1].baseId].typ)
  }

  lemma AdjacentAre(board: seq<ShopEmo>, ptr: Pointer, k: nat, bases: Bases)
    requires Ready(board, ptr, bases) && StandsAt(board, ptr, k)
    ensures var r := if ptr.Removed? then k else k + 1;
            AdjacentIds(board, ptr, bases)
            == if k > |board| then None
               else Some((if k > 0 then [board[k - 1].id] else []) + if Differs(board, k, r, bases) then [board[r].id] else [])
  {
    hide TypOf;
    hide LeftId;
    hide RightId;
    hide FindEmo;
    SidesAre(board, ptr, k);
    if k <= |board| {
      var r := if ptr.Removed? then k else k + 1;
      if k > 0 {
        TypIs(board, k - 1, bases);
      }
      if r < |board| {
        TypIs(board, r, bases);
      }
    }
  }

  lemma NeighboursAre(board: seq<ShopEmo>, ptr: Pointer, k: nat, bases: Bases) returns (ids: seq<nat>, at: set<nat>)
    requires Ready(board, ptr, bases) && StandsAt(board, ptr, k)
    ensures AdjacentIds(board, ptr, bases) == if k > |board| then None else Some(ids)
    ensures k <= |board| ==> Neighbours(board, ptr, k, bases, at)
    ensures k <= |board| ==>
              Different(ids) && OnBoards(board, ids) && forall j: nat :: j < |board| ==> (board[j].id in ids <==> j in at)
  {
    hide AdjacentIds;
    ids, at := [], {};
    AdjacentAre(board, ptr, k, bases);
    if k <= |board| {
      var r := if ptr.Removed? then k else k + 1;
      ids := AdjacentIds(board, ptr, bases).value;
      at := (if k > 0 then {k - 1} else {}) + if Differs(board, k, r, bases) then {r} else {};
    }
  }

  lemma AdjacentReaches(s: State, ptr: Pointer, k: nat, attack: U16, health: U16, isTriple: bool, bases: Bases) returns (at: set<nat>)
    requires Ready(s.board, ptr, bases) && StandsAt(s.board, ptr, k)
    ensures k <= |s.board| ==> Neighbours(s.board, ptr, k, bases, at)
    ensures Does(s, Act(IncreaseStatsOfAdjacentMenagerie(attack, health), ptr, isTriple), k > |s.board|, at,
                 Raised(TwiceIf(isTriple, attack), TwiceIf(isTriple, health)), bases)
  {
    hide AdjacentIds;
    hide Makes;
    hide OnBoards;
    hide Different;
    hide Neighbours;
    hide Changed;
    var t := Act(IncreaseStatsOfAdjacentMenagerie(attack, health), ptr, isTriple);
    var a, h := DoubleIf(isTriple, attack), DoubleIf(isTriple, health);
    var ids;
    ids, at := NeighboursAre(s.board, ptr, k, bases);
    RunOne(t, s, bases);
    if k <= |s.board| {
      RaisingChanges(a, h, bases);
      OneRaiseEach(ids, a, h);
      SpreadChanges(s, s, t, RaiseTasks(ids, a, h), ids, at, ToRaise(a, h), Raised(a, h), bases);
    }
  }

  // ----- coins -----

  /** Coins are doubled by a triple, and no action earns more than 255. */
  lemma CoinsAre(s: State, ptr: Pointer, coin: U8, isTriple: bool, bases: Bases)
    ensures Run([Act(GetCoin(coin), ptr, isTriple)], s, bases)
         == Some(s.(earned := s.earned + if isTriple then Min(255, 2 * coin) else coin))
  {
    RunOne(Act(GetCoin(coin), ptr, isTriple), s, bases);
  }

  function CoinsFor(count: nat, divisor: nat, isTriple: bool): nat
    requires divisor > 0
  {
    Min(255, if isTriple then 2 * (count / divisor) else count / divisor)
  }

  lemma EarningIs(s: State, count: nat, cond: Cond, divisor: U8, ptr: Pointer, isTriple: bool, bases: Bases)
    requires CountOthers(s.board, PointedId(ptr), cond, bases) == Some(count)
    ensures var r := EarnByCount(s, cond, divisor, ptr, isTriple, bases);
            if divisor == 0 then r.None? else r == Some(s.(earned := s.earned + CoinsFor(count, divisor, isTriple)))
  {
    hide CountOthers;
  }

  /** One coin for every so many others that meet the condition. */
  lemma CoinsByCountAre(s: State, ptr: Pointer, k: nat, cond: Cond, divisor: U8, isTriple: bool, bases: Bases)
    requires Ready(s.board, ptr, bases) && StandsAt(s.board, ptr, k)
    ensures var count, r := Counted(s.board, ptr, k, cond, bases), Run([Act(GetCoinByEmoCountDiv(cond, divisor), ptr, isTriple)], s, bases);
            if divisor == 0 then r.None? else r == Some(s.(earned := s.earned + CoinsFor(count, divisor, isTriple)))
  {
    CountIs(s.board, ptr, k, cond, bases);
    EarningIs(s, Counted(s.board, ptr, k, cond, bases), cond, divisor, ptr, isTriple, bases);
    hide Counted;
    hide CoinsFor;
    hide EarnByCount;
    RunOne(Act(GetCoinByEmoCountDiv(cond, divisor), ptr, isTriple), s, bases);
  }
}
