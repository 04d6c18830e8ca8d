/** Damage to a whole board can leave a stale index behind: two emos of the game's own table, standing together, make a march
    of legal boards an error in its first tick. */
module BattleStale {
  import opened Types
  import opened Rng
  import opened Battle
  import opened BattleLaws
  import opened March
  import Organizer
  import OrganizerLaws

  // ----- the two emos -----

  const ANY: Cond := Cond(None, None)
  const HIT_RIVALS := DamageAll(Rival, 30)
  const HIT_ALLIES := DamageAll(Ally, 30)
  const ECHO := GeneralAlly(AtAllyRetireAsAlly(ANY), TriggerRetireActions)

  /** When an ally retires it performs that ally's retire actions. */
  const ECHOER: Base := Base(37, Food, 5, 10, 50, [Ability.Battle(ECHO)])

  /** When it retires it damages both boards. */
  const BURSTER: Base := Base(40, Nature, 6, 20, 30, [Ability.Battle(GeneralSelf(AtRetire, HIT_RIVALS)),
                                                      Ability.Battle(GeneralSelf(AtRetire, HIT_ALLIES))])

  ghost predicate Known(bases: Bases) { 37 in bases && bases[37] == ECHOER && 40 in bases && bases[40] == BURSTER }

  ghost predicate IsEchoer(e: Fighter) {
    e.attr.abilities == ECHOER.abilities && !e.attr.isTriple
  }

  ghost predicate IsBurster(e: Fighter) {
    e.attr.abilities == BURSTER.abilities && !e.attr.isTriple
  }

  lemma AbilitiesOfEchoer(e: Fighter)
    requires IsEchoer(e)
    ensures BattleOf(e.attr.abilities) == [ECHO] && IndexOfAbility(e.attr.abilities, SHIELD).None?
  {
    var abilities := ECHOER.abilities;
    assert abilities[1..] == [];
  }

  lemma AbilitiesOfBurster(e: Fighter)
    requires IsBurster(e)
    ensures BattleOf(e.attr.abilities) == [GeneralSelf(AtRetire, HIT_RIVALS)] + [GeneralSelf(AtRetire, HIT_ALLIES)]
    ensures IndexOfAbility(e.attr.abilities, SHIELD).None?
  {
    var abilities := BURSTER.abilities;
    assert BattleOf(abilities[1..]) == [GeneralSelf(AtRetire, HIT_ALLIES)] by {
      assert abilities[1..][1..] == [];
    }
  }

  // ----- single steps -----

  function Struck(p: Player, side: Side): Player { if side == Ally then p else Other(p) }

  /** A damage to a whole board, performed for the burster. */
  lemma Burst(side: Side, x: Fighter, rest: seq<Task>, s: State, n: nat, bases: Bases)
    requires !x.attr.isTriple && n >= 2
    ensures var q := Struck(Zero, side);
            Eval([ActAsOneself(Zero, DamageAll(side, 30), 0, Some(x))] + rest, s, n, bases)
            == Eval(DamageTasks(q, Ids(s.At(q)), 30) + rest, s, n - 2, bases)
  {
    hide Eval;
    var q, act := Struck(Zero, side), Act(Zero, DamageAll(side, 30), 0, Some(x), false);
    Unfold(ActAsOneself(Zero, DamageAll(side, 30), 0, Some(x)), rest, s, n, bases, s, [act]);
    assert s.(tape := s.tape) == s;
    Unfold(act, rest, s, n - 1, bases, s, DamageTasks(q, Ids(s.At(q)), 30));
  }

  lemma {:induction false} IdAt(board: seq<Fighter>, i: nat)
    requires i < |board| && forall j :: 0 <= j < i ==> board[j].id != board[i].id
    ensures IndexOfId(board, board[i].id) == Some(i)
  {
    if i > 0 {
      IdAt(board[1..], i - 1);
    }
  }

  function Weakened(e: Fighter, damage: U16): Fighter { e.(attr := e.attr.(health := Less16(e.attr.health, damage))) }

  lemma HitAt(q: Player, i: nat, damage: U16, counted: bool, rest: seq<Task>, s: State, n: nat, bases: Bases) returns (s': State)
    requires i < |s.At(q)| && n > 0 && damage > 0 && !counted
    requires IsEchoer(s.At(q)[i]) && s.At(q)[i].attr.health > damage
    ensures s'.At(q) == s.At(q)[i := Weakened(s.At(q)[i], damage)] && s'.At(Other(q)) == s.At(Other(q))
    ensures Eval([DamageAt(q, i, damage, counted)] + rest, s, n, bases) == Eval(rest, s', n - 1, bases)
  {
    hide Eval;
    AbilitiesOfEchoer(s.At(q)[i]);
    s' := Step(s, DamageAt(q, i, damage, counted), bases).value.0;
    Unfold(DamageAt(q, i, damage, counted), rest, s, n, bases, s', []);
    assert [] + rest == rest;
  }

  lemma KillAt(q: Player, i: nat, damage: U16, rest: seq<Task>, s: State, n: nat, bases: Bases) returns (s': State)
    requires i < |s.At(q)| && n > 0 && damage > 0
    requires IsEchoer(s.At(q)[i]) && s.At(q)[i].attr.health <= damage
    ensures s'.At(q) == s.At(q)[..i] + s.At(q)[i + 1..] && s'.At(Other(q)) == s.At(Other(q))
    ensures var e := s.At(q)[i];
            Eval([DamageAt(q, i, damage, false)] + rest, s, n, bases)
            == Eval([RetireAllies(q, i, e), RetireRivals(q, e)] + rest, s', n - 1, bases)
  {
    hide Eval;
    var e := s.At(q)[i];
    AbilitiesOfEchoer(e);
    assert RetireTasks([ECHO], q, i, Some(e), false) == [] by {
      assert [ECHO][1..] == [];
    }
    hide BattleOf;
    hide RetireTasks;
    s' := Step(s, DamageAt(q, i, damage, false), bases).value.0;
    assert [] + [RetireAllies(q, i, e), RetireRivals(q, e)] == [RetireAllies(q, i, e), RetireRivals(q, e)];
    Unfold(DamageAt(q, i, damage, false), rest, s, n, bases, s', [RetireAllies(q, i, e), RetireRivals(q, e)]);
  }

  /** An emo is looked up by its id before it is damaged. */
  lemma LookUp(q: Player, i: nat, rest: seq<Task>, s: State, n: nat, bases: Bases)
    requires i < |s.At(q)| && n > 0 && forall j :: 0 <= j < i ==> s.At(q)[j].id != s.At(q)[i].id
    ensures Eval([DamageId(q, s.At(q)[i].id, 30)] + rest, s, n, bases) == Eval([DamageAt(q, i, 30, false)] + rest, s, n - 1, bases)
  {
    hide Eval;
    IdAt(s.At(q), i);
    Unfold(DamageId(q, s.At(q)[i].id, 30), rest, s, n, bases, s, [DamageAt(q, i, 30, false)]);
  }

  // ----- reactions of echoers -----

  lemma EchoersOnly(board: seq<Fighter>, from: nat)
    requires forall e :: e in board ==> IsEchoer(e)
    ensures |BoardAbilities(board, from)| == |board|
    ensures forall k :: 0 <= k < |board| ==> BoardAbilities(board, from)[k] == (from + k, ECHO)
  {
    if board != [] {
      assert board[0] in board;
      AbilitiesOfEchoer(board[0]);
      EchoersOnly(board[1..], from + 1);
      assert [ECHO][1..] == [] && Numbered([ECHO], from) == [(from, ECHO)];
      hide BattleOf;
      assert forall k :: 0 < k < |board| ==> BoardAbilities(board, from)[k] == BoardAbilities(board[1..], from + 1)[k - 1];
    }
  }

  lemma {:induction false} NoReaction(event: Event, abilities: seq<(nat, BattleAbility)>, p: Player, i: nat, emo: Fighter)
    requires event != AllyRetired && event != AllySet && forall k :: 0 <= k < |abilities| ==> abilities[k].1 == ECHO
    ensures React(event, abilities, p, i, emo) == []
  {
    if abilities != [] {
      NoReaction(event, abilities[1..], p, i, emo);
    }
  }

  /** Rivals that are echoers do not react to a retirement. */
  lemma RivalsWatch(q: Player, e: Fighter, rest: seq<Task>, s: State, n: nat, bases: Bases)
    requires n > 0 && forall x :: x in s.At(Other(q)) ==> IsEchoer(x)
    ensures Eval([RetireRivals(q, e)] + rest, s, n, bases) == Eval(rest, s, n - 1, bases)
  {
    hide Eval;
    EchoersOnly(s.At(Other(q)), 0);
    NoReaction(OnRivalRetired, BoardAbilities(s.At(Other(q)), 0), Other(q), 0, e);
    Unfold(RetireRivals(q, e), rest, s, n, bases, s, []);
    assert [] + rest == rest;
  }

  lemma NobodyLeft(q: Player, i: nat, e: Fighter, rest: seq<Task>, s: State, n: nat, bases: Bases)
    requires n > 0 && s.At(q) == []
    ensures Eval([RetireAllies(q, i, e)] + rest, s, n, bases) == Eval(rest, s, n - 1, bases)
  {
    hide Eval;
    assert BoardAbilities(s.At(q), 0) == [];
    var none: seq<Task> := [];
    assert React(AllyRetired, [], q, i, e) == none && React(OnAllyRetired, [], q, i, e) == none && none + none == none;
    assert Step(s, RetireAllies(q, i, e), bases) == Some((s, none));
    Unfold(RetireAllies(q, i, e), rest, s, n, bases, s, []);
    assert [] + rest == rest;
  }

  function Echo(e: Fighter, owner: nat): Task { ActAsAlly(Zero, TriggerRetireActions, 0, Some(e), owner) }

  lemma OneEcho(e: Fighter)
    ensures React(AllyRetired, [(0, ECHO)], Zero, 0, e) == [Echo(e, 0)]
  {
    assert [(0, ECHO)][1..] == [];
    assert ReactOne(AllyRetired, 0, ECHO, Zero, 0, e) == [Echo(e, 0)];
    assert [Echo(e, 0)] + [] == [Echo(e, 0)];
  }

  lemma TwoEchoes(e: Fighter)
    ensures React(AllyRetired, [(0, ECHO), (1, ECHO)], Zero, 0, e) == [Echo(e, 0), Echo(e, 1)]
  {
    assert [(0, ECHO), (1, ECHO)][1..] == [(1, ECHO)] && [(1, ECHO)][1..] == [];
    assert ReactOne(AllyRetired, 0, ECHO, Zero, 0, e) == [Echo(e, 0)];
    assert ReactOne(AllyRetired, 1, ECHO, Zero, 0, e) == [Echo(e, 1)];
    assert React(AllyRetired, [(1, ECHO)], Zero, 0, e) == [Echo(e, 1)];
  }

  lemma AlliesEcho(e: Fighter, rest: seq<Task>, s: State, n: nat, bases: Bases)
    requires n > 0 && 1 <= |s.zero| <= 2 && forall x :: x in s.zero ==> IsEchoer(x)
    ensures Eval([RetireAllies(Zero, 0, e)] + rest, s, n, bases)
         == Eval((if |s.zero| == 1 then [Echo(e, 0)] else [Echo(e, 0), Echo(e, 1)]) + rest, s, n - 1, bases)
  {
    hide Eval;
    var abilities := BoardAbilities(s.zero, 0);
    EchoersOnly(s.zero, 0);
    NoReaction(OnAllyRetired, abilities, Zero, 0, e);
    OneEcho(e);
    TwoEchoes(e);
    assert abilities == if |s.zero| == 1 then [(0, ECHO)] else [(0, ECHO), (1, ECHO)];
    var more := if |s.zero| == 1 then [Echo(e, 0)] else [Echo(e, 0), Echo(e, 1)];
    hide BoardAbilities;
    hide React;
    assert more + [] == more;
    Unfold(RetireAllies(Zero, 0, e), rest, s, n, bases, s, more);
  }

  /** The retirement of an echoer gives its allies nothing to perform. */
  lemma EchoOfEchoer(e: Fighter, rest: seq<Task>, s: State, n: nat, bases: Bases)
    requires n > 0 && IsEchoer(e) && s.zero != []
    ensures Eval([Echo(e, 0)] + rest, s, n, bases) == Eval(rest, s, n - 1, bases)
  {
    hide Eval;
    AbilitiesOfEchoer(e);
    assert [ECHO][1..] == [];
    assert RetireTasks([ECHO], Zero, 0, Some(e), s.zero[0].attr.isTriple) == [];
    Unfold(Echo(e, 0), rest, s, n, bases, s, []);
    assert [] + rest == rest;
  }

  /** The retirement of the burster gives its allies the two damages to perform. */
  lemma RetireTasksOfBurster(x: Fighter)
    requires IsBurster(x)
    ensures RetireTasks(BattleOf(x.attr.abilities), Zero, 0, Some(x), false)
         == [ActAsOneself(Zero, HIT_RIVALS, 0, Some(x))] + [ActAsOneself(Zero, HIT_ALLIES, 0, Some(x))]
  {
    AbilitiesOfBurster(x);
    var first, second := ActAsOneself(Zero, HIT_RIVALS, 0, Some(x)), ActAsOneself(Zero, HIT_ALLIES, 0, Some(x));
    var own := BattleOf(x.attr.abilities);
    assert own[1..] == [GeneralSelf(AtRetire, HIT_ALLIES)] && own[1..][1..] == [];
    assert Repeat(first, 1) == [first] && Repeat(second, 1) == [second];
    assert RetireTasks(own[1..], Zero, 0, Some(x), false) == [second];
  }

  lemma EchoOfBurster(x: Fighter, rest: seq<Task>, s: State, n: nat, bases: Bases)
    requires n > 0 && IsBurster(x) && s.zero != [] && !s.zero[0].attr.isTriple
    ensures Eval([Echo(x, 0)] + rest, s, n, bases)
         == Eval([ActAsOneself(Zero, HIT_RIVALS, 0, Some(x))] + ([ActAsOneself(Zero, HIT_ALLIES, 0, Some(x))] + rest), s, n - 1, bases)
  {
    hide Eval;
    RetireTasksOfBurster(x);
    var first, second := ActAsOneself(Zero, HIT_RIVALS, 0, Some(x)), ActAsOneself(Zero, HIT_ALLIES, 0, Some(x));
    hide RetireTasks;
    hide BattleOf;
    Unfold(Echo(x, 0), rest, s, n, bases, s, [first] + [second]);
    assert ([first] + [second]) + rest == [first] + ([second] + rest);
  }

  // ----- the march -----

  /** Damage to the rivals' single emo kills it. */
  lemma RivalDies(x: Fighter, rest: seq<Task>, s: State, n: nat, bases: Bases) returns (s': State)
    requires IsBurster(x) && n >= 6 && |s.one| == 1 && IsEchoer(s.one[0]) && s.one[0].attr.health <= 30
    requires forall e :: e in s.zero ==> IsEchoer(e)
    ensures s'.zero == s.zero && s'.one == []
    ensures Eval([ActAsOneself(Zero, HIT_RIVALS, 0, Some(x))] + rest, s, n, bases) == Eval(rest, s', n - 6, bases)
  {
    hide Eval;
    hide IsEchoer;
    var k := s.one[0];
    Burst(Rival, x, rest, s, n, bases);
    assert Ids(s.one) == [k.id] && DamageTasks(One, [k.id], 30) == [DamageId(One, k.id, 30)];
    LookUp(One, 0, rest, s, n - 2, bases);
    s' := KillAt(One, 0, 30, rest, s, n - 3, bases);
    assert s'.one == [];
    assert [RetireAllies(One, 0, k), RetireRivals(One, k)] + rest == [RetireAllies(One, 0, k)] + ([RetireRivals(One, k)] + rest);
    NobodyLeft(One, 0, k, [RetireRivals(One, k)] + rest, s', n - 4, bases);
    RivalsWatch(One, k, rest, s', n - 5, bases);
  }

  lemma NoRivals(x: Fighter, rest: seq<Task>, s: State, n: nat, bases: Bases)
    requires IsBurster(x) && n >= 2 && s.one == []
    ensures Eval([ActAsOneself(Zero, HIT_RIVALS, 0, Some(x))] + rest, s, n, bases) == Eval(rest, s, n - 2, bases)
  {
    hide Eval;
    Burst(Rival, x, rest, s, n, bases);
    assert Ids(s.one) == [] && DamageTasks(One, [], 30) + rest == rest;
  }

  lemma TwoTargets(s: State, rest: seq<Task>)
    requires |s.zero| == 2
    ensures DamageTasks(Zero, Ids(s.zero), 30) + rest == [DamageId(Zero, s.zero[0].id, 30)] + ([DamageId(Zero, s.zero[1].id, 30)] + rest)
  {
    var first, second := s.zero[0].id, s.zero[1].id;
    assert s.zero[1..][0] == s.zero[1] && s.zero[1..][1..] == [];
    assert Ids(s.zero[1..]) == [second] && Ids(s.zero) == [first] + [second];
    assert ([first] + [second])[1..] == [second] && [second][1..] == [];
    assert DamageTasks(Zero, [second], 30) == [DamageId(Zero, second, 30)];
  }

  ghost predicate Pair(s: State, health: U16) {
    && |s.zero| == 2 && s.zero[0].id != s.zero[1].id
    && (forall i :: 0 <= i < 2 ==> IsEchoer(s.zero[i]) && s.zero[i].attr.health == health)
  }

  /** The first damage to the allies leaves both of them weakened. */
  lemma BothWeakened(x: Fighter, rest: seq<Task>, s: State, n: nat, bases: Bases) returns (s': State)
    requires IsBurster(x) && n >= 6 && Pair(s, 50)
    ensures Pair(s', 20) && s'.one == s.one
    ensures Eval([ActAsOneself(Zero, HIT_ALLIES, 0, Some(x))] + rest, s, n, bases) == Eval(rest, s', n - 6, bases)
  {
    hide Eval;
    hide IsEchoer;
    var second := [DamageId(Zero, s.zero[1].id, 30)] + rest;
    Burst(Ally, x, rest, s, n, bases);
    TwoTargets(s, rest);
    LookUp(Zero, 0, second, s, n - 2, bases);
    var s1 := HitAt(Zero, 0, 30, false, second, s, n - 3, bases);
    WeakenedIsEchoer(s.zero[0]);
    LookUp(Zero, 1, rest, s1, n - 4, bases);
    s' := HitAt(Zero, 1, 30, false, rest, s1, n - 5, bases);
    WeakenedIsEchoer(s1.zero[1]);
  }

  lemma WeakenedIsEchoer(e: Fighter)
    requires IsEchoer(e)
    ensures IsEchoer(Weakened(e, 30))
  {
  }

  /** The second damage to the allies leaves nobody. */
  lemma BothDie(x: Fighter, rest: seq<Task>, s: State, n: nat, bases: Bases) returns (s': State)
    requires IsBurster(x) && n >= 11 && Pair(s, 20) && s.one == []
    ensures s'.zero == []
    ensures Eval([ActAsOneself(Zero, HIT_ALLIES, 0, Some(x))] + rest, s, n, bases) == Eval(rest, s', n - 11, bases)
  {
    hide Eval;
    hide IsEchoer;
    var t1, t2 := s.zero[0], s.zero[1];
    var second := [DamageId(Zero, t2.id, 30)] + rest;
    Burst(Ally, x, rest, s, n, bases);
    TwoTargets(s, rest);
    LookUp(Zero, 0, second, s, n - 2, bases);
    var s1 := KillAt(Zero, 0, 30, second, s, n - 3, bases);
    assert s1.zero == [t2];
    assert [RetireAllies(Zero, 0, t1), RetireRivals(Zero, t1)] + second == [RetireAllies(Zero, 0, t1)] + ([RetireRivals(Zero, t1)] + second);
    AlliesEcho(t1, [RetireRivals(Zero, t1)] + second, s1, n - 4, bases);
    EchoOfEchoer(t1, [RetireRivals(Zero, t1)] + second, s1, n - 5, bases);
    RivalsWatch(Zero, t1, second, s1, n - 6, bases);
    LookUp(Zero, 0, rest, s1, n - 7, bases);
    s' := KillAt(Zero, 0, 30, rest, s1, n - 8, bases);
    assert s'.zero == [];
    assert [RetireAllies(Zero, 0, t2), RetireRivals(Zero, t2)] + rest == [RetireAllies(Zero, 0, t2)] + ([RetireRivals(Zero, t2)] + rest);
    NobodyLeft(Zero, 0, t2, [RetireRivals(Zero, t2)] + rest, s', n - 9, bases);
    RivalsWatch(Zero, t2, rest, s', n - 10, bases);
  }

  /** What the retirement of the burster sets off beside two echoers: the first one repeats its damages, and nobody is left
      where the second one is looked for. */
  lemma RetirementFails(x: Fighter, rest: seq<Task>, s: State, n: nat, bases: Bases)
    requires IsBurster(x) && n >= 30 && Pair(s, 50) && |s.one| == 1 && IsEchoer(s.one[0]) && s.one[0].attr.health <= 30
    ensures Eval([ActAsOneself(Zero, HIT_RIVALS, 0, Some(x))]
                 + ([ActAsOneself(Zero, HIT_ALLIES, 0, Some(x))] + ([RetireAllies(Zero, 0, x)] + rest)), s, n, bases) == Failed
  {
    hide Eval;
    hide IsEchoer;
    hide IsBurster;
    var tail := [RetireAllies(Zero, 0, x)] + rest;
    assert forall e :: e in s.zero ==> e == s.zero[0] || e == s.zero[1];
    var s1 := RivalDies(x, [ActAsOneself(Zero, HIT_ALLIES, 0, Some(x))] + tail, s, n, bases);
    var s2 := BothWeakened(x, tail, s1, n - 6, bases);
    assert forall e :: e in s2.zero ==> e == s2.zero[0] || e == s2.zero[1];
    AlliesEcho(x, rest, s2, n - 12, bases);
    var last := [Echo(x, 1)] + rest;
    assert [Echo(x, 0), Echo(x, 1)] + rest == [Echo(x, 0)] + last;
    assert !s2.zero[0].attr.isTriple by {
      PlainEchoer(s2.zero[0]);
    }
    EchoOfBurster(x, last, s2, n - 13, bases);
    NoRivals(x, [ActAsOneself(Zero, HIT_ALLIES, 0, Some(x))] + last, s2, n - 14, bases);
    var s3 := BothDie(x, last, s2, n - 16, bases);
    NobodyEchoes(x, rest, s3, n - 27, bases);
  }

  lemma PlainEchoer(e: Fighter)
    requires IsEchoer(e)
    ensures !e.attr.isTriple
  {
  }

  lemma NobodyEchoes(x: Fighter, rest: seq<Task>, s: State, n: nat, bases: Bases)
    requires s.zero == [] && n > 0
    ensures Eval([Echo(x, 1)] + rest, s, n, bases) == Failed
  {
    assert Step(s, Echo(x, 1), bases).None?;
  }

  lemma PreIsEmpty(abilities: seq<(nat, BattleAbility)>, p: Player)
    requires forall k :: 0 <= k < |abilities| ==>
               abilities[k].1 == ECHO || (abilities[k].1.GeneralSelf? && abilities[k].1.trigger == AtRetire)
    ensures PreTasks(abilities, p) == []
  {
    if abilities != [] {
      PreIsEmpty(abilities[1..], p);
    }
  }

  lemma NothingBefore(s: State, x: Fighter, n: nat, bases: Bases)
    requires s.zero != [] && s.zero[0] == x && IsBurster(x) && forall i :: 0 < i < |s.zero| ==> IsEchoer(s.zero[i])
    requires forall e :: e in s.one ==> IsEchoer(e)
    ensures CallPre(s, Zero, n, bases) == Done(s, n) && CallPre(s, One, n, bases) == Done(s, n)
  {
    AbilitiesOfBurster(x);
    var own, rest := BattleOf(x.attr.abilities), s.zero[1..];
    EchoersOnly(rest, 1);
    EchoersOnly(s.one, 0);
    assert own[1..] == [GeneralSelf(AtRetire, HIT_ALLIES)] && own[1..][1..] == [];
    assert Numbered(own[1..], 0) == [(0, GeneralSelf(AtRetire, HIT_ALLIES))];
    assert Numbered(own, 0) == [(0, GeneralSelf(AtRetire, HIT_RIVALS))] + [(0, GeneralSelf(AtRetire, HIT_ALLIES))];
    assert BoardAbilities(s.zero, 0) == Numbered(own, 0) + BoardAbilities(rest, 1);
    PreIsEmpty(BoardAbilities(s.zero, 0), Zero);
    PreIsEmpty(BoardAbilities(s.one, 0), One);
  }

  lemma BursterRetires(x: Fighter, s: State, bases: Bases) returns (s': State)
    requires IsBurster(x) && x.attr.health == 30 && s.zero != [] && s.zero[0] == x
    ensures s'.zero == s.zero[1..] && s'.one == s.one
    ensures Step(s, DamageAt(Zero, 0, 30, true), bases)
         == Some((s', ([ActAsOneself(Zero, HIT_RIVALS, 0, Some(x))] + [ActAsOneself(Zero, HIT_ALLIES, 0, Some(x))])
                      + [RetireAllies(Zero, 0, x), RetireRivals(Zero, x)]))
  {
    AbilitiesOfBurster(x);
    RetireTasksOfBurster(x);
    hide RetireTasks;
    hide BattleOf;
    s' := Step(s, DamageAt(Zero, 0, 30, true), bases).value.0;
  }

  /** The attack of the burster is struck back, and it retires. */
  lemma BursterStruck(x: Fighter, s: State, n: nat, bases: Bases)
    requires IsBurster(x) && x.attr.health == 30 && n >= 32 && |s.zero| == 3 && s.zero[0] == x && Pair(s.(zero := s.zero[1..]), 50)
    requires |s.one| == 1 && IsEchoer(s.one[0]) && s.one[0].attr.health <= 30
    ensures Eval([StrikeBack(Zero, 0, 30)], s, n, bases) == Failed
  {
    hide Eval;
    hide IsEchoer;
    hide IsBurster;
    var first, second := ActAsOneself(Zero, HIT_RIVALS, 0, Some(x)), ActAsOneself(Zero, HIT_ALLIES, 0, Some(x));
    var more := ([first] + [second]) + [RetireAllies(Zero, 0, x), RetireRivals(Zero, x)];
    var s' := BursterRetires(x, s, bases);
    assert Step(s, StrikeBack(Zero, 0, 30), bases) == Some((s, [DamageAt(Zero, 0, 30, true)]));
    hide Step;
    assert [StrikeBack(Zero, 0, 30)] + [] == [StrikeBack(Zero, 0, 30)];
    Unfold(StrikeBack(Zero, 0, 30), [], s, n, bases, s, [DamageAt(Zero, 0, 30, true)]);
    Unfold(DamageAt(Zero, 0, 30, true), [], s, n - 1, bases, s', more);
    assert more + [] == [first] + ([second] + ([RetireAllies(Zero, 0, x)] + [RetireRivals(Zero, x)]));
    RetirementFails(x, [RetireRivals(Zero, x)], s', n - 2, bases);
  }

  /** The boards as fighters. */
  ghost predicate Facing(s: State, x: Fighter) {
    && |s.zero| == 3 && s.zero[0] == x && IsBurster(x) && x.attr.attack == 20 && x.attr.health == 30
    && Pair(s.(zero := s.zero[1..]), 50)
    && |s.one| == 1 && IsEchoer(s.one[0]) && s.one[0].attr.attack == 30 && s.one[0].attr.health == 50
    && forall e :: e in s.zero ==> e.survived == 0
  }

  lemma FirstAttack(s: State, x: Fighter)
    requires Facing(s, x)
    ensures var r := AttackTasks(s, Zero);
            && r.Some? && r.value.0.zero == s.zero && r.value.0.one == s.one
            && r.value.1 == [DamageAt(One, 0, 20, false)] + [StrikeBack(Zero, 0, 30)]
  {
    hide HasSpecial;
    hide LowestIndexes;
    hide AttractiveIndexes;
    assert AttackIndex(s.zero) == 0 by {
      assert s.zero[AttackIndex(s.zero)] in s.zero && s.zero[0] in s.zero;
    }
  }

  lemma FirstTickFails(s: State, x: Fighter, n: nat, bases: Bases)
    requires Facing(s, x) && n >= 33
    ensures AttackOnce(s, 1, Zero, n, bases) == Outcome.Failed
  {
    hide Eval;
    hide AttackTasks;
    hide IsEchoer;
    hide IsBurster;
    FirstAttack(s, x);
    var s0 := AttackTasks(s, Zero).value.0;
    var s1 := HitAt(One, 0, 20, false, [StrikeBack(Zero, 0, 30)], s0, n, bases);
    assert s1.one[0] == Weakened(s.one[0], 20);
    KeptEchoer(s.one[0], 20);
    BursterStruck(x, s1, n - 1, bases);
  }

  lemma KeptEchoer(e: Fighter, damage: U16)
    requires IsEchoer(e)
    ensures IsEchoer(Weakened(e, damage))
  {
  }

  lemma MarchFails(s: State, x: Fighter, n: nat, bases: Bases)
    requires Facing(s, x) && n >= 33
    ensures MarchResult(s, n, bases) == MFailed
  {
    hide AttackOnce;
    hide CallPre;
    hide IsEchoer;
    hide IsBurster;
    forall i | 0 < i < |s.zero| ensures IsEchoer(s.zero[i]) {
      assert s.zero[i] == s.zero[1..][i - 1];
    }
    NothingBefore(s, x, n, bases);
    FirstTickFails(s, x, n, bases);
  }

  /** Boards as a player and a ghost bring them: emos as the table has them, one of them raised by 20. */
  const BURSTING: seq<GhostEmo> := [GhostEmo(40, BuildAttributes(BURSTER, false)), GhostEmo(37, BuildAttributes(ECHOER, false)),
                                    GhostEmo(37, BuildAttributes(ECHOER, false))]
  const STRIKING: seq<GhostEmo> := [GhostEmo(37, BuildAttributes(ECHOER, false).(attack := 30))]

  lemma TheFighters(bases: Bases, first: nat)
    requires Known(bases)
    ensures Organizer.Fighters(BURSTING, first, bases)
         == Some([Fighter(first % 0x1_0000, 40, Nature, BURSTING[0].attr, 0), Fighter((first + 1) % 0x1_0000, 37, Food, BURSTING[1].attr, 0),
                  Fighter((first + 2) % 0x1_0000, 37, Food, BURSTING[2].attr, 0)])
    ensures Organizer.Fighters(STRIKING, first + 3, bases) == Some([Fighter((first + 3) % 0x1_0000, 37, Food, STRIKING[0].attr, 0)])
  {
    assert STRIKING[1..] == [] && BURSTING[1..][1..][1..] == [];
    assert BURSTING[1..][0] == BURSTING[1] && BURSTING[1..][1..][0] == BURSTING[2];
    var a := Fighter((first + 2) % 0x1_0000, 37, Food, BURSTING[2].attr, 0);
    var b := Fighter((first + 1) % 0x1_0000, 37, Food, BURSTING[1].attr, 0);
    var c := Fighter(first % 0x1_0000, 40, Nature, BURSTING[0].attr, 0);
    var d := Fighter((first + 3) % 0x1_0000, 37, Food, STRIKING[0].attr, 0);
    assert [d] + [] == [d] && [a] + [] == [a];
    assert Organizer.Fighters(BURSTING[1..][1..], first + 2, bases) == Some([a]);
    assert Organizer.Fighters(BURSTING[1..], first + 1, bases) == Some([b] + [a]);
    assert [c] + ([b] + [a]) == [c, b, a];
  }

  /** Over the game's table this fight between legal boards is an error, whatever the generator picks: in the first tick an
      ability looks for an emo at an index where nobody stands any more. */
  lemma StaleFight(bases: Bases, tape: Tape, first: nat, n: nat)
    requires WellFormed(bases) && Known(bases)
    ensures OrganizerLaws.LegalBoard(BURSTING, bases) && OrganizerLaws.LegalBoard(STRIKING, bases)
    ensures Organizer.Fighters(BURSTING, first, bases).Some? && Organizer.Fighters(STRIKING, first + 3, bases).Some?
    ensures var f0, f1 := Organizer.Fighters(BURSTING, first, bases).value, Organizer.Fighters(STRIKING, first + 3, bases).value;
            n >= 33 ==> MarchResult(State(f0, f1, [], first + 4, tape), n, bases) == MFailed
                        && Organizer.Fight(BURSTING, STRIKING, tape, first, n, bases) == None
  {
    hide MarchResult;
    TheFighters(bases, first);
    var f0, f1 := Organizer.Fighters(BURSTING, first, bases).value, Organizer.Fighters(STRIKING, first + 3, bases).value;
    var s := State(f0, f1, [], first + 4, tape);
    assert f0[1..][0] == f0[1] && f0[1..][1] == f0[2];
    assert Facing(s, f0[0]);
    if n >= 33 {
      MarchFails(s, f0[0], n, bases);
    }
  }
}
