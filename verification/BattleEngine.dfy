/** The two boards as the program keeps them, changed in place by mutually recursive methods. Each
    method is proved to do what `Eval` does with the task it stands for. A cascade over arbitrary
    ability data need not end, so a method asks for a ghost budget that finishes its task; for a
    stratified table there always is one. */
module BattleEngine {
  import opened Types
  import opened Rng
  import opened Battle
  import opened BattleLaws
  import opened March

  ghost predicate Ends(ts: seq<Task>, s: State, n: nat, bases: Bases) { Eval(ts, s, n, bases) != Running }

  /** The tasks were run from `s`: with success to `s'`, leaving `left` of the budget, or with failure. */
  ghost predicate Did(ts: seq<Task>, s: State, n: nat, ok: bool, s': State, left: nat, bases: Bases) {
    Eval(ts, s, n, bases) == (if ok then Done(s', left) else Outcome.Failed) && left <= n
  }

  ghost predicate EndsAfter(r: Option<(State, seq<Task>)>, n: nat, bases: Bases) {
    r.Some? ==> Ends(r.value.1, r.value.0, n, bases)
  }

  /** A step's rewriting and then the tasks it pushed were run. */
  ghost predicate DidAfter(r: Option<(State, seq<Task>)>, n: nat, ok: bool, s': State, left: nat, bases: Bases) {
    if r.None? then !ok && left <= n else Did(r.value.1, r.value.0, n, ok, s', left, bases)
  }

  function Spreading(s: State, p: Player, action: BattleAction, i: nat, retired: Option<Fighter>, isTriple: bool)
    : Option<(State, seq<Task>)>
  {
    var (tape, ts) :- SpreadAct(s, p, action, i, retired, isTriple);
    Some((s.(tape := tape), ts))
  }

  // ----- runs of a task and of a list -----

  lemma StepOnce(t: Task, s: State, n: nat, bases: Bases)
    requires Ends([t], s, n, bases)
    ensures n > 0
    ensures var r := Step(s, t, bases);
            Eval([t], s, n, bases) == if r.None? then Outcome.Failed else Eval(r.value.1, r.value.0, n - 1, bases)
  {
    hide Step;
    assert [t][1..] == [];
    var r := Step(s, t, bases);
    if r.Some? {
      assert r.value.1 + [] == r.value.1;
    }
  }

  lemma NoMore(s: State, n: nat, bases: Bases)
    ensures Eval([], s, n, bases) == Done(s, n)
  {
  }

  lemma Next(first: seq<Task>, rest: seq<Task>, s: State, n: nat, bases: Bases)
    requires Ends(first + rest, s, n, bases)
    ensures Ends(first, s, n, bases)
    ensures var o := Eval(first, s, n, bases);
            match o
            case Done(s', left) =>
              Eval(first + rest, s, n, bases) == Eval(rest, s', left, bases) && left <= n && Ends(rest, s', left, bases)
            case _ => Eval(first + rest, s, n, bases) == o
  {
    hide Eval;
    EvalAppend(first, rest, s, n, bases);
    EndIsAPoint(first, s, n, bases);
  }

  lemma RaiseIsPlain(t: Task, s: State, n: nat, bases: Bases)
    requires Ends([t], s, n, bases) && (t.RaiseAt? || t.LowerAt? || t.GrantAt? || t.CountSurvived?)
    ensures var r := if t.RaiseAt? then RaiseFighter(s, t.p, t.i, t.attack, t.health)
                     else if t.LowerAt? then LowerFighter(s, t.p, t.i, t.attack, t.health)
                     else if t.GrantAt? then GrantFighter(s, t.p, t.i, t.ability)
                     else CountFighter(s, t.p, t.i);
            n > 0 && Eval([t], s, n, bases) == if r.None? then Outcome.Failed else Done(r.value, n - 1)
  {
    StepOnce(t, s, n, bases);
  }

  lemma {:induction false} FirstIndex(abilities: seq<Ability>, a: Ability, k: nat)
    requires k < |abilities| && abilities[k] == a && forall j :: 0 <= j < k ==> abilities[j] != a
    ensures IndexOfAbility(abilities, a) == Some(k)
  {
    if k > 0 {
      FirstIndex(abilities[1..], a, k - 1);
    }
  }

  // ----- the heads of the lists a method walks -----

  lemma ReactNext(event: Event, abilities: seq<(nat, BattleAbility)>, k: nat, p: Player, i: nat, emo: Fighter,
                  s: State, n: nat, bases: Bases)
    requires k < |abilities| && Ends(React(event, abilities[k..], p, i, emo), s, n, bases)
    ensures var first := ReactOne(event, abilities[k].0, abilities[k].1, p, i, emo);
            && Ends(first, s, n, bases)
            && match Eval(first, s, n, bases)
               case Done(s', left) =>
                 && left <= n && Ends(React(event, abilities[k + 1..], p, i, emo), s', left, bases)
                 && Eval(React(event, abilities[k..], p, i, emo), s, n, bases)
                    == Eval(React(event, abilities[k + 1..], p, i, emo), s', left, bases)
               case o => Eval(React(event, abilities[k..], p, i, emo), s, n, bases) == o
  {
    hide Eval;
    hide ReactOne;
    assert abilities[k..][1..] == abilities[k + 1..];
    Next(ReactOne(event, abilities[k].0, abilities[k].1, p, i, emo), React(event, abilities[k + 1..], p, i, emo), s, n, bases);
  }

  lemma ReactNone(event: Event, p: Player, i: nat, emo: Fighter)
    ensures React(event, [], p, i, emo) == []
  {
  }

  lemma RetireNext(abilities: seq<BattleAbility>, k: nat, p: Player, i: nat, retired: Option<Fighter>, twice: bool,
                   s: State, n: nat, bases: Bases)
    requires k < |abilities| && Ends(RetireTasks(abilities[k..], p, i, retired, twice), s, n, bases)
    ensures var x, rest := abilities[k], RetireTasks(abilities[k + 1..], p, i, retired, twice);
            var t := ActAsOneself(p, if x.GeneralSelf? then x.action else DamageAll(Ally, 0), i, retired);
            var first := if x.GeneralSelf? && x.trigger.AtRetire? then (if twice then [t] + [t] else [t]) else [];
            && Ends(first, s, n, bases)
            && match Eval(first, s, n, bases)
               case Done(s', left) =>
                 && left <= n && Ends(rest, s', left, bases)
                 && Eval(RetireTasks(abilities[k..], p, i, retired, twice), s, n, bases) == Eval(rest, s', left, bases)
               case o => Eval(RetireTasks(abilities[k..], p, i, retired, twice), s, n, bases) == o
  {
    hide Eval;
    assert abilities[k..][1..] == abilities[k + 1..];
    var x := abilities[k];
    var t := ActAsOneself(p, if x.GeneralSelf? then x.action else DamageAll(Ally, 0), i, retired);
    var first := if x.GeneralSelf? && x.trigger.AtRetire? then (if twice then [t] + [t] else [t]) else [];
    assert Repeat(t, 1) == [t];
    assert Repeat(t, 2) == [t] + [t];
    Next(first, RetireTasks(abilities[k + 1..], p, i, retired, twice), s, n, bases);
  }

  lemma SpreadNobody(s: State, p: Player, action: BattleAction, i: nat, retired: Option<Fighter>, isTriple: bool)
    requires Actor(s, p, i, retired).None?
    ensures SpreadAct(s, p, action, i, retired, isTriple).None?
  {
  }

  lemma SpreadSpawn(s: State, p: Player, action: BattleAction, i: nat, retired: Option<Fighter>, isTriple: bool)
    requires Actor(s, p, i, retired).Some? && (action.Spawn? || action.SpawnByAttackDiv?)
    ensures var emo := Actor(s, p, i, retired).value;
            var t := Task.SetEmo(p, if retired.Some? then i else i + 1, action.baseId, isTriple, emo.survived, action.side);
            SpreadAct(s, p, action, i, retired, isTriple)
            == if action.Spawn? then Some((s.tape, [t]))
               else if action.divisor == 0 then None
               else Some((s.tape, Repeat(t, Min(emo.attr.attack / action.divisor, BOARD_EMO_MAX_COUNT))))
  {
  }

  lemma SpreadDamage(s: State, p: Player, action: BattleAction, i: nat, retired: Option<Fighter>, isTriple: bool)
    requires Actor(s, p, i, retired).Some? && action.DamageAll?
    ensures var q := if action.side == Ally then p else Other(p);
            SpreadAct(s, p, action, i, retired, isTriple)
            == Some((s.tape, DamageTasks(q, Ids(s.At(q)), DoubleIf(isTriple, action.damage))))
  {
  }

  /** A lost shield: its reactions come before the count of the survived attack. */
  lemma ShieldSplit(s: State, p: Player, i: nat, k: nat, counted: bool, n: nat, bases: Bases)
    requires i < |s.At(p)| && k < |s.At(p)[i].attr.abilities|
    requires Ends(LoseShield(s, p, i, k, counted).1, LoseShield(s, p, i, k, counted).0, n, bases)
    ensures var (s', reactions) := LoseShield(s, p, i, k, false);
            && LoseShield(s, p, i, k, counted) == (s', reactions + CountTask(p, i, counted))
            && Ends(reactions, s', n, bases)
            && match Eval(reactions, s', n, bases)
               case Done(s2, left) =>
                 Eval(reactions + CountTask(p, i, counted), s', n, bases) == Eval(CountTask(p, i, counted), s2, left, bases)
               case o => Eval(reactions + CountTask(p, i, counted), s', n, bases) == o
  {
    hide Eval;
    hide React;
    var (s', reactions) := LoseShield(s, p, i, k, false);
    var reacts := React(OnShieldLost, BoardAbilities(s'.At(p), 0), p, i, s'.At(p)[i]);
    assert reacts + [] == reacts;
    assert LoseShield(s, p, i, k, counted) == (s', reactions + CountTask(p, i, counted));
    Next(reactions, CountTask(p, i, counted), s', n, bases);
  }

  /** The five ways a damage can go. */
  lemma DamageSplit(s: State, p: Player, i: nat, damage: U16, counted: bool, n: nat, bases: Bases)
    requires Ends([DamageAt(p, i, damage, counted)], s, n, bases)
    ensures n > 0
    ensures i >= |s.At(p)| ==> Eval([DamageAt(p, i, damage, counted)], s, n, bases) == Outcome.Failed
    ensures i < |s.At(p)| ==>
              (var e := s.At(p)[i];
               var k, health := IndexOfAbility(e.attr.abilities, SHIELD), Less16(e.attr.health, damage);
               var hit := s.Logged(Damage(p, i, damage, health));
               Eval([DamageAt(p, i, damage, counted)], s, n, bases)
               == if k.Some? then Eval(LoseShield(s, p, i, k.value, counted).1, LoseShield(s, p, i, k.value, counted).0, n - 1, bases)
                  else if damage == 0 then Eval(CountTask(p, i, counted), s, n - 1, bases)
                  else if health == 0 then Eval(Retire(hit, p, i).1, Retire(hit, p, i).0, n - 1, bases)
                  else Eval(CountTask(p, i, counted), Put(hit, p, i, e.(attr := e.attr.(health := health))), n - 1, bases))
  {
    hide Eval;
    hide LoseShield;
    hide Retire;
    StepOnce(DamageAt(p, i, damage, counted), s, n, bases);
  }

  lemma NumberedNext(abilities: seq<Ability>, k: nat, i: nat)
    requires k < |abilities|
    ensures Numbered(BattleOf(abilities[k..]), i)
         == (if abilities[k].Battle? then [(i, abilities[k].battle)] else []) + Numbered(BattleOf(abilities[k + 1..]), i)
  {
    assert abilities[k..][1..] == abilities[k + 1..];
    var rest := BattleOf(abilities[k + 1..]);
    if abilities[k].Battle? {
      assert ([abilities[k].battle] + rest)[1..] == rest;
    } else {
      assert [] + rest == rest;
    }
  }

  /** The battle abilities of one emo with its index. */
  method AbilitiesOf(abilities: seq<Ability>, i: nat) returns (v: seq<(nat, BattleAbility)>)
    ensures v == Numbered(BattleOf(abilities), i)
  {
    v := [];
    for k := 0 to |abilities|
      invariant Numbered(BattleOf(abilities), i) == v + Numbered(BattleOf(abilities[k..]), i)
    {
      NumberedNext(abilities, k, i);
      if abilities[k].Battle? {
        ghost var rest := Numbered(BattleOf(abilities[k + 1..]), i);
        assert v + ([(i, abilities[k].battle)] + rest) == (v + [(i, abilities[k].battle)]) + rest;
        v := v + [(i, abilities[k].battle)];
      }
    }
  }

  // ----- the heads of the plain lists -----

  lemma RaiseNext(p: Player, indexes: seq<nat>, k: nat, a: U16, h: U16, s: State, n: nat, bases: Bases)
    requires k < |indexes| && Ends(RaiseTasks(p, indexes[k..], a, h), s, n, bases)
    ensures var r := RaiseFighter(s, p, indexes[k], a, h);
            n > 0 && Eval(RaiseTasks(p, indexes[k..], a, h), s, n, bases)
                     == if r.None? then Outcome.Failed else Eval(RaiseTasks(p, indexes[k + 1..], a, h), r.value, n - 1, bases)
  {
    hide Eval;
    hide RaiseFighter;
    assert indexes[k..][1..] == indexes[k + 1..];
    Next([RaiseAt(p, indexes[k], a, h)], RaiseTasks(p, indexes[k + 1..], a, h), s, n, bases);
    RaiseIsPlain(RaiseAt(p, indexes[k], a, h), s, n, bases);
  }

  lemma LowerNext(p: Player, indexes: seq<nat>, k: nat, a: U16, h: U16, s: State, n: nat, bases: Bases)
    requires k < |indexes| && Ends(LowerTasks(p, indexes[k..], a, h), s, n, bases)
    ensures var r := LowerFighter(s, p, indexes[k], a, h);
            n > 0 && Eval(LowerTasks(p, indexes[k..], a, h), s, n, bases)
                     == if r.None? then Outcome.Failed else Eval(LowerTasks(p, indexes[k + 1..], a, h), r.value, n - 1, bases)
  {
    hide Eval;
    hide LowerFighter;
    assert indexes[k..][1..] == indexes[k + 1..];
    Next([LowerAt(p, indexes[k], a, h)], LowerTasks(p, indexes[k + 1..], a, h), s, n, bases);
    RaiseIsPlain(LowerAt(p, indexes[k], a, h), s, n, bases);
  }

  lemma GrantNext(p: Player, indexes: seq<nat>, k: nat, ability: BattleAbility, s: State, n: nat, bases: Bases)
    requires k < |indexes| && Ends(GrantTasks(p, indexes[k..], ability), s, n, bases)
    ensures var r := GrantFighter(s, p, indexes[k], ability);
            n > 0 && Eval(GrantTasks(p, indexes[k..], ability), s, n, bases)
                     == if r.None? then Outcome.Failed else Eval(GrantTasks(p, indexes[k + 1..], ability), r.value, n - 1, bases)
  {
    hide Eval;
    hide GrantFighter;
    assert indexes[k..][1..] == indexes[k + 1..];
    Next([GrantAt(p, indexes[k], ability)], GrantTasks(p, indexes[k + 1..], ability), s, n, bases);
    RaiseIsPlain(GrantAt(p, indexes[k], ability), s, n, bases);
  }

  lemma PlainNone(p: Player, a: U16, h: U16, ability: BattleAbility, s: State, n: nat, bases: Bases)
    ensures Eval(RaiseTasks(p, [], a, h), s, n, bases) == Done(s, n)
    ensures Eval(LowerTasks(p, [], a, h), s, n, bases) == Done(s, n)
    ensures Eval(GrantTasks(p, [], ability), s, n, bases) == Done(s, n)
  {
  }

  lemma SpreadGrant(s: State, p: Player, who: TargetOrRandom, ability: BattleAbility, i: nat, retired: Option<Fighter>, isTriple: bool)
    requires Actor(s, p, i, retired).Some?
    ensures var r := PickReceivers(s.At(p), i, who, ability, isTriple, retired.Some?, s.tape);
            Spreading(s, p, AddBattleAbility(who, ability), i, retired, isTriple)
            == if r.None? then None else Some((s.(tape := r.value.1), GrantTasks(p, r.value.0, ability)))
  {
    hide PickReceivers;
  }

  lemma SpreadStats(s: State, p: Player, who: TargetOrRandom, attack: U16, health: U16, i: nat, retired: Option<Fighter>, isTriple: bool)
    requires Actor(s, p, i, retired).Some?
    ensures var r, a, h := PickIndexes(s.At(p), i, who, retired.Some?, s.tape), DoubleIf(isTriple, attack), DoubleIf(isTriple, health);
            && Spreading(s, p, Raise(who, attack, health), i, retired, isTriple)
               == (if r.None? then None else Some((s.(tape := r.value.1), RaiseTasks(p, r.value.0, a, h))))
            && Spreading(s, p, Lower(who, attack, health), i, retired, isTriple)
               == (if r.None? then None else Some((s.(tape := r.value.1), LowerTasks(p, r.value.0, a, h))))
  {
    hide PickIndexes;
  }

  class BattleBoards {
    var zero: seq<Fighter>
    var one: seq<Fighter>
    var logs: seq<Log>
    var next: nat
    var tape: Tape
    const bases: Bases

    ghost function View(): State
      reads this
    {
      State(zero, one, logs, next, tape)
    }

    function Board(p: Player): seq<Fighter>
      reads this
    {
      if p == Zero then zero else one
    }

    constructor (zero: seq<Fighter>, one: seq<Fighter>, next: nat, tape: Tape, bases: Bases)
      ensures View() == State(zero, one, [], next, tape) && this.bases == bases
    {
      this.zero, this.one, logs, this.next, this.tape, this.bases := zero, one, [], next, tape, bases;
    }

    method SetBoard(p: Player, board: seq<Fighter>)
      modifies this`zero, this`one
      ensures View() == old(View()).With(p, board)
    {
      if p == Zero {
        zero := board;
      } else {
        one := board;
      }
    }

    // ----- one emo -----

    method IncreaseEmoStats(p: Player, i: nat, attack: U16, health: U16) returns (ok: bool)
      modifies this
      ensures RaiseFighter(old(View()), p, i, attack, health) == if ok then Some(View()) else None
    {
      if attack == 0 && health == 0 {
        return true;
      }
      var board := Board(p);
      if i >= |board| {
        return false;
      }
      var attr := board[i].attr;
      attr := attr.(attack := Sat16(attr.attack + attack));
      attr := attr.(health := Sat16(attr.health + health));
      SetBoard(p, board[i := board[i].(attr := attr)]);
      logs := logs + [RaiseStats(p, i, attack, health, attr.attack, attr.health)];
      return true;
    }

    method DecreaseEmoStats(p: Player, i: nat, attack: U16, health: U16) returns (ok: bool)
      modifies this
      ensures LowerFighter(old(View()), p, i, attack, health) == if ok then Some(View()) else None
    {
      if attack == 0 && health == 0 {
        return true;
      }
      var board := Board(p);
      if i >= |board| {
        return false;
      }
      var attr := board[i].attr;
      attr := attr.(attack := AtLeastOne(Less16(attr.attack, attack)));
      attr := attr.(health := AtLeastOne(Less16(attr.health, health)));
      SetBoard(p, board[i := board[i].(attr := attr)]);
      logs := logs + [LowerStats(p, i, attack, health, attr.attack, attr.health)];
      return true;
    }

    method AddAbilityToEmo(p: Player, i: nat, ability: BattleAbility) returns (ok: bool)
      modifies this
      ensures GrantFighter(old(View()), p, i, ability) == if ok then Some(View()) else None
    {
      var board := Board(p);
      if i >= |board| {
        return false;
      }
      var attr := board[i].attr;
      if |attr.abilities| >= ABILITIES_MAX {
        return true;
      }
      if ability.SpecialAbility? {
        if Ability.Battle(ability) in attr.abilities {
          return true;
        }
      }
      SetBoard(p, board[i := board[i].(attr := attr.(abilities := attr.abilities + [Ability.Battle(ability)]))]);
      logs := logs + [AddAbilityTo(p, i, ability, attr.isTriple)];
      return true;
    }

    /** Every battle ability of a board with its emo's index. */
    method GetBoardAbilities(p: Player) returns (v: seq<(nat, BattleAbility)>)
      ensures v == BoardAbilities(Board(p), 0)
    {
      hide BattleOf;
      hide Numbered;
      v := [];
      var board := Board(p);
      for i := 0 to |board|
        invariant BoardAbilities(board, 0) == v + BoardAbilities(board[i..], i)
      {
        assert board[i..][1..] == board[i + 1..];
        var own := AbilitiesOf(board[i].attr.abilities, i);
        assert v + (own + BoardAbilities(board[i + 1..], i + 1)) == (v + own) + BoardAbilities(board[i + 1..], i + 1);
        v := v + own;
      }
    }

    method ChooseIndexes(p: Player, i: nat, who: TargetOrRandom, isRetired: bool) returns (ok: bool, indexes: seq<nat>)
      modifies this`tape
      ensures PickIndexes(Board(p), i, who, isRetired, old(tape)) == if ok then Some((indexes, tape)) else None
    {
      var r := PickIndexes(Board(p), i, who, isRetired, tape);
      if r.None? {
        return false, [];
      }
      tape := r.value.1;
      return true, r.value.0;
    }

    // ----- actions on stats and abilities -----

    method IncreaseStats(p: Player, i: nat, retired: Option<Fighter>, isTriple: bool, who: TargetOrRandom, attack: U16, health: U16,
                         ghost n: nat)
      returns (ok: bool, ghost left: nat)
      requires Actor(View(), p, i, retired).Some?
      requires EndsAfter(Spreading(View(), p, Raise(who, attack, health), i, retired, isTriple), n, bases)
      modifies this
      ensures DidAfter(Spreading(old(View()), p, Raise(who, attack, health), i, retired, isTriple), n, ok, View(), left, bases)
    {
      hide Step;
      hide Eval;
      hide SpreadAct;
      hide Spreading;
      hide RaiseTasks;
      hide LowerTasks;
      hide GrantTasks;
      hide RaiseFighter;
      hide LowerFighter;
      hide GrantFighter;
      hide PickIndexes;
      hide PickReceivers;
      SpreadStats(View(), p, who, attack, health, i, retired, isTriple);
      left := n;
      var a, h := DoubleIf(isTriple, attack), DoubleIf(isTriple, health);
      var indexes;
      ok, indexes := ChooseIndexes(p, i, who, retired.Some?);
      if !ok {
        return;
      }
      ghost var s0 := View();
      ok := true;
      assert indexes[0..] == indexes;
      for k := 0 to |indexes|
        invariant ok && left <= n && Ends(RaiseTasks(p, indexes[k..], a, h), View(), left, bases)
        invariant Eval(RaiseTasks(p, indexes, a, h), s0, n, bases) == Eval(RaiseTasks(p, indexes[k..], a, h), View(), left, bases)
      {
        RaiseNext(p, indexes, k, a, h, View(), left, bases);
        ok := IncreaseEmoStats(p, indexes[k], a, h);
        if !ok {
          return;
        }
        left := left - 1;
      }
      assert indexes[|indexes|..] == [];
      PlainNone(p, a, h, SpecialAbility(Shield), View(), left, bases);
    }

    method DecreaseStats(p: Player, i: nat, retired: Option<Fighter>, isTriple: bool, who: TargetOrRandom, attack: U16, health: U16,
                         ghost n: nat)
      returns (ok: bool, ghost left: nat)
      requires Actor(View(), p, i, retired).Some?
      requires EndsAfter(Spreading(View(), p, Lower(who, attack, health), i, retired, isTriple), n, bases)
      modifies this
      ensures DidAfter(Spreading(old(View()), p, Lower(who, attack, health), i, retired, isTriple), n, ok, View(), left, bases)
    {
      hide Step;
      hide Eval;
      hide SpreadAct;
      hide Spreading;
      hide RaiseTasks;
      hide LowerTasks;
      hide GrantTasks;
      hide RaiseFighter;
      hide LowerFighter;
      hide GrantFighter;
      hide PickIndexes;
      hide PickReceivers;
      SpreadStats(View(), p, who, attack, health, i, retired, isTriple);
      left := n;
      var a, h := DoubleIf(isTriple, attack), DoubleIf(isTriple, health);
      var indexes;
      ok, indexes := ChooseIndexes(p, i, who, retired.Some?);
      if !ok {
        return;
      }
      ghost var s0 := View();
      ok := true;
      assert indexes[0..] == indexes;
      for k := 0 to |indexes|
        invariant ok && left <= n && Ends(LowerTasks(p, indexes[k..], a, h), View(), left, bases)
        invariant Eval(LowerTasks(p, indexes, a, h), s0, n, bases) == Eval(LowerTasks(p, indexes[k..], a, h), View(), left, bases)
      {
        LowerNext(p, indexes, k, a, h, View(), left, bases);
        ok := DecreaseEmoStats(p, indexes[k], a, h);
        if !ok {
          return;
        }
        left := left - 1;
      }
      assert indexes[|indexes|..] == [];
      PlainNone(p, a, h, SpecialAbility(Shield), View(), left, bases);
    }

    method IncreaseStatsByEmoCount(p: Player, i: nat, retired: Option<Fighter>, isTriple: bool, who: TargetOrRandom, side: Side,
                                   cond: Cond, attack: U16, health: U16, ghost n: nat)
      returns (ok: bool, ghost left: nat)
      requires Actor(View(), p, i, retired).Some?
      requires EndsAfter(Spreading(View(), p, RaiseByEmoCount(side, who, cond, attack, health), i, retired, isTriple), n, bases)
      modifies this
      ensures DidAfter(Spreading(old(View()), p, RaiseByEmoCount(side, who, cond, attack, health), i, retired, isTriple), n,
                       ok, View(), left, bases)
    {
      hide Eval;
      hide PickIndexes;
      hide CountMatched;
      var count := if side == Ally then CountMatched(Board(p), 0, i, false, cond)
                   else CountMatched(Board(Other(p)), 0, 0, true, cond);
      ok, left := IncreaseStats(p, i, retired, isTriple, who, Sat16(attack * count), Sat16(health * count), n);
    }

    method AddBattleAbilityTo(p: Player, i: nat, retired: Option<Fighter>, isTriple: bool, who: TargetOrRandom, ability: BattleAbility,
                              ghost n: nat)
      returns (ok: bool, ghost left: nat)
      requires Actor(View(), p, i, retired).Some?
      requires EndsAfter(Spreading(View(), p, AddBattleAbility(who, ability), i, retired, isTriple), n, bases)
      modifies this
      ensures DidAfter(Spreading(old(View()), p, AddBattleAbility(who, ability), i, retired, isTriple), n, ok, View(), left, bases)
    {
      hide Step;
      hide Eval;
      hide SpreadAct;
      hide Spreading;
      hide RaiseTasks;
      hide LowerTasks;
      hide GrantTasks;
      hide RaiseFighter;
      hide LowerFighter;
      hide GrantFighter;
      hide PickIndexes;
      hide PickReceivers;
      SpreadGrant(View(), p, who, ability, i, retired, isTriple);
      left := n;
      var r := PickReceivers(Board(p), i, who, ability, isTriple, retired.Some?, tape);
      if r.None? {
        return false, left;
      }
      var indexes := r.value.0;
      tape := r.value.1;
      ghost var s0 := View();
      ok := true;
      assert indexes[0..] == indexes;
      for k := 0 to |indexes|
        invariant ok && left <= n && Ends(GrantTasks(p, indexes[k..], ability), View(), left, bases)
        invariant Eval(GrantTasks(p, indexes, ability), s0, n, bases) == Eval(GrantTasks(p, indexes[k..], ability), View(), left, bases)
      {
        GrantNext(p, indexes, k, ability, View(), left, bases);
        ok := AddAbilityToEmo(p, indexes[k], ability);
        if !ok {
          return;
        }
        left := left - 1;
      }
      assert indexes[|indexes|..] == [];
      PlainNone(p, 0, 0, ability, View(), left, bases);
    }

    // ----- the cascade -----

    method CallNormalActionAsOneself(p: Player, action: BattleAction, i: nat, retired: Option<Fighter>, ghost n: nat)
      returns (ok: bool, ghost left: nat)
      requires Ends([ActAsOneself(p, action, i, retired)], View(), n, bases)
      modifies this
      ensures Did([ActAsOneself(p, action, i, retired)], old(View()), n, ok, View(), left, bases)
      decreases n, 0
    {
      hide Eval;
      StepOnce(ActAsOneself(p, action, i, retired), View(), n, bases);
      left := n;
      var isTriple;
      if retired.Some? {
        isTriple := retired.value.attr.isTriple;
      } else {
        var board := Board(p);
        if i >= |board| {
          return false, left;
        }
        isTriple := board[i].attr.isTriple;
      }
      ok, left := CallNormalAction(p, action, i, retired, isTriple, n - 1);
    }

    method CallNormalAction(p: Player, action: BattleAction, i: nat, retired: Option<Fighter>, isTriple: bool, ghost n: nat)
      returns (ok: bool, ghost left: nat)
      requires Ends([Act(p, action, i, retired, isTriple)], View(), n, bases)
      modifies this
      ensures Did([Act(p, action, i, retired, isTriple)], old(View()), n, ok, View(), left, bases)
      decreases n, 0
    {
      hide Eval;
      hide SpreadAct;
      StepOnce(Act(p, action, i, retired, isTriple), View(), n, bases);
      left := n;
      var emo, newIndex;
      if retired.Some? {
        emo, newIndex := retired.value, i;
      } else {
        var board := Board(p);
        if i >= |board| {
          SpreadNobody(View(), p, action, i, retired, isTriple);
          return false, left;
        }
        emo, newIndex := board[i], i + 1;
      }
      match action {
        case Spawn(side, baseId) =>
          SpreadSpawn(View(), p, action, i, retired, isTriple);
          ok, left := SetEmo(p, newIndex, baseId, isTriple, emo.survived, side, n - 1);
        case SpawnByAttackDiv(side, baseId, divisor) =>
          SpreadSpawn(View(), p, action, i, retired, isTriple);
          if divisor == 0 {
            return false, left;
          }
          ok, left := SetEmosByAttackDiv(p, emo.survived, emo.attr.attack, isTriple, newIndex, baseId, divisor, side, n - 1);
        case Raise(who, attack, health) => ok, left := IncreaseStats(p, i, retired, isTriple, who, attack, health, n - 1);
        case Lower(who, attack, health) => ok, left := DecreaseStats(p, i, retired, isTriple, who, attack, health, n - 1);
        case RaiseByEmoCount(side, who, cond, attack, health) =>
          ok, left := IncreaseStatsByEmoCount(p, i, retired, isTriple, who, side, cond, attack, health, n - 1);
        case AddBattleAbility(who, ability) => ok, left := AddBattleAbilityTo(p, i, retired, isTriple, who, ability, n - 1);
        case DamageAll(side, damage) =>
          SpreadDamage(View(), p, action, i, retired, isTriple);
          var q := if side == Ally then p else Other(p);
          ok, left := DamageAllEmos(q, DoubleIf(isTriple, damage), n - 1);
      }
    }

    method SetEmo(p: Player, i: nat, baseId: U16, isTriple: bool, survived: nat, side: Side, ghost n: nat)
      returns (ok: bool, ghost left: nat)
      requires Ends([Task.SetEmo(p, i, baseId, isTriple, survived, side)], View(), n, bases)
      modifies this
      ensures Did([Task.SetEmo(p, i, baseId, isTriple, survived, side)], old(View()), n, ok, View(), left, bases)
      decreases n, 0
    {
      hide Eval;
      hide AddFighter;
      StepOnce(Task.SetEmo(p, i, baseId, isTriple, survived, side), View(), n, bases);
      if baseId !in bases {
        return false, n;
      }
      var base := bases[baseId];
      var emo := NewFighter(base, isTriple, 0, next);
      next := next + 1;
      if side == Ally {
        ok, left := AddEmo(p, i, emo.(survived := survived), n - 1);
      } else {
        var rivals := Board(Other(p));
        emo := emo.(survived := if rivals != [] then rivals[|rivals| - 1].survived else 0);
        ok, left := AddEmo(Other(p), |rivals|, emo, n - 1);
      }
    }

    method SetEmosByAttackDiv(p: Player, survived: nat, attack: U16, isTriple: bool, newIndex: nat, baseId: U16, divisor: U8,
                              side: Side, ghost n: nat)
      returns (ok: bool, ghost left: nat)
      requires divisor > 0
      requires Ends(Repeat(Task.SetEmo(p, newIndex, baseId, isTriple, survived, side), Min(attack / divisor, BOARD_EMO_MAX_COUNT)),
                    View(), n, bases)
      modifies this
      ensures Did(Repeat(Task.SetEmo(p, newIndex, baseId, isTriple, survived, side), Min(attack / divisor, BOARD_EMO_MAX_COUNT)),
                  old(View()), n, ok, View(), left, bases)
      decreases n, 1
    {
      hide Eval;
      hide Step;
      left := n;
      ghost var t, s0 := Task.SetEmo(p, newIndex, baseId, isTriple, survived, side), View();
      var count := Min(attack / divisor, BOARD_EMO_MAX_COUNT);
      for k := 0 to count
        invariant left <= n && Ends(Repeat(t, count - k), View(), left, bases)
        invariant Eval(Repeat(t, count), s0, n, bases) == Eval(Repeat(t, count - k), View(), left, bases)
      {
        Next([t], Repeat(t, count - k - 1), View(), left, bases);
        ok, left := SetEmo(p, newIndex, baseId, isTriple, survived, side, left);
        if !ok {
          return;
        }
      }
      ok := true;
      NoMore(View(), left, bases);
    }

    method AddEmo(p: Player, i: nat, emo: Fighter, ghost n: nat) returns (ok: bool, ghost left: nat)
      requires EndsAfter(AddFighter(View(), p, i, emo), n, bases)
      modifies this
      ensures DidAfter(AddFighter(old(View()), p, i, emo), n, ok, View(), left, bases)
      decreases n, 2
    {
      hide Eval;
      hide React;
      left := n;
      var board := Board(p);
      if |board| < BOARD_EMO_MAX_COUNT {
        if i > |board| {
          return false, left;
        }
        logs := logs + [Add(p, i, emo.baseId, emo.attr)];
        SetBoard(p, board[..i] + [emo] + board[i..]);
        var abilities := GetBoardAbilities(p);
        ok, left := CallAllySet(abilities, p, i, emo, n);
        return;
      }
      ok := true;
      NoMore(View(), left, bases);
    }

    method CallAllySet(abilities: seq<(nat, BattleAbility)>, p: Player, i: nat, emo: Fighter, ghost n: nat)
      returns (ok: bool, ghost left: nat)
      requires Ends(React(AllySet, abilities, p, i, emo), View(), n, bases)
      modifies this
      ensures Did(React(AllySet, abilities, p, i, emo), old(View()), n, ok, View(), left, bases)
      decreases n, 1
    {
      hide Eval;
      hide Step;
      left := n;
      ghost var s0 := View();
      for k := 0 to |abilities|
        invariant left <= n && Ends(React(AllySet, abilities[k..], p, i, emo), View(), left, bases)
        invariant Eval(React(AllySet, abilities, p, i, emo), s0, n, bases)
               == Eval(React(AllySet, abilities[k..], p, i, emo), View(), left, bases)
      {
        var (owner, ability) := abilities[k];
        ReactNext(AllySet, abilities, k, p, i, emo, View(), left, bases);
        if owner == i {
          NoMore(View(), left, bases);
          continue;
        }
        if ability.GeneralAlly? && ability.allyTrigger.AtAllySetAsAlly? && MatchedFighter(ability.allyTrigger.cond, emo) {
          ok, left := CallGeneralAsAllyAction(p, ability.allyAction, i, None, owner, left);
          if !ok {
            return;
          }
        } else {
          NoMore(View(), left, bases);
        }
      }
      ok := true;
      NoMore(View(), left, bases);
    }

    method CallGeneralAsAllyAction(p: Player, action: BattleAllyAction, i: nat, retired: Option<Fighter>, onesIndex: nat, ghost n: nat)
      returns (ok: bool, ghost left: nat)
      requires Ends([ActAsAlly(p, action, i, retired, onesIndex)], View(), n, bases)
      modifies this
      ensures Did([ActAsAlly(p, action, i, retired, onesIndex)], old(View()), n, ok, View(), left, bases)
      decreases n, 0
    {
      hide Eval;
      StepOnce(ActAsAlly(p, action, i, retired, onesIndex), View(), n, bases);
      var board := Board(p);
      if onesIndex >= |board| {
        return false, n;
      }
      match action {
        case AllyNormal(normal) =>
          ok, left := CallNormalAction(p, normal, i, retired, board[onesIndex].attr.isTriple, n - 1);
        case TriggerRetireActions =>
          if retired.None? && i >= |board| {
            return false, n;
          }
          var ally := if retired.Some? then retired.value else board[i];
          ok, left := CallRetireActions(p, ally, i, retired, board[onesIndex].attr.isTriple, n - 1);
      }
    }

    method CallRetireActions(p: Player, ally: Fighter, i: nat, retired: Option<Fighter>, twice: bool, ghost n: nat)
      returns (ok: bool, ghost left: nat)
      requires Ends(RetireTasks(BattleOf(ally.attr.abilities), p, i, retired, twice), View(), n, bases)
      modifies this
      ensures Did(RetireTasks(BattleOf(ally.attr.abilities), p, i, retired, twice), old(View()), n, ok, View(), left, bases)
      decreases n, 1
    {
      hide Eval;
      hide Step;
      left := n;
      ghost var s0 := View();
      var abilities := BattleOf(ally.attr.abilities);
      for k := 0 to |abilities|
        invariant left <= n && Ends(RetireTasks(abilities[k..], p, i, retired, twice), View(), left, bases)
        invariant Eval(RetireTasks(abilities, p, i, retired, twice), s0, n, bases)
               == Eval(RetireTasks(abilities[k..], p, i, retired, twice), View(), left, bases)
      {
        RetireNext(abilities, k, p, i, retired, twice, View(), left, bases);
        var ability := abilities[k];
        if ability.GeneralSelf? && ability.trigger.AtRetire? {
          ghost var t := ActAsOneself(p, ability.action, i, retired);
          if twice {
            Next([t], [t], View(), left, bases);
            ok, left := CallNormalActionAsOneself(p, ability.action, i, retired, left);
            if !ok {
              return;
            }
          }
          ok, left := CallNormalActionAsOneself(p, ability.action, i, retired, left);
          if !ok {
            return;
          }
        } else {
          NoMore(View(), left, bases);
        }
      }
      ok := true;
      NoMore(View(), left, bases);
    }

    // ----- damage and retirement -----

    method RemoveShieldIfExist(p: Player, i: nat, ghost n: nat) returns (ok: bool, shielded: bool, ghost left: nat)
      requires i < |Board(p)| ==>
                 var k := IndexOfAbility(Board(p)[i].attr.abilities, SHIELD);
                 k.Some? ==> Ends(LoseShield(View(), p, i, k.value, false).1, LoseShield(View(), p, i, k.value, false).0, n, bases)
      modifies this
      ensures i >= |old(Board(p))| ==> !ok && left <= n
      ensures i < |old(Board(p))| ==>
                (var k := IndexOfAbility(old(Board(p))[i].attr.abilities, SHIELD);
                 if k.None? then ok && !shielded && View() == old(View()) && left == n
                 else shielded && Did(LoseShield(old(View()), p, i, k.value, false).1, LoseShield(old(View()), p, i, k.value, false).0,
                                      n, ok, View(), left, bases))
      decreases n, 2
    {
      hide Eval;
      hide Step;
      hide React;
      hide BoardAbilities;
      hide IndexOfAbility;
      left := n;
      var board := Board(p);
      if i >= |board| {
        return false, false, left;
      }
      var abilities := board[i].attr.abilities;
      for k := 0 to |abilities|
        invariant SHIELD !in abilities[..k] && View() == old(View()) && left == n
      {
        if abilities[k] == SHIELD {
          FirstIndex(abilities, SHIELD, k);
          var attr := board[i].attr.(abilities := abilities[..k] + abilities[k + 1..]);
          SetBoard(p, board[i := board[i].(attr := attr)]);
          logs := logs + [RemoveAbilityOf(p, i, k, SpecialAbility(Shield))];
          ghost var s0 := LoseShield(old(View()), p, i, k, false);
          assert View() == s0.0;
          assert s0.1 == React(OnShieldLost, BoardAbilities(Board(p), 0), p, i, Board(p)[i]);
          ok, left := CallShieldRemovedAbility(p, i, n);
          return ok, true, left;
        }
      }
      assert abilities[..|abilities|] == abilities;
      return true, false, left;
    }

    method CallShieldRemovedAbility(p: Player, i: nat, ghost n: nat) returns (ok: bool, ghost left: nat)
      requires i < |Board(p)| && Ends(React(OnShieldLost, BoardAbilities(Board(p), 0), p, i, Board(p)[i]), View(), n, bases)
      modifies this
      ensures Did(React(OnShieldLost, BoardAbilities(old(Board(p)), 0), p, i, old(Board(p)[i])), old(View()), n, ok, View(), left, bases)
      decreases n, 1
    {
      hide Step;
      hide Eval;
      hide React;
      left := n;
      ghost var s0 := View();
      var emo := Board(p)[i];
      var abilities := GetBoardAbilities(p);
      assert abilities[0..] == abilities;
      for k := 0 to |abilities|
        invariant left <= n && Ends(React(OnShieldLost, abilities[k..], p, i, emo), View(), left, bases)
        invariant Eval(React(OnShieldLost, abilities, p, i, emo), s0, n, bases)
               == Eval(React(OnShieldLost, abilities[k..], p, i, emo), View(), left, bases)
      {
        var (owner, ability) := abilities[k];
        ReactNext(OnShieldLost, abilities, k, p, i, emo, View(), left, bases);
        if ability.GeneralSelf? && ability.trigger.AtAllyBattleAbilityRemoved? && ability.trigger.ability == SpecialAbility(Shield)
           && MatchedFighter(ability.trigger.cond, emo)
        {
          ok, left := ReactToShield(p, ability.action, owner, emo.baseId, ability.trigger.excludesSameBase, left);
          if !ok {
            return;
          }
        } else {
          NoMore(View(), left, bases);
        }
      }
      ok := true;
      ReactNone(OnShieldLost, p, i, emo);
      assert abilities[|abilities|..] == [];
      NoMore(View(), left, bases);
    }

    /** The part of the reaction that looks at the boards when its turn comes. */
    method ReactToShield(p: Player, action: BattleAction, owner: nat, removedBaseId: U16, excludesSameBase: bool, ghost n: nat)
      returns (ok: bool, ghost left: nat)
      requires Ends([ShieldReact(p, action, owner, removedBaseId, excludesSameBase)], View(), n, bases)
      modifies this
      ensures Did([ShieldReact(p, action, owner, removedBaseId, excludesSameBase)], old(View()), n, ok, View(), left, bases)
      decreases n, 0
    {
      hide Eval;
      StepOnce(ShieldReact(p, action, owner, removedBaseId, excludesSameBase), View(), n, bases);
      NoMore(View(), n - 1, bases);
      if excludesSameBase {
        var board := Board(p);
        if owner >= |board| {
          return false, n;
        }
        if removedBaseId == board[owner].baseId {
          return true, n - 1;
        }
      }
      ok, left := CallNormalActionAsOneself(p, action, owner, None, n - 1);
    }

    /** `counted` tells whether the caller counts a survived attack next. */
    method DamageEmo(damage: U16, p: Player, i: nat, ghost counted: bool, ghost n: nat)
      returns (ok: bool, survived: bool, ghost left: nat)
      requires Ends([DamageAt(p, i, damage, counted)], View(), n, bases)
      modifies this
      ensures left <= n
      ensures Eval([DamageAt(p, i, damage, counted)], old(View()), n, bases)
           == if ok then Eval(CountTask(p, i, counted && survived), View(), left, bases) else Outcome.Failed
      decreases n, 0
    {
      hide Eval;
      hide LoseShield;
      hide Retire;
      ghost var s := View();
      DamageSplit(s, p, i, damage, counted, n, bases);
      if i < |s.At(p)| && IndexOfAbility(s.At(p)[i].attr.abilities, SHIELD).Some? {
        ShieldSplit(s, p, i, IndexOfAbility(s.At(p)[i].attr.abilities, SHIELD).value, counted, n - 1, bases);
      }
      var shielded;
      ok, shielded, left := RemoveShieldIfExist(p, i, n - 1);
      if !ok {
        return false, false, left;
      }
      if shielded || damage == 0 {
        return true, true, left;
      }
      var board := Board(p);
      var health := Less16(board[i].attr.health, damage);
      logs := logs + [Damage(p, i, damage, health)];
      if health == 0 {
        ok, left := RetireEmo(p, i, n - 1);
        NoMore(View(), left, bases);
        return ok, false, left;
      } else {
        SetBoard(p, board[i := board[i].(attr := board[i].attr.(health := health))]);
        return true, true, left;
      }
    }

    method RetireEmo(p: Player, i: nat, ghost n: nat) returns (ok: bool, ghost left: nat)
      requires i < |Board(p)| && Ends(Retire(View(), p, i).1, Retire(View(), p, i).0, n, bases)
      modifies this
      ensures Did(Retire(old(View()), p, i).1, Retire(old(View()), p, i).0, n, ok, View(), left, bases)
      decreases n, 3
    {
      hide Eval;
      hide Step;
      var board := Board(p);
      var emo := board[i];
      SetBoard(p, board[..i] + board[i + 1..]);
      logs := logs + [Remove(p, i)];
      ghost var own := RetireTasks(BattleOf(emo.attr.abilities), p, i, Some(emo), false);
      assert own + [RetireAllies(p, i, emo), RetireRivals(p, emo)] == (own + [RetireAllies(p, i, emo)]) + [RetireRivals(p, emo)];
      Next(own + [RetireAllies(p, i, emo)], [RetireRivals(p, emo)], View(), n, bases);
      ok, left := CallRetirePlayerAbilities(p, i, emo, n);
      if !ok {
        return;
      }
      ok, left := CallRetireRivalAbilities(p, emo, left);
    }

    method CallRetirePlayerAbilities(p: Player, i: nat, emo: Fighter, ghost n: nat) returns (ok: bool, ghost left: nat)
      requires Ends(RetireTasks(BattleOf(emo.attr.abilities), p, i, Some(emo), false) + [RetireAllies(p, i, emo)], View(), n, bases)
      modifies this
      ensures Did(RetireTasks(BattleOf(emo.attr.abilities), p, i, Some(emo), false) + [RetireAllies(p, i, emo)], old(View()), n,
                  ok, View(), left, bases)
      decreases n, 2
    {
      hide Eval;
      Next(RetireTasks(BattleOf(emo.attr.abilities), p, i, Some(emo), false), [RetireAllies(p, i, emo)], View(), n, bases);
      ok, left := CallRetireActions(p, emo, i, Some(emo), false, n);
      if !ok {
        return;
      }
      StepOnce(RetireAllies(p, i, emo), View(), left, bases);
      left := left - 1;
      var abilities := GetBoardAbilities(p);
      Next(React(AllyRetired, abilities, p, i, emo), React(OnAllyRetired, abilities, p, i, emo), View(), left, bases);
      ok, left := CallAsAllies(abilities, p, i, emo, left);
      if !ok {
        return;
      }
      ok, left := CallAsOneselves(OnAllyRetired, abilities, p, i, emo, left);
    }

    /** The abilities that act as the retired ally. */
    method CallAsAllies(abilities: seq<(nat, BattleAbility)>, p: Player, i: nat, emo: Fighter, ghost n: nat)
      returns (ok: bool, ghost left: nat)
      requires Ends(React(AllyRetired, abilities, p, i, emo), View(), n, bases)
      modifies this
      ensures Did(React(AllyRetired, abilities, p, i, emo), old(View()), n, ok, View(), left, bases)
      decreases n, 1
    {
      hide Eval;
      hide Step;
      left := n;
      ghost var s0 := View();
      for k := 0 to |abilities|
        invariant left <= n && Ends(React(AllyRetired, abilities[k..], p, i, emo), View(), left, bases)
        invariant Eval(React(AllyRetired, abilities, p, i, emo), s0, n, bases)
               == Eval(React(AllyRetired, abilities[k..], p, i, emo), View(), left, bases)
      {
        var (owner, ability) := abilities[k];
        ReactNext(AllyRetired, abilities, k, p, i, emo, View(), left, bases);
        if ability.GeneralAlly? && ability.allyTrigger.AtAllyRetireAsAlly? && MatchedFighter(ability.allyTrigger.cond, emo) {
          ok, left := CallGeneralAsAllyAction(p, ability.allyAction, i, Some(emo), owner, left);
          if !ok {
            return;
          }
        } else {
          NoMore(View(), left, bases);
        }
      }
      ok := true;
      NoMore(View(), left, bases);
    }

    /** The abilities that act by themselves when an ally or a rival retires. */
    method CallAsOneselves(event: Event, abilities: seq<(nat, BattleAbility)>, p: Player, i: nat, emo: Fighter, ghost n: nat)
      returns (ok: bool, ghost left: nat)
      requires event.OnAllyRetired? || event.OnRivalRetired?
      requires Ends(React(event, abilities, p, i, emo), View(), n, bases)
      modifies this
      ensures Did(React(event, abilities, p, i, emo), old(View()), n, ok, View(), left, bases)
      decreases n, 1
    {
      hide Eval;
      hide Step;
      left := n;
      ghost var s0 := View();
      for k := 0 to |abilities|
        invariant left <= n && Ends(React(event, abilities[k..], p, i, emo), View(), left, bases)
        invariant Eval(React(event, abilities, p, i, emo), s0, n, bases)
               == Eval(React(event, abilities[k..], p, i, emo), View(), left, bases)
      {
        var (owner, ability) := abilities[k];
        ReactNext(event, abilities, k, p, i, emo, View(), left, bases);
        if ability.GeneralSelf? && ((event.OnAllyRetired? && ability.trigger.AtAllyRetire?)
                                    || (event.OnRivalRetired? && ability.trigger.AtRivalRetire?))
           && MatchedFighter(ability.trigger.cond, emo)
        {
          ok, left := CallNormalActionAsOneself(p, ability.action, owner, None, left);
          if !ok {
            return;
          }
        } else {
          NoMore(View(), left, bases);
        }
      }
      ok := true;
      NoMore(View(), left, bases);
    }

    method CallRetireRivalAbilities(p: Player, emo: Fighter, ghost n: nat) returns (ok: bool, ghost left: nat)
      requires Ends([RetireRivals(p, emo)], View(), n, bases)
      modifies this
      ensures Did([RetireRivals(p, emo)], old(View()), n, ok, View(), left, bases)
      decreases n, 2
    {
      hide Eval;
      StepOnce(RetireRivals(p, emo), View(), n, bases);
      var abilities := GetBoardAbilities(Other(p));
      ok, left := CallAsOneselves(OnRivalRetired, abilities, Other(p), 0, emo, n - 1);
    }

    method DamageAllEmos(p: Player, damage: U16, ghost n: nat) returns (ok: bool, ghost left: nat)
      requires Ends(DamageTasks(p, Ids(Board(p)), damage), View(), n, bases)
      modifies this
      ensures Did(DamageTasks(p, Ids(old(Board(p))), damage), old(View()), n, ok, View(), left, bases)
      decreases n, 1
    {
      hide Eval;
      left := n;
      ghost var s0 := View();
      var ids := Ids(Board(p));
      for k := 0 to |ids|
        invariant left <= n && Ends(DamageTasks(p, ids[k..], damage), View(), left, bases)
        invariant Eval(DamageTasks(p, ids, damage), s0, n, bases) == Eval(DamageTasks(p, ids[k..], damage), View(), left, bases)
      {
        assert ids[k..][1..] == ids[k + 1..];
        Next([DamageId(p, ids[k], damage)], DamageTasks(p, ids[k + 1..], damage), View(), left, bases);
        StepOnce(DamageId(p, ids[k], damage), View(), left, bases);
        left := left - 1;
        NoMore(View(), left, bases);
        var index := IndexOfId(Board(p), ids[k]);
        if index.Some? {
          var survived;
          ok, survived, left := DamageEmo(damage, p, index.value, false, left);
          if !ok {
            return;
          }
          NoMore(View(), left, bases);
        }
      }
      ok := true;
      NoMore(View(), left, bases);
    }

    // ----- one attack -----

    /** The leftmost emo among those with the fewest attacks. */
    method GetAttackEmoIndex(p: Player) returns (index: nat)
      requires Board(p) != []
      ensures index == AttackIndex(Board(p))
    {
      var emos := Board(p);
      index := 0;
      var fewest := emos[0].survived;
      for i := 1 to |emos|
        invariant index == AttackIndex(emos[..i]) && fewest == emos[index].survived
      {
        assert emos[..i + 1][..i] == emos[..i];
        if fewest > emos[i].survived {
          fewest := emos[i].survived;
          index := i;
        }
      }
      assert emos[..|emos|] == emos;
    }

    method GetLowestAttackEmoIndex(p: Player) returns (index: nat)
      requires Board(p) != []
      modifies this`tape
      ensures index == DefenseIndex(Board(p), true, old(tape)) && tape == After(old(tape), 1)
    {
      var emos := Board(p);
      var indexes := [0];
      var lowest := emos[0].attr.attack;
      for i := 1 to |emos|
        invariant (indexes, lowest) == LowestIndexes(emos, i)
      {
        var attack := emos[i].attr.attack;
        assert [i] + [i] == [i, i];
        if lowest > attack {
          indexes := [i];
          lowest := attack;
        }
        if lowest == attack {
          indexes := indexes + [i];
        }
      }
      index := indexes[Choice(tape, |indexes|)];
      tape := After(tape, 1);
    }

    method GetDefenseEmoIndex(p: Player, isLowest: bool) returns (index: nat)
      requires Board(p) != []
      modifies this`tape
      ensures index == DefenseIndex(Board(p), isLowest, old(tape)) && tape == After(old(tape), 1)
    {
      if isLowest {
        index := GetLowestAttackEmoIndex(p);
        return;
      }
      var attractive := AttractiveIndexes(Board(p), 0);
      index := if attractive != [] then attractive[Choice(tape, |attractive|)] else Choice(tape, |Board(p)|);
      tape := After(tape, 1);
    }

    method AttackDamage(p: Player, i: nat, j: nat, ghost n: nat) returns (ok: bool, ghost left: nat)
      requires i < |Board(p)| && j < |Board(Other(p))|
      requires Ends([DamageAt(Other(p), j, Board(p)[i].attr.attack, false), StrikeBack(p, i, Board(Other(p))[j].attr.attack)],
                    View(), n, bases)
      modifies this
      ensures Did([DamageAt(Other(p), j, old(Board(p)[i].attr.attack), false), StrikeBack(p, i, old(Board(Other(p))[j].attr.attack))],
                  old(View()), n, ok, View(), left, bases)
    {
      hide Eval;
      hide DamageFighter;
      var q := Other(p);
      var attack, defense := Board(p)[i].attr.attack, Board(q)[j].attr.attack;
      assert [DamageAt(q, j, attack, false)] + [StrikeBack(p, i, defense)] == [DamageAt(q, j, attack, false), StrikeBack(p, i, defense)];
      Next([DamageAt(q, j, attack, false)], [StrikeBack(p, i, defense)], View(), n, bases);
      var survived;
      ok, survived, left := DamageEmo(attack, q, j, false, n);
      if !ok {
        return;
      }
      NoMore(View(), left, bases);
      StepOnce(StrikeBack(p, i, defense), View(), left, bases);
      left := left - 1;
      if i >= |Board(p)| {
        NoMore(View(), left, bases);
        return true, left;
      }
      ok, survived, left := DamageEmo(defense, p, i, true, left);
      if !ok {
        return;
      }
      if survived {
        RaiseIsPlain(CountSurvived(p, i), View(), left, bases);
        left := left - 1;
        var board := Board(p);
        if i >= |board| {
          return false, left;
        }
        SetBoard(p, board[i := board[i].(survived := board[i].survived + 1)]);
      } else {
        NoMore(View(), left, bases);
      }
    }

    /** One attack of `p`; an error when a board is empty. */
    method Attack(p: Player, ghost n: nat) returns (ok: bool, ghost left: nat)
      requires EndsAfter(AttackTasks(View(), p), n, bases)
      modifies this
      ensures DidAfter(AttackTasks(old(View()), p), n, ok, View(), left, bases)
    {
      hide Eval;
      hide AttackIndex;
      hide DefenseIndex;
      if Board(p) == [] || Board(Other(p)) == [] {
        return false, n;
      }
      var i := GetAttackEmoIndex(p);
      var isLowest := HasSpecial(Board(p)[i], AttackLowestAttack);
      var j := GetDefenseEmoIndex(Other(p), isLowest);
      logs := logs + [Log.Attack(p, i, j)];
      ok, left := AttackDamage(p, i, j, n);
    }

    // ----- before the first attack -----

    method CallPreAbilities(p: Player, ghost n: nat) returns (ok: bool, ghost left: nat)
      requires CallPre(View(), p, n, bases) != Running
      modifies this
      ensures CallPre(old(View()), p, n, bases) == (if ok then Done(View(), left) else Outcome.Failed) && left <= n
    {
      hide Eval;
      left := n;
      ghost var s0 := View();
      var abilities := GetBoardAbilities(p);
      for k := 0 to |abilities|
        invariant left <= n && Ends(PreTasks(abilities[k..], p), View(), left, bases)
        invariant Eval(PreTasks(abilities, p), s0, n, bases) == Eval(PreTasks(abilities[k..], p), View(), left, bases)
      {
        assert abilities[k..][1..] == abilities[k + 1..];
        var (owner, ability) := abilities[k];
        ghost var rest := PreTasks(abilities[k + 1..], p);
        if ability.GeneralSelf? && ability.trigger.AtPre? {
          Next([ActAsOneself(p, ability.action, owner, None)], rest, View(), left, bases);
          ok, left := CallNormalActionAsOneself(p, ability.action, owner, None, left);
          if !ok {
            return;
          }
        } else {
          assert [] + rest == rest;
        }
      }
      ok := true;
      NoMore(View(), left, bases);
    }
  }
}
