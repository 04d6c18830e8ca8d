/** An index that a battle ability was called with can only go stale by damage to a whole board. Over a table without such
    damage no lookup of a battle fails, and a march of legal boards is an error exactly when both still stand at the end. */
module BattleIndexes {
  import opened Types
  import opened Battle
  import opened BattleTargets
  import opened March
  import BattleLog

  // ----- firm abilities -----

  /** Neither the ability nor any that it grants damages a whole board, sets an unknown base or divides by zero. */
  predicate Firm(ability: BattleAbility, bases: Bases)
    decreases ability
  {
    match ability
    case SpecialAbility(_) => true
    case GeneralSelf(_, action) => FirmAction(action, bases)
    case GeneralAlly(_, AllyNormal(action)) => FirmAction(action, bases)
    case GeneralAlly(_, TriggerRetireActions) => true
  }

  predicate FirmAction(action: BattleAction, bases: Bases)
    decreases action
  {
    match action
    case Spawn(_, baseId) => baseId in bases
    case SpawnByAttackDiv(_, baseId, divisor) => baseId in bases && divisor != 0
    case AddBattleAbility(_, ability) => Firm(ability, bases)
    case DamageAll(_, _) => false
    case _ => true
  }

  ghost predicate FirmList(abilities: seq<Ability>, bases: Bases) { forall a :: a in abilities && a.Battle? ==> Firm(a.battle, bases) }

  ghost predicate FirmEmo(e: Fighter, bases: Bases) { FirmList(e.attr.abilities, bases) }

  ghost predicate FirmBoard(board: seq<Fighter>, bases: Bases) { forall e :: e in board ==> FirmEmo(e, bases) }

  ghost predicate FirmState(s: State, bases: Bases) { FirmBoard(s.zero, bases) && FirmBoard(s.one, bases) }

  ghost predicate FirmTable(bases: Bases) { forall id :: id in bases ==> FirmList(bases[id].abilities, bases) }

  // ----- live tasks -----

  /** A standing actor is on the board; a retired one left a place that is there. */
  ghost predicate Placed(s: State, p: Player, i: nat, retired: Option<Fighter>, bases: Bases) {
    if retired.Some? then i <= |s.At(p)| && FirmEmo(retired.value, bases) else i < |s.At(p)|
  }

  /** Every index and base of the task can be looked up. */
  ghost predicate Live(t: Task, s: State, bases: Bases) {
    match t
    case Act(p, action, i, retired, _) => FirmAction(action, bases) && Placed(s, p, i, retired, bases)
    case ActAsOneself(p, action, i, retired) => FirmAction(action, bases) && Placed(s, p, i, retired, bases)
    case ActAsAlly(p, ally, i, retired, onesIndex) =>
      && (ally.AllyNormal? ==> FirmAction(ally.action, bases)) && Placed(s, p, i, retired, bases) && onesIndex < |s.At(p)|
    case SetEmo(p, i, baseId, _, _, side) => baseId in bases && (side == Ally ==> i <= |s.At(p)|)
    case RaiseAt(p, i, _, _) => i < |s.At(p)|
    case LowerAt(p, i, _, _) => i < |s.At(p)|
    case GrantAt(p, i, ability) => i < |s.At(p)| && Firm(ability, bases)
    case DamageAt(p, i, _, _) => i < |s.At(p)|
    case DamageId(_, _, _) => false
    case StrikeBack(_, _, _) => true
    case CountSurvived(p, i) => i < |s.At(p)|
    case ShieldReact(p, action, i, _, _) => i < |s.At(p)| && FirmAction(action, bases)
    case RetireAllies(p, i, emo) => i <= |s.At(p)| && FirmEmo(emo, bases)
    case RetireRivals(_, _) => true
  }

  ghost predicate AllLive(ts: seq<Task>, s: State, bases: Bases) { forall t :: t in ts ==> Live(t, s, bases) }

  predicate Hits(t: Task) { t.DamageAt? || t.StrikeBack? }

  ghost predicate Calm(ts: seq<Task>) { forall t :: t in ts ==> !Hits(t) }

  ghost predicate NoSmaller(s: State, s': State) { |s.zero| <= |s'.zero| && |s.one| <= |s'.one| }

  lemma StaysLive(t: Task, s: State, s': State, bases: Bases)
    requires Live(t, s, bases) && NoSmaller(s, s')
    ensures Live(t, s', bases)
  {
  }

  // ----- the lists of tasks -----

  lemma {:induction false} BattleOfFirm(abilities: seq<Ability>, bases: Bases)
    requires FirmList(abilities, bases)
    ensures forall x :: x in BattleOf(abilities) ==> Firm(x, bases)
  {
    hide Firm;
    if abilities != [] {
      assert abilities[0] in abilities;
      BattleOfFirm(abilities[1..], bases);
    }
  }

  lemma {:induction false} NumberedFirm(items: seq<BattleAbility>, i: nat, bases: Bases)
    requires forall x :: x in items ==> Firm(x, bases)
    ensures forall x :: x in Numbered(items, i) ==> x.0 == i && Firm(x.1, bases)
  {
    hide Firm;
    if items != [] {
      NumberedFirm(items[1..], i, bases);
    }
  }

  lemma {:induction false} BoardAbilitiesFirm(board: seq<Fighter>, from: nat, bases: Bases)
    requires FirmBoard(board, bases)
    ensures forall x :: x in BoardAbilities(board, from) ==> x.0 < from + |board| && Firm(x.1, bases)
  {
    hide Firm;
    if board != [] {
      assert board[0] in board;
      BattleOfFirm(board[0].attr.abilities, bases);
      NumberedFirm(BattleOf(board[0].attr.abilities), from, bases);
      BoardAbilitiesFirm(board[1..], from + 1, bases);
    }
  }

  ghost predicate Reacts(event: Event, s: State, p: Player, i: nat, emo: Fighter, bases: Bases) {
    && (event.AllyRetired? ==> i <= |s.At(p)| && FirmEmo(emo, bases))
    && (event.AllySet? ==> i < |s.At(p)|)
  }

  lemma {:induction false} ReactLive(event: Event, abilities: seq<(nat, BattleAbility)>, p: Player, i: nat, emo: Fighter, s: State,
                                     bases: Bases)
    requires Reacts(event, s, p, i, emo, bases) && forall x :: x in abilities ==> x.0 < |s.At(p)| && Firm(x.1, bases)
    ensures AllLive(React(event, abilities, p, i, emo), s, bases) && Calm(React(event, abilities, p, i, emo))
  {
    if abilities != [] {
      assert abilities[0] in abilities;
      ReactLive(event, abilities[1..], p, i, emo, s, bases);
      ReactOneLive(event, abilities[0].0, abilities[0].1, p, i, emo, s, bases);
      hide ReactOne;
      hide Live;
    }
  }

  lemma ReactOneLive(event: Event, owner: nat, ability: BattleAbility, p: Player, i: nat, emo: Fighter, s: State, bases: Bases)
    requires Reacts(event, s, p, i, emo, bases) && owner < |s.At(p)| && Firm(ability, bases)
    ensures var ts := ReactOne(event, owner, ability, p, i, emo); AllLive(ts, s, bases) && Calm(ts)
  {
  }

  lemma BoardReactsLive(event: Event, s: State, p: Player, i: nat, emo: Fighter, bases: Bases)
    requires FirmState(s, bases) && Reacts(event, s, p, i, emo, bases)
    ensures var ts := React(event, BoardAbilities(s.At(p), 0), p, i, emo); AllLive(ts, s, bases) && Calm(ts)
  {
    BoardAbilitiesFirm(s.At(p), 0, bases);
    ReactLive(event, BoardAbilities(s.At(p), 0), p, i, emo, s, bases);
  }

  lemma {:induction false} RepeatLive(t: Task, n: nat, s: State, bases: Bases)
    requires Live(t, s, bases) && !Hits(t)
    ensures AllLive(Repeat(t, n), s, bases) && Calm(Repeat(t, n))
  {
    if n > 0 {
      RepeatLive(t, n - 1, s, bases);
    }
  }

  lemma {:induction false} RetireTasksLive(abilities: seq<BattleAbility>, p: Player, i: nat, retired: Option<Fighter>, twice: bool,
                                           s: State, bases: Bases)
    requires Placed(s, p, i, retired, bases) && forall x :: x in abilities ==> Firm(x, bases)
    ensures var ts := RetireTasks(abilities, p, i, retired, twice); AllLive(ts, s, bases) && Calm(ts)
  {
    if abilities != [] {
      assert abilities[0] in abilities;
      RetireTasksLive(abilities[1..], p, i, retired, twice, s, bases);
      if abilities[0].GeneralSelf? {
        RepeatLive(ActAsOneself(p, abilities[0].action, i, retired), if twice then 2 else 1, s, bases);
      }
      hide Live;
    }
  }

  lemma {:induction false} StatTasksLive(p: Player, indexes: seq<nat>, attack: U16, health: U16, s: State, bases: Bases)
    requires forall j :: j in indexes ==> j < |s.At(p)|
    ensures AllLive(RaiseTasks(p, indexes, attack, health), s, bases) && Calm(RaiseTasks(p, indexes, attack, health))
    ensures AllLive(LowerTasks(p, indexes, attack, health), s, bases) && Calm(LowerTasks(p, indexes, attack, health))
  {
    if indexes != [] {
      assert indexes[0] in indexes && forall j :: j in indexes[1..] ==> j in indexes;
      StatTasksLive(p, indexes[1..], attack, health, s, bases);
    }
  }

  lemma {:induction false} GrantTasksLive(p: Player, indexes: seq<nat>, ability: BattleAbility, s: State, bases: Bases)
    requires (forall j :: j in indexes ==> j < |s.At(p)|) && Firm(ability, bases)
    ensures AllLive(GrantTasks(p, indexes, ability), s, bases) && Calm(GrantTasks(p, indexes, ability))
  {
    if indexes != [] {
      assert indexes[0] in indexes && forall j :: j in indexes[1..] ==> j in indexes;
      GrantTasksLive(p, indexes[1..], ability, s, bases);
    }
  }

  // ----- actions -----

  lemma PicksExist(s: State, p: Player, i: nat, who: TargetOrRandom, retired: Option<Fighter>, bases: Bases)
    requires Placed(s, p, i, retired, bases)
    ensures var r := PickIndexes(s.At(p), i, who, retired.Some?, s.tape); r.Some? && forall j :: j in r.value.0 ==> j < |s.At(p)|
  {
    hide OtherIndexes;
    hide TargetIndexes;
    match who
    case To(target) => TargetsAreExact(s.At(p), i, target, retired.Some?);
    case Random(cond, count) => RandomIsLegal(s.At(p), i, cond, count, retired.Some?, s.tape);
  }

  lemma ReceiversExist(s: State, p: Player, i: nat, who: TargetOrRandom, ability: BattleAbility, isTriple: bool,
                       retired: Option<Fighter>, bases: Bases)
    requires Placed(s, p, i, retired, bases)
    ensures var r := PickReceivers(s.At(p), i, who, ability, isTriple, retired.Some?, s.tape);
            r.Some? && forall j :: j in r.value.0 ==> j < |s.At(p)|
  {
    hide OtherIndexes;
    hide TargetIndexes;
    hide Without;
    match who
    case To(target) => TargetsAreExact(s.At(p), i, target, retired.Some?);
    case Random(cond, count) => RandomGrantIsLegal(s.At(p), i, cond, count, ability, isTriple, retired.Some?, s.tape);
  }

  /** The step succeeds, leaves firm boards and pushes tasks that can all be looked up and hit nobody. */
  ghost predicate Succeeds(r: Option<(State, seq<Task>)>, bases: Bases) {
    r.Some? && FirmState(r.value.0, bases) && AllLive(r.value.1, r.value.0, bases) && Calm(r.value.1)
  }

  lemma ActSucceeds(s: State, p: Player, action: BattleAction, i: nat, retired: Option<Fighter>, isTriple: bool, bases: Bases)
    requires FirmState(s, bases) && FirmAction(action, bases) && Placed(s, p, i, retired, bases)
    ensures var r := SpreadAct(s, p, action, i, retired, isTriple);
            r.Some? && AllLive(r.value.1, s, bases) && Calm(r.value.1)
  {
    hide PickIndexes;
    hide PickReceivers;
    hide CountMatched;
    hide FirmState;
    var emo := Actor(s, p, i, retired).value;
    var newIndex := if retired.Some? then i else i + 1;
    match action
    case Spawn(side, baseId) =>
    case SpawnByAttackDiv(side, baseId, divisor) =>
      RepeatLive(Task.SetEmo(p, newIndex, baseId, isTriple, emo.survived, side), Min(emo.attr.attack / divisor, BOARD_EMO_MAX_COUNT),
                 s, bases);
    case Raise(who, attack, health) =>
      PicksExist(s, p, i, who, retired, bases);
      StatTasksLive(p, PickIndexes(s.At(p), i, who, retired.Some?, s.tape).value.0, DoubleIf(isTriple, attack),
                    DoubleIf(isTriple, health), s, bases);
    case Lower(who, attack, health) =>
      PicksExist(s, p, i, who, retired, bases);
      StatTasksLive(p, PickIndexes(s.At(p), i, who, retired.Some?, s.tape).value.0, DoubleIf(isTriple, attack),
                    DoubleIf(isTriple, health), s, bases);
    case RaiseByEmoCount(side, who, cond, attack, health) =>
      PicksExist(s, p, i, who, retired, bases);
      var count := if side == Ally then CountMatched(s.At(p), 0, i, false, cond) else CountMatched(s.At(Other(p)), 0, 0, true, cond);
      StatTasksLive(p, PickIndexes(s.At(p), i, who, retired.Some?, s.tape).value.0, DoubleIf(isTriple, Sat16(attack * count)),
                    DoubleIf(isTriple, Sat16(health * count)), s, bases);
    case AddBattleAbility(who, ability) =>
      ReceiversExist(s, p, i, who, ability, isTriple, retired, bases);
      GrantTasksLive(p, PickReceivers(s.At(p), i, who, ability, isTriple, retired.Some?, s.tape).value.0, ability, s, bases);
  }

  // ----- rewriting steps -----

  lemma PutFirm(s: State, p: Player, i: nat, e: Fighter, bases: Bases)
    requires FirmState(s, bases) && i < |s.At(p)| && FirmEmo(e, bases)
    ensures FirmState(Put(s, p, i, e), bases) && NoSmaller(s, Put(s, p, i, e))
  {
  }

  lemma PlainSucceeds(s: State, t: Task, bases: Bases)
    requires t.RaiseAt? || t.LowerAt? || t.GrantAt? || t.CountSurvived?
    requires FirmState(s, bases) && Live(t, s, bases)
    ensures var r := Step(s, t, bases); Succeeds(r, bases) && NoSmaller(s, r.value.0)
  {
    hide Firm;
    hide FirmState;
    var r, e := Step(s, t, bases), s.At(t.p)[t.i];
    assert FirmEmo(e, bases) by {
      FirmAt(s, t.p, t.i, bases);
    }
    var e' := r.value.0.At(t.p)[t.i];
    assert t.GrantAt? ==> e'.attr.abilities == e.attr.abilities || e'.attr.abilities == e.attr.abilities + [Ability.Battle(t.ability)];
    assert !t.GrantAt? ==> e'.attr.abilities == e.attr.abilities;
    PutFirm(s, t.p, t.i, e', bases);
    SameFirm(Put(s, t.p, t.i, e'), r.value.0, bases);
  }

  lemma FirmAt(s: State, p: Player, i: nat, bases: Bases)
    requires FirmState(s, bases) && i < |s.At(p)|
    ensures FirmEmo(s.At(p)[i], bases)
  {
    assert s.At(p)[i] in s.At(p);
  }

  lemma SameFirm(s: State, s': State, bases: Bases)
    requires FirmState(s, bases) && s.zero == s'.zero && s.one == s'.one
    ensures FirmState(s', bases)
  {
  }

  lemma AddSucceeds(s: State, p: Player, i: nat, e: Fighter, bases: Bases)
    requires FirmState(s, bases) && i <= |s.At(p)| && FirmEmo(e, bases)
    ensures var r := AddFighter(s, p, i, e); Succeeds(r, bases) && NoSmaller(s, r.value.0)
  {
    hide FirmEmo;
    hide Live;
    hide React;
    hide BoardAbilities;
    if |s.At(p)| < BOARD_EMO_MAX_COUNT {
      var s' := AddFighter(s, p, i, e).value.0;
      assert FirmState(s', bases);
      BoardReactsLive(AllySet, s', p, i, e, bases);
    }
  }

  lemma SetSucceeds(s: State, t: Task, bases: Bases)
    requires t.SetEmo? && FirmState(s, bases) && FirmTable(bases) && Live(t, s, bases)
    ensures var r := Step(s, t, bases); Succeeds(r, bases) && NoSmaller(s, r.value.0)
  {
    hide AddFighter;
    hide FirmList;
    var base, s' := bases[t.baseId], s.(next := s.next + 1);
    if t.side == Ally {
      AddSucceeds(s', t.p, t.i, NewFighter(base, t.isTriple, t.survived, s.next), bases);
    } else {
      var rivals := s.At(Other(t.p));
      var inherited := if rivals == [] then 0 else rivals[|rivals| - 1].survived;
      AddSucceeds(s', Other(t.p), |rivals|, NewFighter(base, t.isTriple, inherited, s.next), bases);
    }
  }

  lemma SpreadSucceeds(s: State, t: Task, bases: Bases)
    requires t.ActAsOneself? || t.ActAsAlly? || t.ShieldReact? || t.RetireAllies? || t.RetireRivals?
    requires FirmState(s, bases) && Live(t, s, bases)
    ensures var r := Spread(s, t); r.Some? && AllLive(r.value, s, bases) && Calm(r.value)
  {
    match t
    case ActAsAlly(p, action, i, retired, onesIndex) =>
      if action.TriggerRetireActions? {
        hide Firm;
        var ally := Actor(s, p, i, retired).value;
        assert retired.None? ==> s.At(p)[i] in s.At(p);
        BattleOfFirm(ally.attr.abilities, bases);
        RetireTasksLive(BattleOf(ally.attr.abilities), p, i, retired, s.At(p)[onesIndex].attr.isTriple, s, bases);
      }
    case RetireAllies(p, i, emo) =>
      BoardReactsLive(AllyRetired, s, p, i, emo, bases);
      BoardReactsLive(OnAllyRetired, s, p, i, emo, bases);
    case RetireRivals(p, emo) => BoardReactsLive(OnRivalRetired, s, Other(p), 0, emo, bases);
    case _ =>
  }

  /** A step of a live task that hits nobody succeeds and leaves no board smaller. */
  lemma CalmStep(s: State, t: Task, bases: Bases)
    requires FirmState(s, bases) && FirmTable(bases) && Live(t, s, bases) && !Hits(t)
    ensures var r := Step(s, t, bases); Succeeds(r, bases) && NoSmaller(s, r.value.0)
  {
    hide Spread;
    hide SpreadAct;
    hide SetFighter;
    hide FirmBoard;
    hide FirmTable;
    hide Firm;
    match t
    case Act(p, action, i, retired, isTriple) =>
      ActSucceeds(s, p, action, i, retired, isTriple, bases);
      var r := SpreadAct(s, p, action, i, retired, isTriple).value;
      forall x | x in r.1 ensures Live(x, s.(tape := r.0), bases) {
        StaysLive(x, s, s.(tape := r.0), bases);
      }
    case SetEmo(_, _, _, _, _, _) => SetSucceeds(s, t, bases);
    case RaiseAt(_, _, _, _) => PlainSucceeds(s, t, bases);
    case LowerAt(_, _, _, _) => PlainSucceeds(s, t, bases);
    case GrantAt(_, _, _) => PlainSucceeds(s, t, bases);
    case CountSurvived(_, _) => PlainSucceeds(s, t, bases);
    case _ => SpreadSucceeds(s, t, bases);
  }

  lemma LoseShieldSucceeds(s: State, p: Player, i: nat, k: nat, counted: bool, bases: Bases)
    requires FirmState(s, bases) && i < |s.At(p)| && k < |s.At(p)[i].attr.abilities|
    ensures Succeeds(Some(LoseShield(s, p, i, k, counted)), bases)
  {
    hide Firm;
    hide React;
    hide BoardAbilities;
    var r := LoseShield(s, p, i, k, counted);
    var e, e' := s.At(p)[i], r.0.At(p)[i];
    assert e in s.At(p);
    assert forall a :: a in e'.attr.abilities ==> a in e.attr.abilities;
    PutFirm(s, p, i, e', bases);
    BoardReactsLive(OnShieldLost, r.0, p, i, e', bases);
  }

  lemma RetireSucceeds(s: State, p: Player, i: nat, bases: Bases)
    requires FirmState(s, bases) && i < |s.At(p)|
    ensures Succeeds(Some(Retire(s, p, i)), bases)
  {
    hide Firm;
    hide RetireTasks;
    hide BattleOf;
    var r, e := Retire(s, p, i), s.At(p)[i];
    assert e in s.At(p) && FirmEmo(e, bases);
    assert forall x :: x in r.0.At(p) ==> x in s.At(p);
    BattleOfFirm(e.attr.abilities, bases);
    RetireTasksLive(BattleOf(e.attr.abilities), p, i, Some(e), false, r.0, bases);
  }

  lemma DamageSucceeds(s: State, p: Player, i: nat, damage: U16, counted: bool, bases: Bases)
    requires FirmState(s, bases) && i < |s.At(p)|
    ensures Succeeds(DamageFighter(s, p, i, damage, counted), bases)
  {
    hide LoseShield;
    hide Retire;
    hide Firm;
    var e := s.At(p)[i];
    var shield, health := IndexOfAbility(e.attr.abilities, SHIELD), Less16(e.attr.health, damage);
    var s' := s.Logged(Damage(p, i, damage, health));
    if shield.Some? {
      LoseShieldSucceeds(s, p, i, shield.value, counted, bases);
    } else if damage != 0 {
      if health == 0 {
        RetireSucceeds(s', p, i, bases);
      } else {
        assert e in s.At(p);
        PutFirm(s', p, i, e.(attr := e.attr.(health := health)), bases);
      }
    }
  }

  // ----- cascades -----

  /** Pending tasks of an attack: all can be looked up, a damage has nothing but a counter attack behind it, and a counter
      attack comes last. */
  ghost predicate Steady(ts: seq<Task>, s: State, bases: Bases) {
    && AllLive(ts, s, bases)
    && (forall k, l :: 0 <= k < |ts| && 0 <= l < |ts| && k != l && ts[k].DamageAt? ==> ts[l].StrikeBack?)
    && (forall k :: 0 <= k < |ts| && ts[k].StrikeBack? ==> k == |ts| - 1)
  }

  lemma CalmThenRest(more: seq<Task>, rest: seq<Task>, s: State, bases: Bases)
    requires AllLive(more, s, bases) && Calm(more) && AllLive(rest, s, bases)
    requires forall t :: t in rest ==> !t.DamageAt?
    requires forall k :: 0 <= k < |rest| && rest[k].StrikeBack? ==> k == |rest| - 1
    ensures Steady(more + rest, s, bases)
  {
    hide Live;
    var ts := more + rest;
    forall k | 0 <= k < |ts| ensures !ts[k].DamageAt? && (ts[k].StrikeBack? ==> k == |ts| - 1) {
      if k < |more| {
        assert ts[k] in more;
      } else {
        assert ts[k] == rest[k - |more|] && ts[k] in rest;
      }
    }
  }

  lemma RestOfSteady(ts: seq<Task>, s: State, bases: Bases)
    requires Steady(ts, s, bases) && ts != []
    ensures forall t :: t in ts[1..] ==> Live(t, s, bases) && !t.DamageAt?
    ensures forall k :: 0 <= k < |ts[1..]| && ts[1..][k].StrikeBack? ==> k == |ts[1..]| - 1
    ensures ts[0].DamageAt? ==> forall t :: t in ts[1..] ==> t.StrikeBack?
    ensures ts[0].StrikeBack? ==> ts[1..] == []
  {
    hide Live;
    forall t | t in ts[1..] ensures Live(t, s, bases) && !t.DamageAt? && (ts[0].DamageAt? ==> t.StrikeBack?) {
      var k :| 0 <= k < |ts[1..]| && ts[1..][k] == t;
      assert ts[k + 1] == t && t in ts;
      assert ts[0].StrikeBack? ==> 0 == |ts| - 1;
    }
    forall k | 0 <= k < |ts[1..]| && ts[1..][k].StrikeBack? ensures k == |ts[1..]| - 1 {
      assert ts[k + 1] == ts[1..][k];
    }
  }

  /** One step of an attack: it succeeds, and what is then pending is steady again. */
  lemma SteadyStep(ts: seq<Task>, s: State, bases: Bases)
    requires FirmState(s, bases) && FirmTable(bases) && Steady(ts, s, bases) && ts != []
    ensures var r := Step(s, ts[0], bases);
            r.Some? && FirmState(r.value.0, bases) && Steady(r.value.1 + ts[1..], r.value.0, bases)
  {
    hide FirmState;
    hide FirmTable;
    hide DamageFighter;
    var t, r := ts[0], Step(s, ts[0], bases);
    RestOfSteady(ts, s, bases);
    assert t in ts && Live(t, s, bases);
    if t.StrikeBack? {
      assert r.value.1 + ts[1..] == r.value.1;
    } else if t.DamageAt? {
      DamageSucceeds(s, t.p, t.i, t.damage, t.counted, bases);
      CalmThenRest(r.value.1, ts[1..], r.value.0, bases);
    } else {
      hide Step;
      CalmStep(s, t, bases);
      forall x | x in ts[1..] ensures Live(x, r.value.0, bases) {
        StaysLive(x, s, r.value.0, bases);
      }
      CalmThenRest(r.value.1, ts[1..], r.value.0, bases);
    }
  }

  /** No lookup of the cascade of an attack fails, whatever the budget. */
  lemma {:induction false} NeverStale(ts: seq<Task>, s: State, n: nat, bases: Bases)
    requires FirmState(s, bases) && FirmTable(bases) && Steady(ts, s, bases)
    ensures Eval(ts, s, n, bases) != Failed
    ensures var o := Eval(ts, s, n, bases); o.Done? ==> FirmState(o.s, bases)
    decreases n
  {
    hide Step;
    hide FirmState;
    hide FirmTable;
    hide Steady;
    if ts != [] && n > 0 {
      SteadyStep(ts, s, bases);
      var r := Step(s, ts[0], bases).value;
      NeverStale(r.1 + ts[1..], r.0, n - 1, bases);
    }
  }

  // ----- marches -----

  lemma {:induction false} PreLive(abilities: seq<(nat, BattleAbility)>, p: Player, s: State, bases: Bases)
    requires forall x :: x in abilities ==> x.0 < |s.At(p)| && Firm(x.1, bases)
    ensures AllLive(PreTasks(abilities, p), s, bases) && Calm(PreTasks(abilities, p))
  {
    if abilities != [] {
      assert abilities[0] in abilities;
      PreLive(abilities[1..], p, s, bases);
    }
  }

  lemma PreNeverStale(s: State, p: Player, n: nat, bases: Bases)
    requires FirmState(s, bases) && FirmTable(bases)
    ensures CallPre(s, p, n, bases) != Outcome.Failed
    ensures var o := CallPre(s, p, n, bases); o.Done? ==> FirmState(o.s, bases)
  {
    var ts := PreTasks(BoardAbilities(s.At(p), 0), p);
    BoardAbilitiesFirm(s.At(p), 0, bases);
    PreLive(BoardAbilities(s.At(p), 0), p, s, bases);
    hide Live;
    assert forall k :: 0 <= k < |ts| ==> ts[k] in ts;
    assert Steady(ts, s, bases);
    NeverStale(ts, s, n, bases);
  }

  lemma OpeningNeverStale(s: State, n: nat, bases: Bases)
    requires FirmState(s, bases) && FirmTable(bases)
    ensures var o := Opening(s, n, bases).1; o != Outcome.Failed && (o.Done? ==> FirmState(o.s, bases))
  {
    hide CallPre;
    hide FirmTable;
    var (first, s1) := FirstAttacker(s);
    assert FirmState(s1, bases);
    hide FirmState;
    PreNeverStale(s1, first, n, bases);
    var o := CallPre(s1, first, n, bases);
    if o.Done? {
      PreNeverStale(o.s, Other(first), o.left, bases);
    }
  }

  lemma AttackNeverStale(s: State, num: nat, first: Player, n: nat, bases: Bases)
    requires FirmState(s, bases) && FirmTable(bases) && !Over(s)
    ensures AttackOnce(s, num, first, n, bases) != Outcome.Failed
    ensures var o := AttackOnce(s, num, first, n, bases); o.Done? ==> FirmState(o.s, bases)
  {
    hide Eval;
    hide AttackIndex;
    hide DefenseIndex;
    var (s', ts) := AttackTasks(s, AttackerOf(num, first)).value;
    assert Steady(ts, s', bases);
    NeverStale(ts, s', n, bases);
  }

  /** Whenever a tick begins the boards are firm. */
  lemma {:induction false} FirmTick(s: State, num: nat, n: nat, bases: Bases)
    requires FirmState(s, bases) && FirmTable(bases) && 1 <= num
    ensures var r := AtTick(s, num, n, bases); r.Some? ==> FirmState(r.value.0, bases) && !Over(r.value.0)
    decreases num
  {
    hide Opening;
    hide AttackOnce;
    hide FirmState;
    hide FirmTable;
    if num == 1 {
      OpeningNeverStale(s, n, bases);
    } else {
      FirmTick(s, num - 1, n, bases);
      var r := AtTick(s, num - 1, n, bases);
      if r.Some? {
        AttackNeverStale(r.value.0, num - 1, Opening(s, n, bases).0, r.value.1, bases);
      }
    }
  }

  /** Emos still stand on both boards when the counter of ticks is used up. */
  ghost predicate OutOfTicks(s: State, n: nat, bases: Bases) {
    var r := AtTick(s, TICK_MAX, n, bases);
    r.Some? && var o := AttackOnce(r.value.0, TICK_MAX, Opening(s, n, bases).0, r.value.1, bases); o.Done? && !Over(o.s)
  }

  lemma {:induction false} FailsFromTick(s: State, num: nat, n: nat, bases: Bases)
    requires Ready(s, bases) && FirmState(s, bases) && FirmTable(bases) && 1 <= num <= TICK_MAX
    requires AtTick(s, num, n, bases).Some? && MarchResult(s, n, bases) == MFailed
    ensures OutOfTicks(s, n, bases)
    decreases TICK_MAX - num
  {
    hide Opening;
    hide AttackOnce;
    hide Grades;
    hide Kept;
    hide MarchResult;
    hide FirmState;
    hide FirmTable;
    hide Ready;
    hide AttackTasks;
    FirmTick(s, num, n, bases);
    EveryTick(s, num, n, bases);
    TicksAreTheMarch(s, num, n, bases);
    var (s', left) := AtTick(s, num, n, bases).value;
    var first := Opening(s, n, bases).0;
    AttackNeverStale(s', num, first, left, bases);
    var o := AttackOnce(s', num, first, left, bases);
    assert o.Done? && !Over(o.s) by {
      if o.Done? && Over(o.s) {
        EndsGraded(s, s', num, first, left, bases);
      }
    }
    if num < TICK_MAX {
      FailsFromTick(s, num + 1, n, bases);
    }
  }

  lemma EndsGraded(s: State, s': State, num: nat, first: Player, n: nat, bases: Bases)
    requires Ready(s, bases) && num >= 1 && Kept(BattleLog.View(s), s', num - 1, bases)
    ensures var o := AttackOnce(s', num, first, n, bases); o.Done? && Over(o.s) ==> Grades(o.s, bases).Finished?
  {
    hide AttackOnce;
    hide Grades;
    AttackKeeps(BattleLog.View(s), s', num, first, n, bases);
    var o := AttackOnce(s', num, first, n, bases);
    if o.Done? && Over(o.s) {
      GradesOfFit(o.s, bases);
    }
  }

  /** Over a firm table a march of legal, firm boards is an error exactly when both boards still stand after tick 255. */
  lemma MarchFailsOnlyAtLimit(s: State, n: nat, bases: Bases)
    requires Ready(s, bases) && FirmState(s, bases) && FirmTable(bases)
    ensures MarchResult(s, n, bases) == MFailed <==> OutOfTicks(s, n, bases)
  {
    hide Opening;
    hide AttackOnce;
    hide Grades;
    hide FirmState;
    hide FirmTable;
    assert WellFormed(bases);
    hide Ready;
    OpeningNeverStale(s, n, bases);
    OpeningKeeps(s, n, bases);
    var (first, o) := Opening(s, n, bases);
    if OutOfTicks(s, n, bases) {
      hide MarchResult;
      TicksAreTheMarch(s, TICK_MAX, n, bases);
    } else if MarchResult(s, n, bases) == MFailed {
      if Over(o.s) {
        GradesOfFit(o.s, bases);
      }
      assert AtTick(s, 1, n, bases).Some?;
      hide MarchResult;
      FailsFromTick(s, 1, n, bases);
    }
  }
}
