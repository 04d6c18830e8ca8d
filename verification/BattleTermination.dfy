/** Battle cascades end for every stratified ability table: a retire ability spawns only lower-ranked
    bases, and every other reaction only changes stats, grants special abilities or runs the retired
    emo's retire abilities again. */
module BattleTermination {
  import opened Types
  import opened Rng
  import opened Battle

  type Ranks = map<U16, nat>

  function RankOf(ranks: Ranks, id: U16): nat { if id in ranks then ranks[id] else 0 }

  // ----- stratified tables -----

  predicate Spawns(action: BattleAction) { action.Spawn? || action.SpawnByAttackDiv? }

  /** The action grants nothing but special abilities. */
  predicate Gentle(action: BattleAction) { action.AddBattleAbility? ==> action.ability.SpecialAbility? }

  /** The action neither spawns nor damages. */
  predicate Soft(action: BattleAction) { Gentle(action) && !Spawns(action) && !action.DamageAll? }

  predicate Tame(ability: BattleAbility) {
    match ability
    case SpecialAbility(_) => true
    case GeneralSelf(trigger, action) => if trigger.AtPre? || trigger.AtRetire? then Gentle(action) else Soft(action)
    case GeneralAlly(trigger, AllyNormal(action)) => Soft(action)
    case GeneralAlly(trigger, TriggerRetireActions) => trigger.AtAllyRetireAsAlly?
  }

  predicate TameAbility(a: Ability) { a.Battle? ==> Tame(a.battle) }

  function SpawnLevel(a: Ability, ranks: Ranks): nat {
    if a.Battle? && a.battle.GeneralSelf? && a.battle.trigger.AtRetire? && Spawns(a.battle.action)
    then RankOf(ranks, a.battle.action.baseId) + 1 else 0
  }

  /** One more than the highest rank that the retire abilities spawn; 0 when they spawn nothing. */
  function Level(abilities: seq<Ability>, ranks: Ranks): nat {
    if abilities == [] then 0
    else
      var first, rest := SpawnLevel(abilities[0], ranks), Level(abilities[1..], ranks);
      if first < rest then rest else first
  }

  ghost predicate TameAll(abilities: seq<Ability>, a: nat) {
    |abilities| <= a && forall x :: x in abilities ==> TameAbility(x)
  }

  /** A table whose retire abilities only spawn lower ranks; `a` bounds the number of abilities of an emo. */
  ghost predicate Stratified(bases: Bases, ranks: Ranks, a: nat) {
    && ABILITIES_MAX <= a
    && forall id :: id in bases ==> bases[id].id == id && TameAll(bases[id].abilities, a)
                                    && Level(bases[id].abilities, ranks) <= RankOf(ranks, id)
  }

  // ----- the measure -----

  function Pow(w: nat, n: nat): nat { if n == 0 then 1 else w * Pow(w, n - 1) }

  /** More than any one step can push. */
  function Width(a: nat): nat { 14 * a + 10 }

  function ActClass(action: BattleAction, ranks: Ranks): nat {
    if Spawns(action) then 20 * (RankOf(ranks, action.baseId) + 1) + 11 else if action.DamageAll? then 7 else 1
  }

  function LevelOf(e: Fighter, ranks: Ranks): nat { Level(e.attr.abilities, ranks) }

  /** The class of a task exceeds the class of everything its step pushes. */
  function Class(t: Task, ranks: Ranks): nat {
    match t
    case RaiseAt(_, _, _, _) => 0
    case LowerAt(_, _, _, _) => 0
    case GrantAt(_, _, _) => 0
    case CountSurvived(_, _) => 0
    case Act(_, action, _, _, _) => ActClass(action, ranks)
    case ActAsOneself(_, action, _, _) => ActClass(action, ranks) + 1
    case ActAsAlly(_, AllyNormal(action), _, _, _) => ActClass(action, ranks) + 1
    case ActAsAlly(_, TriggerRetireActions, _, retired, _) =>
      (if retired.Some? then 20 * LevelOf(retired.value, ranks) else 0) + 13
    case SetEmo(_, _, baseId, _, _, _) => 20 * (RankOf(ranks, baseId) + 1) + 10
    case ShieldReact(_, action, _, _, _) => ActClass(action, ranks) + 2
    case RetireRivals(_, _) => 3
    case DamageAt(_, _, _, _) => 5
    case DamageId(_, _, _) => 6
    case StrikeBack(_, _, _) => 6
    case RetireAllies(_, _, e) => 20 * LevelOf(e, ranks) + 14
  }

  function EmoClass(e: Fighter, ranks: Ranks): nat { 20 * LevelOf(e, ranks) + 19 }

  function TasksWeight(ts: seq<Task>, ranks: Ranks, w: nat): nat {
    if ts == [] then 0 else Pow(w, Class(ts[0], ranks)) + TasksWeight(ts[1..], ranks, w)
  }

  function BoardWeight(board: seq<Fighter>, ranks: Ranks, w: nat): nat {
    if board == [] then 0 else Pow(w, EmoClass(board[0], ranks)) + BoardWeight(board[1..], ranks, w)
  }

  function Weight(s: State, ts: seq<Task>, ranks: Ranks, w: nat): nat {
    BoardWeight(s.zero, ranks, w) + BoardWeight(s.one, ranks, w) + TasksWeight(ts, ranks, w)
  }

  // ----- what the measure is defined on -----

  ghost predicate TameEmo(e: Fighter, a: nat) { TameAll(e.attr.abilities, a) }

  ghost predicate TameActor(retired: Option<Fighter>, a: nat) { retired.Some? ==> TameEmo(retired.value, a) }

  ghost predicate TameTask(t: Task, a: nat) {
    match t
    case Act(_, action, _, retired, _) => Gentle(action) && TameActor(retired, a)
    case ActAsOneself(_, action, _, retired) => Gentle(action) && TameActor(retired, a)
    case ActAsAlly(_, AllyNormal(action), _, retired, _) => Gentle(action) && TameActor(retired, a)
    case ActAsAlly(_, TriggerRetireActions, _, retired, _) => retired.Some? && TameActor(retired, a)
    case GrantAt(_, _, ability) => ability.SpecialAbility?
    case ShieldReact(_, action, _, _, _) => Gentle(action)
    case RetireAllies(_, _, e) => TameEmo(e, a)
    case RetireRivals(_, e) => TameEmo(e, a)
    case _ => true
  }

  ghost predicate TameBoard(board: seq<Fighter>, a: nat) {
    |board| <= BOARD_EMO_MAX_COUNT && forall e :: e in board ==> TameEmo(e, a)
  }

  ghost predicate TameState(s: State, a: nat) { TameBoard(s.zero, a) && TameBoard(s.one, a) }

  ghost predicate TameTasks(ts: seq<Task>, a: nat) { forall t :: t in ts ==> TameTask(t, a) }

  // ----- powers and sums -----

  lemma TimesLess(m: nat, n: nat, x: nat)
    requires m < n && x > 0
    ensures m * x < n * x
  {
  }

  lemma TimesUpTo(m: nat, n: nat, x: nat)
    requires m <= n
    ensures m * x <= n * x
  {
  }

  lemma TimesNext(n: nat, x: nat)
    requires n > 0
    ensures n * x == x + (n - 1) * x
  {
  }

  lemma {:induction false} PowPositive(w: nat, n: nat)
    requires w > 0
    ensures Pow(w, n) > 0
  {
    if n > 0 {
      PowPositive(w, n - 1);
    }
  }

  lemma {:induction false} PowGrows(w: nat, m: nat, n: nat)
    requires w > 0 && m <= n
    ensures Pow(w, m) <= Pow(w, n)
  {
    if m < n {
      PowGrows(w, m, n - 1);
      TimesUpTo(1, w, Pow(w, n - 1));
    }
  }

  lemma {:induction false} WeightAppend(x: seq<Task>, y: seq<Task>, ranks: Ranks, w: nat)
    ensures TasksWeight(x + y, ranks, w) == TasksWeight(x, ranks, w) + TasksWeight(y, ranks, w)
  {
    if x == [] {
      assert x + y == y;
    } else {
      assert (x + y)[1..] == x[1..] + y;
      WeightAppend(x[1..], y, ranks, w);
    }
  }

  lemma {:induction false} BoardAppend(x: seq<Fighter>, y: seq<Fighter>, ranks: Ranks, w: nat)
    ensures BoardWeight(x + y, ranks, w) == BoardWeight(x, ranks, w) + BoardWeight(y, ranks, w)
  {
    if x == [] {
      assert x + y == y;
    } else {
      assert (x + y)[1..] == x[1..] + y;
      BoardAppend(x[1..], y, ranks, w);
    }
  }

  /** Every task is tame and of a class below `c`, and there are at most `n` of them. */
  ghost predicate Below(ts: seq<Task>, c: nat, n: nat, ranks: Ranks, a: nat) {
    |ts| <= n && TameTasks(ts, a) && forall t :: t in ts ==> Class(t, ranks) < c
  }

  lemma {:induction false} SumBelow(ts: seq<Task>, c: nat, ranks: Ranks, w: nat)
    requires w > 0 && forall t :: t in ts ==> Class(t, ranks) <= c
    ensures TasksWeight(ts, ranks, w) <= |ts| * Pow(w, c)
  {
    if ts != [] {
      PowGrows(w, Class(ts[0], ranks), c);
      SumBelow(ts[1..], c, ranks, w);
      TimesNext(|ts|, Pow(w, c));
    }
  }

  lemma BelowIsLight(ts: seq<Task>, c: nat, n: nat, ranks: Ranks, a: nat)
    requires Below(ts, c, n, ranks, a) && n < Width(a) && c > 0
    ensures TasksWeight(ts, ranks, Width(a)) < Pow(Width(a), c)
  {
    hide Class;
    var w := Width(a);
    PowPositive(w, c - 1);
    SumBelow(ts, c - 1, ranks, w);
    TimesLess(|ts|, w, Pow(w, c - 1));
  }

  lemma BelowAppend(x: seq<Task>, y: seq<Task>, c: nat, m: nat, n: nat, ranks: Ranks, a: nat)
    requires Below(x, c, m, ranks, a) && Below(y, c, n, ranks, a)
    ensures Below(x + y, c, m + n, ranks, a)
  {
  }

  // ----- levels -----

  lemma {:induction false} LevelAppend(x: seq<Ability>, y: seq<Ability>, ranks: Ranks)
    ensures Level(x + y, ranks) == (if Level(x, ranks) < Level(y, ranks) then Level(y, ranks) else Level(x, ranks))
  {
    if x == [] {
      assert x + y == y;
    } else {
      assert (x + y)[1..] == x[1..] + y;
      LevelAppend(x[1..], y, ranks);
    }
  }

  lemma {:induction false} LevelCovers(abilities: seq<Ability>, x: Ability, ranks: Ranks)
    requires x in abilities
    ensures SpawnLevel(x, ranks) <= Level(abilities, ranks)
  {
    if abilities[0] != x {
      LevelCovers(abilities[1..], x, ranks);
    }
  }

  /** Granting or losing a special ability changes no level. */
  lemma SpecialKeepsLevel(abilities: seq<Ability>, k: nat, special: Special, ranks: Ranks)
    ensures Level(abilities + [Ability.Battle(SpecialAbility(special))], ranks) == Level(abilities, ranks)
    ensures k < |abilities| && abilities[k] == Ability.Battle(SpecialAbility(special)) ==>
              Level(abilities[..k] + abilities[k + 1..], ranks) == Level(abilities, ranks)
  {
    var x := [Ability.Battle(SpecialAbility(special))];
    LevelAppend(abilities, x, ranks);
    if k < |abilities| && abilities[k] == x[0] {
      assert abilities == abilities[..k] + (x + abilities[k + 1..]);
      LevelAppend(abilities[..k], x + abilities[k + 1..], ranks);
      LevelAppend(x, abilities[k + 1..], ranks);
      LevelAppend(abilities[..k], abilities[k + 1..], ranks);
    }
  }

  lemma {:induction false} BattleOfTame(abilities: seq<Ability>, a: nat)
    requires TameAll(abilities, a)
    ensures |BattleOf(abilities)| <= |abilities|
    ensures forall x :: x in BattleOf(abilities) ==> Tame(x) && Ability.Battle(x) in abilities
  {
    if abilities != [] {
      assert abilities[0] in abilities;
      BattleOfTame(abilities[1..], a);
    }
  }

  // ----- what the lists of reactions push -----

  lemma {:induction false} NumberedTame(items: seq<BattleAbility>, i: nat)
    requires forall x :: x in items ==> Tame(x)
    ensures |Numbered(items, i)| == |items| && forall x :: x in Numbered(items, i) ==> Tame(x.1)
  {
    if items != [] {
      NumberedTame(items[1..], i);
    }
  }

  lemma {:induction false} BoardAbilitiesTame(board: seq<Fighter>, from: nat, a: nat)
    requires forall e :: e in board ==> TameEmo(e, a)
    ensures |BoardAbilities(board, from)| <= |board| * a
    ensures forall x :: x in BoardAbilities(board, from) ==> Tame(x.1)
  {
    if board != [] {
      assert board[0] in board;
      BattleOfTame(board[0].attr.abilities, a);
      NumberedTame(BattleOf(board[0].attr.abilities), from);
      BoardAbilitiesTame(board[1..], from + 1, a);
      TimesNext(|board|, a);
    }
  }

  function EventClass(event: Event, emo: Fighter, ranks: Ranks): nat {
    if event.AllyRetired? then 20 * LevelOf(emo, ranks) + 14 else if event.OnShieldLost? then 4 else 3
  }

  lemma ReactOneBelow(event: Event, owner: nat, ability: BattleAbility, p: Player, i: nat, emo: Fighter, ranks: Ranks, a: nat)
    requires Tame(ability) && TameEmo(emo, a)
    ensures Below(ReactOne(event, owner, ability, p, i, emo), EventClass(event, emo, ranks), 1, ranks, a)
  {
  }

  lemma {:induction false} ReactBelow(event: Event, abilities: seq<(nat, BattleAbility)>, p: Player, i: nat, emo: Fighter,
                                      ranks: Ranks, a: nat)
    requires (forall x :: x in abilities ==> Tame(x.1)) && TameEmo(emo, a)
    ensures Below(React(event, abilities, p, i, emo), EventClass(event, emo, ranks), |abilities|, ranks, a)
  {
    hide ReactOne;
    if abilities != [] {
      assert abilities[0] in abilities;
      ReactOneBelow(event, abilities[0].0, abilities[0].1, p, i, emo, ranks, a);
      ReactBelow(event, abilities[1..], p, i, emo, ranks, a);
      BelowAppend(ReactOne(event, abilities[0].0, abilities[0].1, p, i, emo), React(event, abilities[1..], p, i, emo),
                  EventClass(event, emo, ranks), 1, |abilities[1..]|, ranks, a);
    }
  }

  lemma BoardReacts(event: Event, board: seq<Fighter>, p: Player, i: nat, emo: Fighter, ranks: Ranks, a: nat)
    requires TameBoard(board, a) && TameEmo(emo, a)
    ensures Below(React(event, BoardAbilities(board, 0), p, i, emo), EventClass(event, emo, ranks), 7 * a, ranks, a)
  {
    BoardAbilitiesTame(board, 0, a);
    TimesUpTo(|board|, 7, a);
    ReactBelow(event, BoardAbilities(board, 0), p, i, emo, ranks, a);
  }

  lemma {:induction false} RepeatBelow(t: Task, n: nat, c: nat, ranks: Ranks, a: nat)
    requires TameTask(t, a) && Class(t, ranks) < c
    ensures Below(Repeat(t, n), c, n, ranks, a)
  {
    if n > 0 {
      RepeatBelow(t, n - 1, c, ranks, a);
    }
  }

  /** Retire actions stay below their emo: 20 * level + 13 exceeds them all. */
  lemma {:induction false} RetireTasksBelow(abilities: seq<BattleAbility>, p: Player, i: nat, e: Fighter, twice: bool,
                                            ranks: Ranks, a: nat)
    requires TameEmo(e, a) && forall x :: x in abilities ==> Tame(x) && Ability.Battle(x) in e.attr.abilities
    ensures Below(RetireTasks(abilities, p, i, Some(e), twice), 20 * LevelOf(e, ranks) + 13, 2 * |abilities|, ranks, a)
  {
    if abilities != [] {
      var c, x := 20 * LevelOf(e, ranks) + 13, abilities[0];
      assert x in abilities;
      RetireTasksBelow(abilities[1..], p, i, e, twice, ranks, a);
      var rest := RetireTasks(abilities[1..], p, i, Some(e), twice);
      if x.GeneralSelf? && x.trigger.AtRetire? {
        LevelCovers(e.attr.abilities, Ability.Battle(x), ranks);
        var t, n := ActAsOneself(p, x.action, i, Some(e)), if twice then 2 else 1;
        RepeatBelow(t, n, c, ranks, a);
        BelowAppend(Repeat(t, n), rest, c, n, 2 * |abilities[1..]|, ranks, a);
      } else {
        assert [] + rest == rest;
      }
    }
  }

  // ----- the plain lists -----

  lemma {:induction false} RaiseBelow(p: Player, indexes: seq<nat>, x: U16, y: U16, ranks: Ranks, a: nat)
    ensures Below(RaiseTasks(p, indexes, x, y), 1, |indexes|, ranks, a)
    ensures Below(LowerTasks(p, indexes, x, y), 1, |indexes|, ranks, a)
  {
    if indexes != [] {
      RaiseBelow(p, indexes[1..], x, y, ranks, a);
    }
  }

  lemma {:induction false} GrantBelow(p: Player, indexes: seq<nat>, ability: BattleAbility, ranks: Ranks, a: nat)
    requires ability.SpecialAbility?
    ensures Below(GrantTasks(p, indexes, ability), 1, |indexes|, ranks, a)
  {
    if indexes != [] {
      GrantBelow(p, indexes[1..], ability, ranks, a);
    }
  }

  lemma {:induction false} DamagesBelow(p: Player, ids: seq<U16>, damage: U16, ranks: Ranks, a: nat)
    ensures Below(DamageTasks(p, ids, damage), 7, |ids|, ranks, a)
  {
    if ids != [] {
      DamagesBelow(p, ids[1..], damage, ranks, a);
    }
  }

  lemma {:induction false} IdsLength(board: seq<Fighter>)
    ensures |Ids(board)| == |board|
  {
    if board != [] {
      IdsLength(board[1..]);
    }
  }

  lemma {:induction false} OthersLength(board: seq<Fighter>, from: nat, i: nat, isRetired: bool, cond: Cond)
    ensures |OtherIndexes(board, from, i, isRetired, cond)| <= |board|
  {
    if board != [] {
      OthersLength(board[1..], from + 1, i, isRetired, cond);
    }
  }

  lemma {:induction false} WithoutLength(indexes: seq<nat>, board: seq<Fighter>, x: Ability)
    ensures |Without(indexes, board, x)| <= |indexes|
  {
    if indexes != [] {
      WithoutLength(indexes[1..], board, x);
    }
  }

  lemma PickLength(board: seq<Fighter>, i: nat, who: TargetOrRandom, ability: BattleAbility, isTriple: bool,
                   isRetired: bool, tape: Tape)
    requires |board| <= BOARD_EMO_MAX_COUNT
    ensures var r := PickIndexes(board, i, who, isRetired, tape); r.Some? ==> |r.value.0| <= 7
    ensures var r := PickReceivers(board, i, who, ability, isTriple, isRetired, tape); r.Some? ==> |r.value.0| <= 7
  {
    match who
    case To(Oneself) =>
    case To(Others(_, cond)) => OthersLength(board, 0, i, isRetired, cond);
    case Random(cond, _) =>
      OthersLength(board, 0, i, isRetired, cond);
      WithoutLength(OtherIndexes(board, 0, i, isRetired, cond), board, Ability.Battle(ability));
  }

  // ----- the steps -----

  lemma BelowMore(ts: seq<Task>, c: nat, m: nat, n: nat, ranks: Ranks, a: nat)
    requires Below(ts, c, m, ranks, a) && m <= n
    ensures Below(ts, c, n, ranks, a)
  {
  }

  lemma RaiseUpTo7(p: Player, indexes: seq<nat>, x: U16, y: U16, ranks: Ranks, a: nat)
    requires |indexes| <= 7
    ensures Below(RaiseTasks(p, indexes, x, y), 1, 7, ranks, a) && Below(LowerTasks(p, indexes, x, y), 1, 7, ranks, a)
  {
    hide Below;
    RaiseBelow(p, indexes, x, y, ranks, a);
    BelowMore(RaiseTasks(p, indexes, x, y), 1, |indexes|, 7, ranks, a);
    BelowMore(LowerTasks(p, indexes, x, y), 1, |indexes|, 7, ranks, a);
  }

  /** A step that leaves the boards' weight alone pushes only lower classes. */
  lemma SpreadActBelow(s: State, p: Player, action: BattleAction, i: nat, retired: Option<Fighter>, isTriple: bool,
                       ranks: Ranks, a: nat)
    requires TameState(s, a) && Gentle(action) && a >= ABILITIES_MAX
    ensures var r := SpreadAct(s, p, action, i, retired, isTriple);
            r.Some? ==> Below(r.value.1, ActClass(action, ranks), 7, ranks, a)
  {
    hide PickIndexes;
    hide PickReceivers;
    hide CountMatched;
    hide TameEmo;
    var r := SpreadAct(s, p, action, i, retired, isTriple);
    if r.Some? {
      match action
      case Spawn(side, baseId) =>
        RepeatBelow(Task.SetEmo(p, if retired.Some? then i else i + 1, baseId, isTriple, Actor(s, p, i, retired).value.survived, side), 1,
                    ActClass(action, ranks), ranks, a);
      case SpawnByAttackDiv(side, baseId, divisor) =>
        var emo := Actor(s, p, i, retired).value;
        var n := Min(emo.attr.attack / divisor, BOARD_EMO_MAX_COUNT);
        RepeatBelow(Task.SetEmo(p, if retired.Some? then i else i + 1, baseId, isTriple, emo.survived, side), n,
                    ActClass(action, ranks), ranks, a);
      case AddBattleAbility(who, ability) =>
        PickLength(s.At(p), i, who, ability, isTriple, retired.Some?, s.tape);
        GrantBelow(p, PickReceivers(s.At(p), i, who, ability, isTriple, retired.Some?, s.tape).value.0, ability, ranks, a);
      case DamageAll(side, damage) =>
        var q := if side == Ally then p else Other(p);
        IdsLength(s.At(q));
        DamagesBelow(q, Ids(s.At(q)), DoubleIf(isTriple, damage), ranks, a);
      case _ => RaisesBelow(s, p, action, i, retired, isTriple, ranks, a);
    }
  }

  lemma RaisesBelow(s: State, p: Player, action: BattleAction, i: nat, retired: Option<Fighter>, isTriple: bool, ranks: Ranks, a: nat)
    requires TameState(s, a) && (action.Raise? || action.Lower? || action.RaiseByEmoCount?)
    ensures var r := SpreadAct(s, p, action, i, retired, isTriple); r.Some? ==> Below(r.value.1, 1, 7, ranks, a)
  {
    hide PickIndexes;
    hide CountMatched;
    hide Below;
    hide Sat16;
    var r := SpreadAct(s, p, action, i, retired, isTriple);
    if r.Some? {
      PickLength(s.At(p), i, action.who, SpecialAbility(Shield), isTriple, retired.Some?, s.tape);
      var indexes := PickIndexes(s.At(p), i, action.who, retired.Some?, s.tape).value.0;
      forall x, y ensures Below(RaiseTasks(p, indexes, x, y), 1, 7, ranks, a) && Below(LowerTasks(p, indexes, x, y), 1, 7, ranks, a) {
        RaiseUpTo7(p, indexes, x, y, ranks, a);
      }
    }
  }

  predicate Spreads(t: Task) {
    t.ActAsOneself? || t.ActAsAlly? || t.DamageId? || t.StrikeBack? || t.ShieldReact? || t.RetireAllies? || t.RetireRivals?
  }

  lemma SpreadBelow(s: State, t: Task, ranks: Ranks, a: nat)
    requires Spreads(t) && TameState(s, a) && TameTask(t, a) && a >= ABILITIES_MAX
    ensures var ts := Spread(s, t); ts.Some? ==> Below(ts.value, Class(t, ranks), 14 * a, ranks, a)
  {
    var ts := Spread(s, t);
    if ts.Some? {
      match t
      case ActAsAlly(p, TriggerRetireActions, i, Some(e), onesIndex) =>
        BattleOfTame(e.attr.abilities, a);
        RetireTasksBelow(BattleOf(e.attr.abilities), p, i, e, Get(s, p, onesIndex).value.attr.isTriple, ranks, a);
      case RetireAllies(p, i, emo) =>
        BoardReacts(AllyRetired, s.At(p), p, i, emo, ranks, a);
        BoardReacts(OnAllyRetired, s.At(p), p, i, emo, ranks, a);
        BelowAppend(React(AllyRetired, BoardAbilities(s.At(p), 0), p, i, emo),
                    React(OnAllyRetired, BoardAbilities(s.At(p), 0), p, i, emo), Class(t, ranks), 7 * a, 7 * a, ranks, a);
      case RetireRivals(p, emo) => BoardReacts(OnRivalRetired, s.At(Other(p)), Other(p), 0, emo, ranks, a);
      case _ =>
    }
  }

  // ----- the boards -----

  function Boards(s: State, ranks: Ranks, w: nat): nat { BoardWeight(s.zero, ranks, w) + BoardWeight(s.one, ranks, w) }

  lemma Around(board: seq<Fighter>, i: nat, ranks: Ranks, w: nat)
    requires i < |board|
    ensures BoardWeight(board, ranks, w)
         == BoardWeight(board[..i], ranks, w) + Pow(w, EmoClass(board[i], ranks)) + BoardWeight(board[i + 1..], ranks, w)
  {
    assert board == board[..i] + board[i..];
    BoardAppend(board[..i], board[i..], ranks, w);
    assert board[i..][1..] == board[i + 1..];
  }

  lemma PutKeeps(s: State, p: Player, i: nat, e: Fighter, ranks: Ranks, a: nat)
    requires TameState(s, a) && i < |s.At(p)|
    requires TameEmo(e, a) && LevelOf(e, ranks) == LevelOf(s.At(p)[i], ranks)
    ensures TameState(Put(s, p, i, e), a)
    ensures Boards(Put(s, p, i, e), ranks, Width(a)) == Boards(s, ranks, Width(a))
  {
    var board := s.At(p);
    Around(board, i, ranks, Width(a));
    Around(board[i := e], i, ranks, Width(a));
    assert board[i := e][..i] == board[..i] && board[i := e][i + 1..] == board[i + 1..];
  }

  lemma TameAt(s: State, p: Player, i: nat, a: nat)
    requires TameState(s, a) && i < |s.At(p)|
    ensures TameEmo(s.At(p)[i], a)
  {
    assert s.At(p)[i] in s.At(p);
  }

  /** What a step must do: keep everything tame and lighten the boards and the pending tasks together. */
  ghost predicate Lighter(s: State, t: Task, r: (State, seq<Task>), ranks: Ranks, a: nat) {
    && TameState(r.0, a) && TameTasks(r.1, a)
    && Boards(r.0, ranks, Width(a)) + TasksWeight(r.1, ranks, Width(a)) < Boards(s, ranks, Width(a)) + Pow(Width(a), Class(t, ranks))
  }

  lemma SameBoards(s: State, t: Task, r: (State, seq<Task>), n: nat, ranks: Ranks, a: nat)
    requires TameState(r.0, a) && Boards(r.0, ranks, Width(a)) == Boards(s, ranks, Width(a))
    requires Below(r.1, Class(t, ranks), n, ranks, a) && n < Width(a) && Class(t, ranks) > 0
    ensures Lighter(s, t, r, ranks, a)
  {
    BelowIsLight(r.1, Class(t, ranks), n, ranks, a);
  }

  lemma GrantKeepsTame(abilities: seq<Ability>, special: Special, a: nat)
    requires TameAll(abilities, a) && |abilities| < ABILITIES_MAX <= a
    ensures TameAll(abilities + [Ability.Battle(SpecialAbility(special))], a)
  {
  }

  lemma PlainLighter(s: State, t: Task, bases: Bases, ranks: Ranks, a: nat)
    requires TameState(s, a) && TameTask(t, a) && a >= ABILITIES_MAX
    requires t.RaiseAt? || t.LowerAt? || t.GrantAt? || t.CountSurvived?
    ensures var r := Step(s, t, bases); r.Some? ==> Lighter(s, t, r.value, ranks, a)
  {
    hide TameAll;
    hide Level;
    hide BoardWeight;
    hide Sat16;
    hide Less16;
    hide AtLeastOne;
    var r := Step(s, t, bases);
    PowPositive(Width(a), 0);
    if r.Some? && r.value.0 != s {
      TameAt(s, t.p, t.i, a);
      var was, now := s.At(t.p)[t.i], r.value.0.At(t.p)[t.i];
      if t.GrantAt? {
        SpecialKeepsLevel(was.attr.abilities, 0, t.ability.special, ranks);
        GrantKeepsTame(was.attr.abilities, t.ability.special, a);
      }
      PutKeeps(s, t.p, t.i, now, ranks, a);
    }
  }

  lemma Inserted(s: State, p: Player, i: nat, e: Fighter, ranks: Ranks, a: nat)
    requires TameState(s, a) && TameEmo(e, a) && i <= |s.At(p)| < BOARD_EMO_MAX_COUNT
    ensures var board := s.At(p)[..i] + [e] + s.At(p)[i..];
            && TameBoard(board, a)
            && BoardWeight(board, ranks, Width(a)) == BoardWeight(s.At(p), ranks, Width(a)) + Pow(Width(a), EmoClass(e, ranks))
  {
    hide EmoClass;
    hide TameEmo;
    hide Pow;
    hide BoardWeight;
    hide Width;
    var board := s.At(p)[..i] + [e] + s.At(p)[i..];
    Around(board, i, ranks, Width(a));
    assert board[..i] == s.At(p)[..i] && board[i + 1..] == s.At(p)[i..];
    assert s.At(p) == s.At(p)[..i] + s.At(p)[i..];
    BoardAppend(s.At(p)[..i], s.At(p)[i..], ranks, Width(a));
    assert forall x :: x in board ==> x == e || x in s.At(p);
  }

  lemma Removed(s: State, p: Player, i: nat, ranks: Ranks, a: nat)
    requires TameState(s, a) && i < |s.At(p)|
    ensures var board := s.At(p)[..i] + s.At(p)[i + 1..];
            && TameBoard(board, a)
            && BoardWeight(s.At(p), ranks, Width(a)) == BoardWeight(board, ranks, Width(a)) + Pow(Width(a), EmoClass(s.At(p)[i], ranks))
  {
    hide EmoClass;
    hide TameEmo;
    Around(s.At(p), i, ranks, Width(a));
    BoardAppend(s.At(p)[..i], s.At(p)[i + 1..], ranks, Width(a));
    assert forall x :: x in s.At(p)[..i] + s.At(p)[i + 1..] ==> x in s.At(p);
  }

  lemma TwoBelow(w: nat, m: nat, n: nat, c: nat)
    requires w >= 2 && m < c && n < c
    ensures Pow(w, m) + Pow(w, n) <= Pow(w, c)
  {
    PowGrows(w, m, c - 1);
    PowGrows(w, n, c - 1);
    TimesUpTo(2, w, Pow(w, c - 1));
  }

  lemma AddLighter(s0: State, t: Task, s: State, p: Player, i: nat, e: Fighter, ranks: Ranks, a: nat)
    requires TameState(s, a) && TameEmo(e, a) && s.zero == s0.zero && s.one == s0.one
    requires EmoClass(e, ranks) < Class(t, ranks) && Class(t, ranks) > 3
    ensures var r := AddFighter(s, p, i, e); r.Some? ==> Lighter(s0, t, r.value, ranks, a)
  {
    hide Class;
    hide EmoClass;
    hide TameEmo;
    hide TameBoard;
    hide BoardWeight;
    hide Pow;
    hide React;
    hide BoardAbilities;
    var r, w, c := AddFighter(s, p, i, e), Width(a), Class(t, ranks);
    PowPositive(w, c);
    if r.Some? && |s.At(p)| < BOARD_EMO_MAX_COUNT {
      var board := s.At(p)[..i] + [e] + s.At(p)[i..];
      Inserted(s, p, i, e, ranks, a);
      BoardReacts(AllySet, board, p, i, e, ranks, a);
      BelowIsLight(r.value.1, 3, 7 * a, ranks, a);
      TwoBelow(w, EmoClass(e, ranks), 3, c);
    }
  }

  lemma SetLighter(s: State, t: Task, bases: Bases, ranks: Ranks, a: nat)
    requires t.SetEmo? && Stratified(bases, ranks, a) && TameState(s, a)
    ensures var r := Step(s, t, bases); r.Some? ==> Lighter(s, t, r.value, ranks, a)
  {
    hide AddFighter;
    if t.baseId in bases {
      var base, s', q := bases[t.baseId], s.(next := s.next + 1), Other(t.p);
      var rivals := s.At(q);
      var inherited := if rivals == [] then 0 else rivals[|rivals| - 1].survived;
      AddLighter(s, t, s', t.p, t.i, NewFighter(base, t.isTriple, t.survived, s.next), ranks, a);
      AddLighter(s, t, s', q, |rivals|, NewFighter(base, t.isTriple, inherited, s.next), ranks, a);
    }
  }

  lemma FewerAreTame(abilities: seq<Ability>, k: nat, a: nat)
    requires TameAll(abilities, a) && k < |abilities|
    ensures TameAll(abilities[..k] + abilities[k + 1..], a)
  {
    assert forall x :: x in abilities[..k] + abilities[k + 1..] ==> x in abilities;
  }

  lemma ShieldLossBelow(s: State, p: Player, i: nat, e: Fighter, counted: bool, ranks: Ranks, a: nat)
    requires TameState(s, a) && TameEmo(e, a)
    ensures Below(React(OnShieldLost, BoardAbilities(s.At(p), 0), p, i, e) + CountTask(p, i, counted), 5, 7 * a + 1, ranks, a)
  {
    hide TameEmo;
    BoardReacts(OnShieldLost, s.At(p), p, i, e, ranks, a);
    assert Below(CountTask(p, i, counted), 5, 1, ranks, a);
    BelowAppend(React(OnShieldLost, BoardAbilities(s.At(p), 0), p, i, e), CountTask(p, i, counted), 5, 7 * a, 1, ranks, a);
  }

  lemma LoseShieldLighter(s: State, t: Task, k: nat, ranks: Ranks, a: nat)
    requires t.DamageAt? && TameState(s, a) && t.i < |s.At(t.p)|
    requires k < |s.At(t.p)[t.i].attr.abilities| && s.At(t.p)[t.i].attr.abilities[k] == SHIELD
    ensures Lighter(s, t, LoseShield(s, t.p, t.i, k, t.counted), ranks, a)
  {
    hide React;
    hide BoardAbilities;
    hide Level;
    hide BoardWeight;
    var p, i, e := t.p, t.i, s.At(t.p)[t.i];
    var r := LoseShield(s, p, i, k, t.counted);
    var e' := r.0.At(p)[i];
    TameAt(s, p, i, a);
    SpecialKeepsLevel(e.attr.abilities, k, Shield, ranks);
    FewerAreTame(e.attr.abilities, k, a);
    PutKeeps(s, p, i, e', ranks, a);
    ShieldLossBelow(r.0, p, i, e', t.counted, ranks, a);
    SameBoards(s, t, r, 7 * a + 1, ranks, a);
  }

  lemma RetirementBelow(p: Player, i: nat, e: Fighter, ranks: Ranks, a: nat)
    requires TameEmo(e, a)
    ensures var own := RetireTasks(BattleOf(e.attr.abilities), p, i, Some(e), false);
            Below(own + [RetireAllies(p, i, e), RetireRivals(p, e)], EmoClass(e, ranks), 2 * a + 2, ranks, a)
  {
    var c := EmoClass(e, ranks);
    BattleOfTame(e.attr.abilities, a);
    RetireTasksBelow(BattleOf(e.attr.abilities), p, i, e, false, ranks, a);
    assert Below([RetireAllies(p, i, e), RetireRivals(p, e)], c, 2, ranks, a);
    BelowAppend(RetireTasks(BattleOf(e.attr.abilities), p, i, Some(e), false), [RetireAllies(p, i, e), RetireRivals(p, e)],
                c, 2 * a, 2, ranks, a);
  }

  /** A retired emo outweighs everything its retirement sets off. */
  lemma RetireLighter(s0: State, t: Task, s: State, p: Player, i: nat, ranks: Ranks, a: nat)
    requires TameState(s, a) && i < |s.At(p)| && s.zero == s0.zero && s.one == s0.one
    ensures Lighter(s0, t, Retire(s, p, i), ranks, a)
  {
    var r, e, w := Retire(s, p, i), s.At(p)[i], Width(a);
    TameAt(s, p, i, a);
    Removed(s, p, i, ranks, a);
    var c := EmoClass(e, ranks);
    RetirementBelow(p, i, e, ranks, a);
    BelowIsLight(r.1, c, 2 * a + 2, ranks, a);
    PowPositive(w, Class(t, ranks));
  }

  lemma DamageLighter(s: State, t: Task, bases: Bases, ranks: Ranks, a: nat)
    requires t.DamageAt? && TameState(s, a)
    ensures var r := Step(s, t, bases); r.Some? ==> Lighter(s, t, r.value, ranks, a)
  {
    hide Lighter;
    hide LoseShield;
    hide Retire;
    hide IndexOfAbility;
    hide TameAll;
    hide BoardWeight;
    var r := Step(s, t, bases);
    if r.Some? {
      var p, i, e := t.p, t.i, s.At(t.p)[t.i];
      var k, health := IndexOfAbility(e.attr.abilities, SHIELD), Less16(e.attr.health, t.damage);
      var hit := s.Logged(Damage(p, i, t.damage, health));
      TameAt(s, p, i, a);
      if k.Some? {
        LoseShieldLighter(s, t, k.value, ranks, a);
      } else if t.damage == 0 {
        SameBoards(s, t, r.value, 1, ranks, a);
      } else if health == 0 {
        RetireLighter(s, t, hit, p, i, ranks, a);
      } else {
        PutKeeps(hit, p, i, e.(attr := e.attr.(health := health)), ranks, a);
        SameBoards(s, t, r.value, 1, ranks, a);
      }
    }
  }

  lemma StepLighter(s: State, t: Task, bases: Bases, ranks: Ranks, a: nat)
    requires Stratified(bases, ranks, a) && TameState(s, a) && TameTask(t, a)
    ensures var r := Step(s, t, bases); r.Some? ==> Lighter(s, t, r.value, ranks, a)
  {
    hide Lighter;
    hide SetFighter;
    hide DamageFighter;
    hide Spread;
    hide SpreadAct;
    var r := Step(s, t, bases);
    if t.Act? {
      SpreadActBelow(s, t.p, t.action, t.i, t.retired, t.isTriple, ranks, a);
      if r.Some? {
        SameBoards(s, t, r.value, 7, ranks, a);
      }
    } else if Spreads(t) {
      SpreadBelow(s, t, ranks, a);
      if r.Some? {
        SameBoards(s, t, r.value, 14 * a, ranks, a);
      }
    } else if t.SetEmo? {
      SetLighter(s, t, bases, ranks, a);
    } else if t.DamageAt? {
      DamageLighter(s, t, bases, ranks, a);
    } else {
      PlainLighter(s, t, bases, ranks, a);
    }
  }

  /** Every cascade over a stratified table ends, after at most as many steps as it weighs. */
  lemma {:induction false} CascadesEnd(ts: seq<Task>, s: State, n: nat, bases: Bases, ranks: Ranks, a: nat)
    requires Stratified(bases, ranks, a) && TameState(s, a) && TameTasks(ts, a)
    requires n >= Weight(s, ts, ranks, Width(a))
    ensures Eval(ts, s, n, bases) != Running
    ensures var r := Eval(ts, s, n, bases); r.Done? ==> TameState(r.s, a)
    decreases n
  {
    hide Step;
    if ts != [] {
      PowPositive(Width(a), Class(ts[0], ranks));
      StepLighter(s, ts[0], bases, ranks, a);
      var r := Step(s, ts[0], bases);
      if r.Some? {
        WeightAppend(r.value.1, ts[1..], ranks, Width(a));
        CascadesEnd(r.value.1 + ts[1..], r.value.0, n - 1, bases, ranks, a);
      }
    }
  }

  // ----- every cascade a battle starts -----

  /** What the march calls: a damage of an attack, or an action before the first attack. */
  predicate Root(t: Task) {
    t.DamageAt? || t.StrikeBack? || (t.ActAsOneself? && t.retired.None? && Gentle(t.action))
  }

  ghost predicate Mild(abilities: seq<Ability>) { forall x :: x in abilities ==> TameAbility(x) }

  ghost predicate MildBoard(board: seq<Fighter>) {
    |board| <= BOARD_EMO_MAX_COUNT && forall e :: e in board ==> Mild(e.attr.abilities)
  }

  /** A stratified table, whatever the number of abilities. */
  ghost predicate Ranked(bases: Bases, ranks: Ranks) {
    forall id :: id in bases ==> bases[id].id == id && Mild(bases[id].abilities)
                                 && Level(bases[id].abilities, ranks) <= RankOf(ranks, id)
  }

  lemma {:induction false} SomeBound(lists: set<seq<Ability>>) returns (a: nat)
    ensures a >= ABILITIES_MAX && forall x :: x in lists ==> |x| <= a
    decreases |lists|
  {
    if lists == {} {
      a := ABILITIES_MAX;
    } else {
      var x :| x in lists;
      var b := SomeBound(lists - {x});
      a := if b < |x| then |x| else b;
      assert forall y :: y in lists ==> y == x || y in lists - {x};
    }
  }

  lemma TameBound(s: State, bases: Bases, ranks: Ranks) returns (a: nat)
    requires Ranked(bases, ranks) && MildBoard(s.zero) && MildBoard(s.one)
    ensures Stratified(bases, ranks, a) && TameState(s, a)
  {
    a := SomeBound((set id | id in bases :: bases[id].abilities) + (set e | e in s.zero :: e.attr.abilities)
                   + (set e | e in s.one :: e.attr.abilities));
  }

  /** Whatever a battle over a stratified table starts, from any boards, comes to an end: some budget
      is enough, and so is every larger one. */
  lemma EveryCascadeEnds(ts: seq<Task>, s: State, bases: Bases, ranks: Ranks) returns (n: nat)
    requires Ranked(bases, ranks) && MildBoard(s.zero) && MildBoard(s.one)
    requires forall t :: t in ts ==> Root(t)
    ensures forall m :: n <= m ==> Eval(ts, s, m, bases) != Running
  {
    var a := TameBound(s, bases, ranks);
    n := Weight(s, ts, ranks, Width(a));
    assert TameTasks(ts, a);
    forall m: nat | n <= m ensures Eval(ts, s, m, bases) != Running {
      CascadesEnd(ts, s, m, bases, ranks, a);
    }
  }
}
