/** The battle cascade as a machine on two boards: `Step` performs one pending task, which either
    rewrites a board once or is replaced by the tasks it stands for. `Eval` performs a list of tasks
    within a budget of steps, because for arbitrary ability data a cascade need not end. */
module Battle {
  import opened Types
  import opened Rng

  datatype Player = Zero | One

  function Other(p: Player): Player { if p == Zero then One else Zero }

  /** `survived` counts the attacks the emo made and survived. */
  datatype Fighter = Fighter(id: U16, baseId: U16, typ: Typ, attr: Attributes, survived: nat)

  datatype Log =
    | Attack(attacker: Player, attackIndex: nat, defenseIndex: nat)
    | Damage(player: Player, index: nat, damage: U16, health: U16)
    | Remove(player: Player, index: nat)
    | Add(player: Player, index: nat, baseId: U16, attr: Attributes)
    | RaiseStats(player: Player, index: nat, attack: U16, more: U16, calculatedAttack: U16, calculatedHealth: U16)
    | LowerStats(player: Player, index: nat, attack: U16, less: U16, calculatedAttack: U16, calculatedHealth: U16)
    | AddAbilityTo(player: Player, index: nat, ability: BattleAbility, isTriple: bool)
    | RemoveAbilityOf(player: Player, index: nat, abilityIndex: nat, ability: BattleAbility)

  datatype State = State(zero: seq<Fighter>, one: seq<Fighter>, logs: seq<Log>, next: nat, tape: Tape) {
    function At(p: Player): seq<Fighter> { if p == Zero then zero else one }
    function With(p: Player, board: seq<Fighter>): State { if p == Zero then this.(zero := board) else this.(one := board) }
    function Logged(log: Log): State { this.(logs := logs + [log]) }
  }

  /** `retired` carries the emo that acts from the place it left. */
  datatype Task =
    | Act(p: Player, action: BattleAction, i: nat, retired: Option<Fighter>, isTriple: bool)
    | ActAsOneself(p: Player, action: BattleAction, i: nat, retired: Option<Fighter>)
    | ActAsAlly(p: Player, allyAction: BattleAllyAction, i: nat, retired: Option<Fighter>, onesIndex: nat)
    | SetEmo(p: Player, i: nat, baseId: U16, isTriple: bool, survived: nat, side: Side)
    | RaiseAt(p: Player, i: nat, attack: U16, health: U16)
    | LowerAt(p: Player, i: nat, attack: U16, health: U16)
    | GrantAt(p: Player, i: nat, ability: BattleAbility)
    | DamageAt(p: Player, i: nat, damage: U16, counted: bool)
    | DamageId(p: Player, id: U16, damage: U16)
    | StrikeBack(p: Player, i: nat, damage: U16)
    | CountSurvived(p: Player, i: nat)
    | ShieldReact(p: Player, action: BattleAction, i: nat, removedBaseId: U16, excludesSameBase: bool)
    | RetireAllies(p: Player, i: nat, emo: Fighter)
    | RetireRivals(p: Player, emo: Fighter)

  const ABILITIES_MAX: nat := 255
  const SHIELD: Ability := Ability.Battle(SpecialAbility(Shield))

  // ----- lookups -----

  predicate MatchedFighter(cond: Cond, e: Fighter) { Matched(cond, e.typ, e.attr.isTriple) }

  function BattleOf(abilities: seq<Ability>): seq<BattleAbility> {
    if abilities == [] then []
    else (if abilities[0].Battle? then [abilities[0].battle] else []) + BattleOf(abilities[1..])
  }

  function Numbered<T>(items: seq<T>, i: nat): seq<(nat, T)> {
    if items == [] then [] else [(i, items[0])] + Numbered(items[1..], i)
  }

  /** Every battle ability on a board with the index of its emo, counted from `from`. */
  function BoardAbilities(board: seq<Fighter>, from: nat): seq<(nat, BattleAbility)> {
    if board == [] then [] else Numbered(BattleOf(board[0].attr.abilities), from) + BoardAbilities(board[1..], from + 1)
  }

  function IndexOfAbility(abilities: seq<Ability>, a: Ability): (r: Option<nat>)
    ensures r.Some? ==> r.value < |abilities| && abilities[r.value] == a
    ensures r.None? ==> a !in abilities
  {
    if abilities == [] then None
    else if abilities[0] == a then Some(0)
    else
      var i :- IndexOfAbility(abilities[1..], a);
      Some(i + 1)
  }

  function IndexOfId(board: seq<Fighter>, id: U16): (r: Option<nat>)
    ensures r.Some? ==> r.value < |board| && board[r.value].id == id
  {
    if board == [] then None
    else if board[0].id == id then Some(0)
    else
      var i :- IndexOfId(board[1..], id);
      Some(i + 1)
  }

  function Ids(board: seq<Fighter>): seq<U16> { if board == [] then [] else [board[0].id] + Ids(board[1..]) }

  /** Indexes, counted from `from`, of the matched emos other than the one that acts. */
  function OtherIndexes(board: seq<Fighter>, from: nat, i: nat, isRetired: bool, cond: Cond): seq<nat> {
    if board == [] then []
    else
      (if (isRetired || from != i) && MatchedFighter(cond, board[0]) then [from] else [])
      + OtherIndexes(board[1..], from + 1, i, isRetired, cond)
  }

  function IfMatched(board: seq<Fighter>, i: nat, cond: Cond): seq<nat> {
    if i < |board| && MatchedFighter(cond, board[i]) then [i] else []
  }

  function TargetIndexes(board: seq<Fighter>, i: nat, target: Target, isRetired: bool): Option<seq<nat>> {
    match target
    case Oneself => Some(if isRetired then [] else [i])
    case Others(Right, cond) => Some(IfMatched(board, if isRetired then i else i + 1, cond))
    case Others(Left, cond) =>
      if i == 0 then Some([]) else if i - 1 < |board| then Some(IfMatched(board, i - 1, cond)) else None
    case Others(All, cond) => Some(OtherIndexes(board, 0, i, isRetired, cond))
  }

  /** How many picks of the generator a choice takes. */
  function PickIndexes(board: seq<Fighter>, i: nat, who: TargetOrRandom, isRetired: bool, tape: Tape): Option<(seq<nat>, Tape)> {
    match who
    case To(target) =>
      var indexes :- TargetIndexes(board, i, target, isRetired);
      Some((indexes, tape))
    case Random(cond, count) =>
      Some((Draw(OtherIndexes(board, 0, i, isRetired, cond), count, tape), After(tape, count)))
  }

  function Without(indexes: seq<nat>, board: seq<Fighter>, a: Ability): seq<nat> {
    if indexes == [] then []
    else
      (if indexes[0] < |board| && a in board[indexes[0]].attr.abilities then [] else [indexes[0]])
      + Without(indexes[1..], board, a)
  }

  /** The emos that receive an ability; at random, only emos that do not have the special one yet. */
  function PickReceivers(board: seq<Fighter>, i: nat, who: TargetOrRandom, ability: BattleAbility, isTriple: bool,
                         isRetired: bool, tape: Tape): Option<(seq<nat>, Tape)>
  {
    match who
    case To(target) =>
      var indexes :- TargetIndexes(board, i, target, isRetired);
      Some((indexes, tape))
    case Random(cond, count) =>
      var all := OtherIndexes(board, 0, i, isRetired, cond);
      var able := if ability.SpecialAbility? then Without(all, board, Ability.Battle(ability)) else all;
      var n := if isTriple then 2 * count else count;
      Some((Draw(able, n, tape), After(tape, n)))
  }

  function CountMatched(board: seq<Fighter>, from: nat, i: nat, includesActor: bool, cond: Cond): nat {
    |OtherIndexes(board, from, i, includesActor, cond)|
  }

  // ----- what a task spreads into -----

  function RaiseTasks(p: Player, indexes: seq<nat>, attack: U16, health: U16): seq<Task> {
    if indexes == [] then [] else [RaiseAt(p, indexes[0], attack, health)] + RaiseTasks(p, indexes[1..], attack, health)
  }

  function LowerTasks(p: Player, indexes: seq<nat>, attack: U16, health: U16): seq<Task> {
    if indexes == [] then [] else [LowerAt(p, indexes[0], attack, health)] + LowerTasks(p, indexes[1..], attack, health)
  }

  function GrantTasks(p: Player, indexes: seq<nat>, ability: BattleAbility): seq<Task> {
    if indexes == [] then [] else [GrantAt(p, indexes[0], ability)] + GrantTasks(p, indexes[1..], ability)
  }

  function DamageTasks(p: Player, ids: seq<U16>, damage: U16): seq<Task> {
    if ids == [] then [] else [DamageId(p, ids[0], damage)] + DamageTasks(p, ids[1..], damage)
  }

  function Repeat(t: Task, n: nat): seq<Task> { if n == 0 then [] else [t] + Repeat(t, n - 1) }

  function RetireTasks(abilities: seq<BattleAbility>, p: Player, i: nat, retired: Option<Fighter>, twice: bool): seq<Task> {
    if abilities == [] then []
    else
      (if abilities[0].GeneralSelf? && abilities[0].trigger.AtRetire?
       then Repeat(ActAsOneself(p, abilities[0].action, i, retired), if twice then 2 else 1) else [])
      + RetireTasks(abilities[1..], p, i, retired, twice)
  }

  /** What the abilities of a board react to; `emo` is the one that retired, lost its shield or was set. */
  datatype Event = AllyRetired | OnAllyRetired | OnRivalRetired | OnShieldLost | AllySet

  function ReactOne(event: Event, owner: nat, ability: BattleAbility, p: Player, i: nat, emo: Fighter): seq<Task> {
    match (event, ability)
    case (AllyRetired, GeneralAlly(AtAllyRetireAsAlly(cond), action)) =>
      if MatchedFighter(cond, emo) then [ActAsAlly(p, action, i, Some(emo), owner)] else []
    case (OnAllyRetired, GeneralSelf(AtAllyRetire(cond), action)) =>
      if MatchedFighter(cond, emo) then [ActAsOneself(p, action, owner, None)] else []
    case (OnRivalRetired, GeneralSelf(AtRivalRetire(cond), action)) =>
      if MatchedFighter(cond, emo) then [ActAsOneself(p, action, owner, None)] else []
    case (OnShieldLost, GeneralSelf(AtAllyBattleAbilityRemoved(cond, excludes, lost), action)) =>
      if lost == SpecialAbility(Shield) && MatchedFighter(cond, emo)
      then [ShieldReact(p, action, owner, emo.baseId, excludes)] else []
    case (AllySet, GeneralAlly(AtAllySetAsAlly(cond), action)) =>
      if owner != i && MatchedFighter(cond, emo) then [ActAsAlly(p, action, i, None, owner)] else []
    case _ => []
  }

  function React(event: Event, abilities: seq<(nat, BattleAbility)>, p: Player, i: nat, emo: Fighter): seq<Task> {
    if abilities == [] then []
    else ReactOne(event, abilities[0].0, abilities[0].1, p, i, emo) + React(event, abilities[1..], p, i, emo)
  }

  function Get(s: State, p: Player, i: nat): Option<Fighter> { if i < |s.At(p)| then Some(s.At(p)[i]) else None }

  function Actor(s: State, p: Player, i: nat, retired: Option<Fighter>): Option<Fighter> {
    if retired.Some? then retired else Get(s, p, i)
  }

  function SpreadAct(s: State, p: Player, action: BattleAction, i: nat, retired: Option<Fighter>, isTriple: bool)
    : Option<(Tape, seq<Task>)>
  {
    var emo :- Actor(s, p, i, retired);
    var newIndex := if retired.Some? then i else i + 1;
    match action
    case Spawn(side, baseId) => Some((s.tape, [Task.SetEmo(p, newIndex, baseId, isTriple, emo.survived, side)]))
    case SpawnByAttackDiv(side, baseId, divisor) =>
      if divisor == 0 then None
      else Some((s.tape, Repeat(Task.SetEmo(p, newIndex, baseId, isTriple, emo.survived, side),
                                Min(emo.attr.attack / divisor, BOARD_EMO_MAX_COUNT))))
    case Raise(who, attack, health) =>
      var (indexes, tape) :- PickIndexes(s.At(p), i, who, retired.Some?, s.tape);
      Some((tape, RaiseTasks(p, indexes, DoubleIf(isTriple, attack), DoubleIf(isTriple, health))))
    case Lower(who, attack, health) =>
      var (indexes, tape) :- PickIndexes(s.At(p), i, who, retired.Some?, s.tape);
      Some((tape, LowerTasks(p, indexes, DoubleIf(isTriple, attack), DoubleIf(isTriple, health))))
    case RaiseByEmoCount(side, who, cond, attack, health) =>
      var count := if side == Ally then CountMatched(s.At(p), 0, i, false, cond)
                   else CountMatched(s.At(Other(p)), 0, 0, true, cond);
      var (indexes, tape) :- PickIndexes(s.At(p), i, who, retired.Some?, s.tape);
      Some((tape, RaiseTasks(p, indexes, DoubleIf(isTriple, Sat16(attack * count)), DoubleIf(isTriple, Sat16(health * count)))))
    case AddBattleAbility(who, ability) =>
      var (indexes, tape) :- PickReceivers(s.At(p), i, who, ability, isTriple, retired.Some?, s.tape);
      Some((tape, GrantTasks(p, indexes, ability)))
    case DamageAll(side, damage) =>
      var q := if side == Ally then p else Other(p);
      Some((s.tape, DamageTasks(q, Ids(s.At(q)), DoubleIf(isTriple, damage))))
  }

  function SpreadAsAlly(s: State, p: Player, action: BattleAllyAction, i: nat, retired: Option<Fighter>, onesIndex: nat)
    : Option<seq<Task>>
  {
    var ones :- Get(s, p, onesIndex);
    match action
    case AllyNormal(normal) => Some([Act(p, normal, i, retired, ones.attr.isTriple)])
    case TriggerRetireActions =>
      var ally :- Actor(s, p, i, retired);
      Some(RetireTasks(BattleOf(ally.attr.abilities), p, i, retired, ones.attr.isTriple))
  }

  function Spread(s: State, t: Task): Option<seq<Task>>
    requires t.ActAsOneself? || t.ActAsAlly? || t.DamageId? || t.StrikeBack? || t.ShieldReact? || t.RetireAllies? || t.RetireRivals?
  {
    match t
    case ActAsOneself(p, action, i, retired) =>
      var emo :- Actor(s, p, i, retired);
      Some([Act(p, action, i, retired, emo.attr.isTriple)])
    case ActAsAlly(p, action, i, retired, onesIndex) => SpreadAsAlly(s, p, action, i, retired, onesIndex)
    case DamageId(p, id, damage) =>
      var i := IndexOfId(s.At(p), id);
      Some(if i.Some? then [DamageAt(p, i.value, damage, false)] else [])
    case StrikeBack(p, i, damage) => Some(if i < |s.At(p)| then [DamageAt(p, i, damage, true)] else [])
    case ShieldReact(p, action, i, removedBaseId, excludesSameBase) =>
      if !excludesSameBase then Some([ActAsOneself(p, action, i, None)])
      else
        var emo :- Get(s, p, i);
        Some(if emo.baseId == removedBaseId then [] else [ActAsOneself(p, action, i, None)])
    case RetireAllies(p, i, emo) =>
      var abilities := BoardAbilities(s.At(p), 0);
      Some(React(AllyRetired, abilities, p, i, emo) + React(OnAllyRetired, abilities, p, i, emo))
    case RetireRivals(p, emo) => Some(React(OnRivalRetired, BoardAbilities(s.At(Other(p)), 0), Other(p), 0, emo))
  }

  // ----- what a task rewrites -----

  function Put(s: State, p: Player, i: nat, e: Fighter): State
    requires i < |s.At(p)|
  {
    s.With(p, s.At(p)[i := e])
  }

  function RaiseFighter(s: State, p: Player, i: nat, attack: U16, health: U16): Option<State> {
    if attack == 0 && health == 0 then Some(s)
    else
      var e :- Get(s, p, i);
      var a, h := Sat16(e.attr.attack + attack), Sat16(e.attr.health + health);
      Some(Put(s, p, i, e.(attr := e.attr.(attack := a, health := h))).Logged(RaiseStats(p, i, attack, health, a, h)))
  }

  function AtLeastOne(n: U16): U16 { if n < 1 then 1 else n }

  function LowerFighter(s: State, p: Player, i: nat, attack: U16, health: U16): Option<State> {
    if attack == 0 && health == 0 then Some(s)
    else
      var e :- Get(s, p, i);
      var a, h := AtLeastOne(Less16(e.attr.attack, attack)), AtLeastOne(Less16(e.attr.health, health));
      Some(Put(s, p, i, e.(attr := e.attr.(attack := a, health := h))).Logged(LowerStats(p, i, attack, health, a, h)))
  }

  function GrantFighter(s: State, p: Player, i: nat, ability: BattleAbility): Option<State> {
    var e :- Get(s, p, i);
    if |e.attr.abilities| >= ABILITIES_MAX || (ability.SpecialAbility? && Ability.Battle(ability) in e.attr.abilities) then Some(s)
    else
      Some(Put(s, p, i, e.(attr := e.attr.(abilities := e.attr.abilities + [Ability.Battle(ability)])))
           .Logged(AddAbilityTo(p, i, ability, e.attr.isTriple)))
  }

  function CountFighter(s: State, p: Player, i: nat): Option<State> {
    var e :- Get(s, p, i);
    Some(Put(s, p, i, e.(survived := e.survived + 1)))
  }

  function NewFighter(base: Base, isTriple: bool, survived: nat, next: nat): Fighter {
    Fighter(next % 0x1_0000, base.id, base.typ, BuildAttributes(base, isTriple), survived)
  }

  /** `add_emo`: nothing on a full board, else the emo at `i` and the reactions of its allies. */
  function AddFighter(s: State, p: Player, i: nat, e: Fighter): Option<(State, seq<Task>)> {
    if |s.At(p)| >= BOARD_EMO_MAX_COUNT then Some((s, []))
    else if i > |s.At(p)| then None
    else
      var board := s.At(p)[..i] + [e] + s.At(p)[i..];
      Some((s.With(p, board).Logged(Add(p, i, e.baseId, e.attr)), React(AllySet, BoardAbilities(board, 0), p, i, e)))
  }

  function SetFighter(s: State, p: Player, i: nat, baseId: U16, isTriple: bool, survived: nat, side: Side, bases: Bases)
    : Option<(State, seq<Task>)>
  {
    var base :- Find(bases, baseId);
    var s' := s.(next := s.next + 1);
    if side == Ally then AddFighter(s', p, i, NewFighter(base, isTriple, survived, s.next))
    else
      var rivals := s.At(Other(p));
      var inherited := if rivals == [] then 0 else rivals[|rivals| - 1].survived;
      AddFighter(s', Other(p), |rivals|, NewFighter(base, isTriple, inherited, s.next))
  }

  function CountTask(p: Player, i: nat, counted: bool): seq<Task> { if counted then [CountSurvived(p, i)] else [] }

  function LoseShield(s: State, p: Player, i: nat, k: nat, counted: bool): (State, seq<Task>)
    requires i < |s.At(p)| && k < |s.At(p)[i].attr.abilities|
  {
    var e := s.At(p)[i];
    var e' := e.(attr := e.attr.(abilities := e.attr.abilities[..k] + e.attr.abilities[k + 1..]));
    var s' := Put(s, p, i, e').Logged(RemoveAbilityOf(p, i, k, SpecialAbility(Shield)));
    (s', React(OnShieldLost, BoardAbilities(s'.At(p), 0), p, i, e') + CountTask(p, i, counted))
  }

  function Retire(s: State, p: Player, i: nat): (State, seq<Task>)
    requires i < |s.At(p)|
  {
    var e := s.At(p)[i];
    (s.With(p, s.At(p)[..i] + s.At(p)[i + 1..]).Logged(Remove(p, i)),
     RetireTasks(BattleOf(e.attr.abilities), p, i, Some(e), false) + [RetireAllies(p, i, e), RetireRivals(p, e)])
  }

  function DamageFighter(s: State, p: Player, i: nat, damage: U16, counted: bool): Option<(State, seq<Task>)> {
    var e :- Get(s, p, i);
    var shield := IndexOfAbility(e.attr.abilities, SHIELD);
    if shield.Some? then Some(LoseShield(s, p, i, shield.value, counted))
    else if damage == 0 then Some((s, CountTask(p, i, counted)))
    else
      var health := Less16(e.attr.health, damage);
      var s' := s.Logged(Damage(p, i, damage, health));
      if health == 0 then Some(Retire(s', p, i))
      else Some((Put(s', p, i, e.(attr := e.attr.(health := health))), CountTask(p, i, counted)))
  }

  function NoTasks(s: Option<State>): Option<(State, seq<Task>)> { if s.None? then None else Some((s.value, [])) }

  function Step(s: State, t: Task, bases: Bases): Option<(State, seq<Task>)> {
    match t
    case Act(p, action, i, retired, isTriple) =>
      var (tape, ts) :- SpreadAct(s, p, action, i, retired, isTriple);
      Some((s.(tape := tape), ts))
    case SetEmo(p, i, baseId, isTriple, survived, side) => SetFighter(s, p, i, baseId, isTriple, survived, side, bases)
    case RaiseAt(p, i, attack, health) => NoTasks(RaiseFighter(s, p, i, attack, health))
    case LowerAt(p, i, attack, health) => NoTasks(LowerFighter(s, p, i, attack, health))
    case GrantAt(p, i, ability) => NoTasks(GrantFighter(s, p, i, ability))
    case CountSurvived(p, i) => NoTasks(CountFighter(s, p, i))
    case DamageAt(p, i, damage, counted) => DamageFighter(s, p, i, damage, counted)
    case _ =>
      var ts :- Spread(s, t);
      Some((s, ts))
  }

  // ----- runs -----

  /** `left` is what remains of the budget. */
  datatype Outcome = Done(s: State, left: nat) | Failed | Running

  function Eval(ts: seq<Task>, s: State, n: nat, bases: Bases): Outcome
    decreases n
  {
    if ts == [] then Done(s, n)
    else if n == 0 then Running
    else
      var r := Step(s, ts[0], bases);
      if r.None? then Failed else Eval(r.value.1 + ts[1..], r.value.0, n - 1, bases)
  }

  /** The boards and the pending tasks after `k` steps. */
  function Point(ts: seq<Task>, s: State, k: nat, bases: Bases): Option<(State, seq<Task>)>
    decreases k
  {
    if k == 0 || ts == [] then Some((s, ts))
    else
      var (s', more) :- Step(s, ts[0], bases);
      Point(more + ts[1..], s', k - 1, bases)
  }

  // ----- one attack -----

  /** The leftmost emo among those with the fewest attacks. */
  function AttackIndex(board: seq<Fighter>): (i: nat)
    requires board != []
    ensures i < |board|
    ensures forall j :: 0 <= j < |board| ==> board[i].survived <= board[j].survived
    ensures forall j :: 0 <= j < i ==> board[i].survived < board[j].survived
  {
    if |board| == 1 then 0
    else
      var front := board[..|board| - 1];
      var i := AttackIndex(front);
      if front[i].survived > board[|board| - 1].survived then |board| - 1 else i
  }

  predicate HasSpecial(e: Fighter, special: Special) { Ability.Battle(SpecialAbility(special)) in e.attr.abilities }

  function AttractiveIndexes(board: seq<Fighter>, from: nat): (r: seq<nat>)
    ensures forall j :: j in r <==> from <= j < from + |board| && HasSpecial(board[j - from], Attractive)
  {
    if board == [] then []
    else (if HasSpecial(board[0], Attractive) then [from] else []) + AttractiveIndexes(board[1..], from + 1)
  }

  /** The indexes of the lowest attack; the first of them is listed twice when it is not index 0. */
  function LowestIndexes(board: seq<Fighter>, n: nat): (r: (seq<nat>, U16))
    requires 1 <= n <= |board|
    ensures r.0 != [] && forall j :: j in r.0 <==> 0 <= j < n && board[j].attr.attack == r.1
    ensures forall j :: 0 <= j < n ==> r.1 <= board[j].attr.attack
  {
    if n == 1 then ([0], board[0].attr.attack)
    else
      var (indexes, lowest) := LowestIndexes(board, n - 1);
      var attack := board[n - 1].attr.attack;
      if lowest > attack then ([n - 1, n - 1], attack)
      else if lowest == attack then (indexes + [n - 1], lowest)
      else (indexes, lowest)
  }

  /** Whom the defender lets be attacked: for an emo that seeks the lowest attack one of those, else
      an attractive emo when there is one, else anyone. */
  function DefenseIndex(board: seq<Fighter>, isLowest: bool, tape: Tape): (i: nat)
    requires board != []
    ensures i < |board|
    ensures isLowest ==> forall j :: 0 <= j < |board| ==> board[i].attr.attack <= board[j].attr.attack
    ensures !isLowest && (exists j :: 0 <= j < |board| && HasSpecial(board[j], Attractive)) ==> HasSpecial(board[i], Attractive)
  {
    if isLowest then
      var lowest := LowestIndexes(board, |board|).0;
      var i := lowest[Choice(tape, |lowest|)];
      assert i in lowest;
      i
    else
      var attractive := AttractiveIndexes(board, 0);
      if attractive != [] then
        var i := attractive[Choice(tape, |attractive|)];
        assert i in attractive;
        i
      else
        assert forall j :: 0 <= j < |board| && HasSpecial(board[j], Attractive) ==> j - 0 in attractive;
        Choice(tape, |board|)
  }

  /** The tasks of one attack; None when a board is empty. */
  function AttackTasks(s: State, p: Player): Option<(State, seq<Task>)> {
    var q := Other(p);
    if s.At(p) == [] || s.At(q) == [] then None
    else
      var i := AttackIndex(s.At(p));
      var j := DefenseIndex(s.At(q), HasSpecial(s.At(p)[i], AttackLowestAttack), s.tape);
      Some((s.(tape := After(s.tape, 1)).Logged(Attack(p, i, j)),
            [DamageAt(q, j, s.At(p)[i].attr.attack, false), StrikeBack(p, i, s.At(q)[j].attr.attack)]))
  }
}
