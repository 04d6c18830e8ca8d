/** The shop cascade as a machine: a pending task either rewrites the board once or is replaced
    by smaller tasks. `Step` performs one task, `Run` a list of them to the end. */
module Shop {
  import opened Types
  import opened Rng

  const TRIPLE_REWARD_COIN: U8 := 5
  const SELL_COIN: U8 := 1

  /** `id` comes from the id counter and is unique within one visit to the shop. */
  datatype ShopEmo = ShopEmo(id: nat, cards: seq<U16>, baseId: U16, attr: Attributes)

  datatype Log =
    | Add(index: nat, emo: BoardEmo)
    | Remove(index: nat)
    | Move(fromIndex: nat, toIndex: nat)
    | RaiseStats(index: nat, attack: U16, health: U16, calculatedAttack: U16, calculatedHealth: U16)
    | AddAbilityTo(index: nat, ability: Ability, isTargetTriple: bool)
    | Triple(removedIndexes: seq<nat>)

  /** `next` is the id counter, `earned` the coins gotten so far before saturation. */
  datatype State = State(board: seq<ShopEmo>, logs: seq<Log>, next: nat, earned: nat, tape: Tape)

  datatype Pointer = OnBoard(id: nat) | Removed(emo: ShopEmo, prevIndex: nat)

  datatype Task =
    | Act(action: ShopAction, ptr: Pointer, isTriple: bool)
    | ActAsOneself(action: ShopAction, ptr: Pointer)
    | ActAsAlly(allyAction: AllyAction, onesId: nat, ptr: Pointer)
    | AllySweep(newId: nat, typ: Typ, isNewTriple: bool)
    | Menagerie(actionId: nat, typCount: U8, attack: U16, health: U16)
    | RaiseById(id: nat, attack: U16, health: U16)
    | GrantById(id: nat, ability: Ability)
    | Merge(newId: nat)

  // ----- lookups -----

  function FindIndex(board: seq<ShopEmo>, id: nat): (r: Option<nat>)
    ensures r.Some? ==> r.value < |board| && board[r.value].id == id
    ensures r.Some? ==> forall j :: 0 <= j < r.value ==> board[j].id != id
    ensures r.None? ==> forall j :: 0 <= j < |board| ==> board[j].id != id
  {
    if board == [] then None
    else if board[0].id == id then Some(0)
    else
      var i :- FindIndex(board[1..], id);
      Some(i + 1)
  }

  function FindEmo(board: seq<ShopEmo>, id: nat): (r: Option<ShopEmo>)
    ensures r.Some? ==> r.value in board && r.value.id == id
  {
    var i :- FindIndex(board, id);
    Some(board[i])
  }

  function PointedEmo(board: seq<ShopEmo>, ptr: Pointer): Option<ShopEmo> {
    match ptr
    case OnBoard(id) => FindEmo(board, id)
    case Removed(emo, _) => Some(emo)
  }

  function PointedId(ptr: Pointer): nat {
    match ptr
    case OnBoard(id) => id
    case Removed(emo, _) => emo.id
  }

  function PointedIndex(board: seq<ShopEmo>, ptr: Pointer): Option<nat> {
    match ptr
    case OnBoard(id) => FindIndex(board, id)
    case Removed(_, prevIndex) => Some(prevIndex)
  }

  /** Where an emo set by the pointed emo goes; also the index of its right neighbour. */
  function NextIndex(board: seq<ShopEmo>, ptr: Pointer): Option<nat> {
    match ptr
    case OnBoard(id) =>
      var i :- FindIndex(board, id);
      Some(i + 1)
    case Removed(_, prevIndex) => Some(prevIndex)
  }

  function RightId(board: seq<ShopEmo>, ptr: Pointer): Option<Option<nat>> {
    var i :- NextIndex(board, ptr);
    Some(if i < |board| then Some(board[i].id) else None)
  }

  function LeftId(board: seq<ShopEmo>, ptr: Pointer): Option<Option<nat>> {
    var i :- PointedIndex(board, ptr);
    if i == 0 then Some(None)
    else if i - 1 < |board| then Some(Some(board[i - 1].id))
    else None
  }

  function MatchedEmo(cond: Cond, e: ShopEmo, bases: Bases): Option<bool> {
    if cond.typ.None? then Some(MatchedTriple(cond.triple, e.attr.isTriple))
    else
      var base :- Find(bases, e.baseId);
      Some(Matched(cond, base.typ, e.attr.isTriple))
  }

  function MatchedIds(board: seq<ShopEmo>, ids: seq<nat>, cond: Cond, bases: Bases): Option<seq<nat>> {
    if ids == [] then Some([])
    else
      var e :- FindEmo(board, ids[0]);
      var matched :- MatchedEmo(cond, e, bases);
      var rest :- MatchedIds(board, ids[1..], cond, bases);
      Some((if matched then [ids[0]] else []) + rest)
  }

  function Ids(board: seq<ShopEmo>): (r: seq<nat>)
    ensures |r| == |board|
    ensures forall i :: 0 <= i < |board| ==> r[i] == board[i].id
  {
    if board == [] then [] else [board[0].id] + Ids(board[1..])
  }

  function OtherIds(board: seq<ShopEmo>, id: nat): seq<nat> {
    if board == [] then []
    else (if board[0].id == id then [] else [board[0].id]) + OtherIds(board[1..], id)
  }

  function OptionToSeq<T>(o: Option<T>): seq<T> { if o.Some? then [o.value] else [] }

  function TargetIds(board: seq<ShopEmo>, ptr: Pointer, target: Target, bases: Bases): Option<seq<nat>> {
    match target
    case Oneself => Some(if ptr.OnBoard? then [ptr.id] else [])
    case Others(destination, cond) =>
      var ids :-
        match destination {
          case Right =>
            var right :- RightId(board, ptr);
            Some(OptionToSeq(right))
          case Left =>
            var left :- LeftId(board, ptr);
            Some(OptionToSeq(left))
          case All => Some(OtherIds(board, PointedId(ptr)))
        };
      MatchedIds(board, ids, cond, bases)
  }

  function CountOthers(board: seq<ShopEmo>, id: nat, cond: Cond, bases: Bases): Option<nat> {
    if board == [] then Some(0)
    else if board[0].id == id then CountOthers(board[1..], id, cond, bases)
    else
      var matched :- MatchedEmo(cond, board[0], bases);
      var rest :- CountOthers(board[1..], id, cond, bases);
      Some(if matched then rest + 1 else rest)
  }

  // ----- abilities an emo or a board carries -----

  function PeriOf(abilities: seq<Ability>): seq<Peri> {
    if abilities == [] then []
    else (match abilities[0] case Shop(PeriAbility(p)) => [p] case _ => []) + PeriOf(abilities[1..])
  }

  function PreOf(abilities: seq<Ability>): seq<Pre> {
    if abilities == [] then []
    else (match abilities[0] case Shop(PreAbility(p)) => [p] case _ => []) + PreOf(abilities[1..])
  }

  function SelfTasks(peris: seq<Peri>, trigger: SelfTrigger, ptr: Pointer): seq<Task> {
    if peris == [] then []
    else
      (if peris[0].AsOneself? && peris[0].trigger == trigger then [ActAsOneself(peris[0].action, ptr)] else [])
      + SelfTasks(peris[1..], trigger, ptr)
  }

  /** The `Set` actions of `peris`, each twice when a triple triggers them. */
  function SetActionTasks(peris: seq<Peri>, ptr: Pointer, isTriple: bool, twice: bool): seq<Task> {
    if peris == [] then []
    else
      (if peris[0].AsOneself? && peris[0].trigger.OnSet?
       then var t := Act(peris[0].action, ptr, isTriple); if twice then [t, t] else [t]
       else [])
      + SetActionTasks(peris[1..], ptr, isTriple, twice)
  }

  function SweepTask(p: Peri, ownerId: nat, newId: nat, typ: Typ, isNewTriple: bool): seq<Task> {
    match p
    case AsAlly(cond, action) =>
      if Matched(cond, typ, isNewTriple) then [ActAsAlly(action, ownerId, OnBoard(newId))] else []
    case AsOneself(OnAllySet(cond), action) =>
      if Matched(cond, typ, isNewTriple) then [ActAsOneself(action, OnBoard(ownerId))] else []
    case _ => []
  }

  /** Every Peri ability on the board, each with the id of its emo. */
  function BoardPeris(board: seq<ShopEmo>): seq<(nat, Peri)> {
    if board == [] then [] else Owned(PeriOf(board[0].attr.abilities), board[0].id) + BoardPeris(board[1..])
  }

  function Owned<T>(items: seq<T>, id: nat): seq<(nat, T)> {
    if items == [] then [] else [(id, items[0])] + Owned(items[1..], id)
  }

  function SweepTasks(peris: seq<(nat, Peri)>, newId: nat, typ: Typ, isNewTriple: bool): seq<Task> {
    if peris == [] then []
    else
      (if peris[0].0 == newId then [] else SweepTask(peris[0].1, peris[0].0, newId, typ, isNewTriple))
      + SweepTasks(peris[1..], newId, typ, isNewTriple)
  }

  function BoardPres(board: seq<ShopEmo>): seq<(nat, Pre)> {
    if board == [] then [] else Owned(PreOf(board[0].attr.abilities), board[0].id) + BoardPres(board[1..])
  }

  function PreTask(pre: Pre, id: nat): Task {
    match pre
    case Normal(action) => ActAsOneself(action, OnBoard(id))
    case IncreaseStatsOfMenagerie(c, a, h) => Menagerie(id, c, a, h)
  }

  function PreTasks(pres: seq<(nat, Pre)>): seq<Task> {
    if pres == [] then [] else [PreTask(pres[0].1, pres[0].0)] + PreTasks(pres[1..])
  }

  // ----- tasks that only spread into smaller ones -----

  function RaiseTasks(ids: seq<nat>, attack: U16, health: U16): seq<Task> {
    if ids == [] then [] else [RaiseById(ids[0], attack, health)] + RaiseTasks(ids[1..], attack, health)
  }

  function GrantTasks(ids: seq<nat>, ability: Ability): seq<Task> {
    if ids == [] then [] else [GrantById(ids[0], ability)] + GrantTasks(ids[1..], ability)
  }

  function TypOf(board: seq<ShopEmo>, id: nat, bases: Bases): Option<Typ> {
    var e :- FindEmo(board, id);
    var base :- Find(bases, e.baseId);
    Some(base.typ)
  }

  function LeftTyp(board: seq<ShopEmo>, left: Option<nat>, bases: Bases): Option<Option<Typ>> {
    if left.None? then Some(None)
    else
      var typ :- TypOf(board, left.value, bases);
      Some(Some(typ))
  }

  /** The right neighbour is raised too unless it shares the left one's typ. */
  function RightRaised(board: seq<ShopEmo>, right: Option<nat>, leftTyp: Option<Typ>, bases: Bases): Option<bool> {
    if right.None? then Some(false)
    else if leftTyp.None? then (var e :- FindEmo(board, right.value); Some(true))
    else
      var typ :- TypOf(board, right.value, bases);
      Some(typ != leftTyp.value)
  }

  function AdjacentIds(board: seq<ShopEmo>, ptr: Pointer, bases: Bases): Option<seq<nat>> {
    var left :- LeftId(board, ptr);
    var right :- RightId(board, ptr);
    var leftTyp :- LeftTyp(board, left, bases);
    var rightRaised :- RightRaised(board, right, leftTyp, bases);
    Some(OptionToSeq(left) + OptionToSeq(if rightRaised then right else None))
  }

  /** One emo of each typ, in the shuffled order, until `limit` typs are served. */
  function MenagerieIds(board: seq<ShopEmo>, order: seq<nat>, actionId: nat, seen: seq<Typ>, limit: nat, bases: Bases)
    : Option<seq<nat>>
  {
    if order == [] then Some([])
    else if order[0] == actionId then MenagerieIds(board, order[1..], actionId, seen, limit, bases)
    else
      var e :- FindEmo(board, order[0]);
      var base :- Find(bases, e.baseId);
      if base.typ in seen then MenagerieIds(board, order[1..], actionId, seen, limit, bases)
      else if |seen| + 1 >= limit then Some([order[0]])
      else
        var rest :- MenagerieIds(board, order[1..], actionId, seen + [base.typ], limit, bases);
        Some([order[0]] + rest)
  }

  function ScaledTasks(board: seq<ShopEmo>, ptr: Pointer, target: Target, isTriple: bool, attack: U16, health: U16,
                       factor: nat, bases: Bases): Option<seq<Task>>
  {
    var ids :- TargetIds(board, ptr, target, bases);
    Some(RaiseTasks(ids, Sat16(DoubleIf(isTriple, attack) * factor), Sat16(DoubleIf(isTriple, health) * factor)))
  }

  /** Every action but `SetEmo` and the coin ones: which stat or ability changes it stands for. */
  function SpreadAction(board: seq<ShopEmo>, action: ShopAction, ptr: Pointer, isTriple: bool, bases: Bases)
    : Option<seq<Task>>
    requires !action.SetEmo? && !action.GetCoin? && !action.GetCoinByEmoCountDiv?
  {
    match action
    case IncreaseStats(target, attack, health) =>
      var ids :- TargetIds(board, ptr, target, bases);
      Some(RaiseTasks(ids, DoubleIf(isTriple, attack), DoubleIf(isTriple, health)))
    case IncreaseStatsOfAdjacentMenagerie(attack, health) =>
      var ids :- AdjacentIds(board, ptr, bases);
      Some(RaiseTasks(ids, DoubleIf(isTriple, attack), DoubleIf(isTriple, health)))
    case IncreaseStatsByGrade(target, attack, health) =>
      var e :- PointedEmo(board, ptr);
      var base :- Find(bases, e.baseId);
      ScaledTasks(board, ptr, target, isTriple, attack, health, base.grade, bases)
    case IncreaseStatsByEmoCount(target, cond, attack, health) =>
      var count :- CountOthers(board, PointedId(ptr), cond, bases);
      ScaledTasks(board, ptr, target, isTriple, attack, health, count, bases)
    case AddAbility(target, ability) =>
      var ids :- TargetIds(board, ptr, target, bases);
      Some(GrantTasks(ids, ability))
  }

  function Spread(board: seq<ShopEmo>, t: Task, bases: Bases): Option<seq<Task>>
    requires t.ActAsOneself? || t.ActAsAlly? || t.AllySweep?
  {
    match t
    case ActAsOneself(action, ptr) =>
      var e :- PointedEmo(board, ptr);
      Some([Act(action, ptr, e.attr.isTriple)])
    case ActAsAlly(allyAction, onesId, ptr) =>
      var ones :- FindEmo(board, onesId);
      (match allyAction
       case OneselfTripleNormal(action) => Some([Act(action, ptr, ones.attr.isTriple)])
       case TriggerSetActions =>
         var ally :- PointedEmo(board, ptr);
         Some(SetActionTasks(PeriOf(ally.attr.abilities), ptr, ally.attr.isTriple, ones.attr.isTriple)))
    case AllySweep(newId, typ, isNewTriple) => Some(SweepTasks(BoardPeris(board), newId, typ, isNewTriple))
  }

  // ----- tasks that rewrite the board -----

  function ToBoardEmo(e: ShopEmo): BoardEmo { BoardEmo(e.cards, e.baseId, e.attr) }

  function RaiseEmo(s: State, id: nat, attack: U16, health: U16): Option<State> {
    var i :- FindIndex(s.board, id);
    var e := s.board[i];
    var a, h := Sat16(e.attr.attack + attack), Sat16(e.attr.health + health);
    Some(s.(board := s.board[i := e.(attr := e.attr.(attack := a, health := h))],
            logs := s.logs + [RaiseStats(i, attack, health, a, h)]))
  }

  predicate IsBattleSpecial(a: Ability) { a.Battle? && a.battle.SpecialAbility? }

  function GrantEmo(s: State, id: nat, ability: Ability): Option<State> {
    var i :- FindIndex(s.board, id);
    var e := s.board[i];
    if IsBattleSpecial(ability) && ability in e.attr.abilities then Some(s)
    else
      Some(s.(board := s.board[i := e.(attr := e.attr.(abilities := e.attr.abilities + [ability]))],
              logs := s.logs + [AddAbilityTo(i, ability, e.attr.isTriple)]))
  }

  /** What the abilities make of a new emo: its own `Set` actions, then those of its allies. */
  function AdditionTasks(board: seq<ShopEmo>, newId: nat, bases: Bases): Option<seq<Task>> {
    var added :- FindEmo(board, newId);
    var base :- Find(bases, added.baseId);
    Some(SelfTasks(PeriOf(added.attr.abilities), OnSet, OnBoard(newId)) + [AllySweep(newId, base.typ, added.attr.isTriple)])
  }

  function ArrivalTasks(board: seq<ShopEmo>, emo: ShopEmo, bases: Bases): Option<seq<Task>> {
    var ts :- AdditionTasks(board, emo.id, bases);
    Some(ts + (if emo.attr.isTriple then [] else [Merge(emo.id)]))
  }

  function InsertEmo(s: State, emo: ShopEmo, index: nat, bases: Bases): Option<(State, seq<Task>)> {
    if |s.board| >= BOARD_EMO_MAX_COUNT || index > |s.board| then None
    else
      var board := s.board[..index] + [emo] + s.board[index..];
      var ts :- ArrivalTasks(board, emo, bases);
      Some((s.(board := board, logs := s.logs + [Add(index, ToBoardEmo(emo))]), ts))
  }

  function InsertNew(s: State, cards: seq<U16>, baseId: U16, isTriple: bool, index: nat, bases: Bases)
    : Option<(State, seq<Task>)>
  {
    var base :- Find(bases, baseId);
    InsertEmo(s.(next := s.next + 1), ShopEmo(s.next, cards, base.id, BuildAttributes(base, isTriple)), index, bases)
  }

  predicate IsCopy(e: ShopEmo, baseId: U16) { e.baseId == baseId && !e.attr.isTriple }

  function Copies(board: seq<ShopEmo>, baseId: U16): seq<ShopEmo> {
    if board == [] then []
    else (if IsCopy(board[0], baseId) then [board[0]] else []) + Copies(board[1..], baseId)
  }

  function WithoutCopies(board: seq<ShopEmo>, baseId: U16): seq<ShopEmo> {
    if board == [] then []
    else (if IsCopy(board[0], baseId) then [] else [board[0]]) + WithoutCopies(board[1..], baseId)
  }

  /** The positions of the copies, counted from `from`. */
  function CopyIndexes(board: seq<ShopEmo>, baseId: U16, from: nat): seq<nat> {
    if board == [] then []
    else (if IsCopy(board[0], baseId) then [from] else []) + CopyIndexes(board[1..], baseId, from + 1)
  }

  function AttackBonus(sources: seq<ShopEmo>, base: Base): nat {
    if sources == [] then 0 else Less16(sources[0].attr.attack, base.attack) + AttackBonus(sources[1..], base)
  }

  function HealthBonus(sources: seq<ShopEmo>, base: Base): nat {
    if sources == [] then 0 else Less16(sources[0].attr.health, base.health) + HealthBonus(sources[1..], base)
  }

  function NotIn(abilities: seq<Ability>, known: seq<Ability>): seq<Ability> {
    if abilities == [] then []
    else (if abilities[0] in known then [] else [abilities[0]]) + NotIn(abilities[1..], known)
  }

  function ExtraAbilities(sources: seq<ShopEmo>, known: seq<Ability>): seq<Ability> {
    if sources == [] then [] else NotIn(sources[0].attr.abilities, known) + ExtraAbilities(sources[1..], known)
  }

  function CardSeq(emos: seq<ShopEmo>): seq<U16> {
    if emos == [] then [] else emos[0].cards + CardSeq(emos[1..])
  }

  /** None when a u16 sum of bonuses overflows. */
  function BuildTriple(sources: seq<ShopEmo>, base: Base, id: nat): Option<ShopEmo> {
    var attackBonus, healthBonus := AttackBonus(sources, base), HealthBonus(sources, base);
    if attackBonus > U16_MAX || healthBonus > U16_MAX then None
    else
      Some(ShopEmo(id, CardSeq(sources), base.id,
                   Attributes(Sat16(Sat16(2 * base.attack) + attackBonus), Sat16(Sat16(2 * base.health) + healthBonus),
                              base.abilities + ExtraAbilities(sources, base.abilities), true)))
  }

  function MergeCopies(s: State, newId: nat, bases: Bases): Option<(State, seq<Task>)> {
    var i :- FindIndex(s.board, newId);
    var baseId := s.board[i].baseId;
    if |Copies(s.board, baseId)| < 3 then Some((s, []))
    else
      var base :- Find(bases, baseId);
      var triple :- BuildTriple(Copies(s.board, baseId), base, s.next);
      InsertEmo(s.(board := WithoutCopies(s.board, baseId), next := s.next + 1, earned := s.earned + TRIPLE_REWARD_COIN,
                   logs := s.logs + [Triple(CopyIndexes(s.board, baseId, 0))]),
                triple, |WithoutCopies(s.board[..i], baseId)|, bases)
  }

  function SpawnEmo(s: State, baseId: U16, ptr: Pointer, isTriple: bool, bases: Bases): Option<(State, seq<Task>)> {
    if |s.board| >= BOARD_EMO_MAX_COUNT then Some((s, []))
    else
      var index :- NextIndex(s.board, ptr);
      InsertNew(s, [], baseId, isTriple, index, bases)
  }

  function Earn(s: State, coin: U8): State { s.(earned := s.earned + coin) }

  function EarnByCount(s: State, cond: Cond, divisor: U8, ptr: Pointer, isTriple: bool, bases: Bases): Option<State> {
    var count :- CountOthers(s.board, PointedId(ptr), cond, bases);
    if divisor == 0 then None
    else Some(Earn(s, Sat8(if isTriple then 2 * (count / divisor) else count / divisor)))
  }

  function Perform(s: State, action: ShopAction, ptr: Pointer, isTriple: bool, bases: Bases): Option<(State, seq<Task>)> {
    match action
    case SetEmo(baseId) => SpawnEmo(s, baseId, ptr, isTriple, bases)
    case GetCoin(coin) => Some((Earn(s, if isTriple then Sat8(2 * coin) else coin), []))
    case GetCoinByEmoCountDiv(cond, divisor) =>
      var s' :- EarnByCount(s, cond, divisor, ptr, isTriple, bases);
      Some((s', []))
    case _ =>
      var ts :- SpreadAction(s.board, action, ptr, isTriple, bases);
      Some((s, ts))
  }

  function ServeMenagerie(s: State, actionId: nat, typCount: U8, attack: U16, health: U16, bases: Bases)
    : Option<(State, seq<Task>)>
  {
    var order := Shuffle(Ids(s.board), s.tape);
    var e :- FindEmo(s.board, actionId);
    var ids :- MenagerieIds(s.board, order, actionId, [], typCount, bases);
    Some((s.(tape := After(s.tape, |s.board|)), RaiseTasks(ids, DoubleIf(e.attr.isTriple, attack), DoubleIf(e.attr.isTriple, health))))
  }

  function Step(s: State, t: Task, bases: Bases): Option<(State, seq<Task>)> {
    match t
    case RaiseById(id, attack, health) =>
      var s' :- RaiseEmo(s, id, attack, health);
      Some((s', []))
    case GrantById(id, ability) =>
      var s' :- GrantEmo(s, id, ability);
      Some((s', []))
    case Merge(newId) => MergeCopies(s, newId, bases)
    case Act(action, ptr, isTriple) => Perform(s, action, ptr, isTriple, bases)
    case Menagerie(actionId, typCount, attack, health) => ServeMenagerie(s, actionId, typCount, attack, health, bases)
    case _ =>
      var ts :- Spread(s.board, t, bases);
      Some((s, ts))
  }

  // ----- the termination measure -----

  function TripleUnit(e: ShopEmo): nat { if e.attr.isTriple then 1 else 0 }

  function Sum(unit: ShopEmo -> nat, board: seq<ShopEmo>): nat {
    if board == [] then 0 else unit(board[0]) + Sum(unit, board[1..])
  }

  function Triples(board: seq<ShopEmo>): nat { Sum(TripleUnit, board) }

  /** Insertions still possible on a board of `triples` triples and nothing else. */
  function Capacity(triples: nat): nat
    decreases 7 - Min(triples, 7)
  {
    if triples >= 7 then 0
    else if triples >= 5 then 7 - triples
    else (7 - triples) + 1 + Capacity(triples + 1)
  }

  /** Bounds the emos that can still be made before the cascade must stop. */
  function Potential(board: seq<ShopEmo>): nat {
    var triples := Triples(board);
    if |board| <= 7 && triples <= |board| && |board| - triples <= Capacity(triples)
    then Capacity(triples) - (|board| - triples) else 100 + |board|
  }

  function Class(t: Task): nat {
    match t
    case RaiseById(_, _, _) => 0
    case GrantById(_, _) => 0
    case Merge(_) => 1
    case Act(_, _, _) => 1
    case ActAsOneself(_, _) => 2
    case ActAsAlly(_, _, _) => 2
    case Menagerie(_, _, _, _) => 2
    case AllySweep(_, _, _) => 3
  }

  function MaxClass(ts: seq<Task>): (r: nat)
    ensures forall t :: t in ts ==> Class(t) <= r
  {
    if ts == [] then 0
    else
      var rest := MaxClass(ts[1..]);
      if Class(ts[0]) > rest then Class(ts[0]) else rest
  }
}
