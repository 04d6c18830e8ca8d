/** Entities shared by the shop, the battle and the contract: emo bases, abilities,
    fixed-width numbers and the failure type used for the source's `Result`. */
module Types {

  /** `None` stands for every way a run can be abandoned: an `Err`, or a panic. */
  datatype Option<+T> = None | Some(value: T) {
    predicate IsFailure() { None? }
    function PropagateFailure<U>(): Option<U> requires None? { None }
    function Extract(): T requires Some? { value }
  }

  type U8 = n: nat | n < 0x100
  type U16 = n: nat | n < 0x1_0000

  const U8_MAX: U8 := 0xff
  const U16_MAX: U16 := 0xffff
  const BOARD_EMO_MAX_COUNT: nat := 7

  function Sat8(n: nat): U8 { if n < 0x100 then n else U8_MAX }
  function Sat16(n: nat): U16 { if n < 0x1_0000 then n else U16_MAX }
  function Less16(n: U16, m: U16): U16 { if n < m then 0 else n - m }
  function Min(a: nat, b: nat): nat { if a < b then a else b }

  datatype Typ = Human | Nature | Food | Object
  datatype Cond = Cond(typ: Option<Typ>, triple: Option<bool>)
  datatype Destination = Left | Right | All
  datatype Target = Oneself | Others(destination: Destination, cond: Cond)
  datatype TargetOrRandom = To(target: Target) | Random(cond: Cond, count: U8)
  datatype Side = Ally | Rival

  datatype ShopAction =
    | SetEmo(baseId: U16)
    | IncreaseStats(target: Target, attack: U16, health: U16)
    | IncreaseStatsByEmoCount(target: Target, count: Cond, attack: U16, health: U16)
    | IncreaseStatsByGrade(target: Target, attack: U16, health: U16)
    | IncreaseStatsOfAdjacentMenagerie(attack: U16, health: U16)
    | AddAbility(target: Target, ability: Ability)
    | GetCoin(coin: U8)
    | GetCoinByEmoCountDiv(count: Cond, divisor: U8)

  datatype SelfTrigger = OnSet | OnSell | OnAllySet(cond: Cond)
  datatype AllyAction = OneselfTripleNormal(action: ShopAction) | TriggerSetActions
  datatype Peri = AsOneself(trigger: SelfTrigger, action: ShopAction) | AsAlly(cond: Cond, allyAction: AllyAction)
  datatype Pre = Normal(action: ShopAction) | IncreaseStatsOfMenagerie(typCount: U8, attack: U16, health: U16)
  datatype ShopAbility = PreAbility(pre: Pre) | PeriAbility(peri: Peri) | Placeholder

  datatype Special = Shield | Attractive | AttackLowestAttack
  datatype BattleTrigger =
    | AtPre
    | AtRetire
    | AtAllyRetire(cond: Cond)
    | AtRivalRetire(cond: Cond)
    | AtAllyBattleAbilityRemoved(cond: Cond, excludesSameBase: bool, ability: BattleAbility)
  datatype BattleAllyTrigger = AtAllySetAsAlly(cond: Cond) | AtAllyRetireAsAlly(cond: Cond)
  datatype BattleAction =
    | Spawn(side: Side, baseId: U16)
    | SpawnByAttackDiv(side: Side, baseId: U16, divisor: U8)
    | Raise(who: TargetOrRandom, attack: U16, health: U16)
    | Lower(who: TargetOrRandom, attack: U16, health: U16)
    | RaiseByEmoCount(side: Side, who: TargetOrRandom, count: Cond, attack: U16, health: U16)
    | AddBattleAbility(who: TargetOrRandom, ability: BattleAbility)
    | DamageAll(side: Side, damage: U16)
  datatype BattleAllyAction = AllyNormal(action: BattleAction) | TriggerRetireActions
  datatype BattleAbility =
    | GeneralSelf(trigger: BattleTrigger, action: BattleAction)
    | GeneralAlly(allyTrigger: BattleAllyTrigger, allyAction: BattleAllyAction)
    | SpecialAbility(special: Special)

  datatype Ability = Shop(shop: ShopAbility) | Battle(battle: BattleAbility)

  datatype Base = Base(id: U16, typ: Typ, grade: U8, attack: U16, health: U16, abilities: seq<Ability>)
  type Bases = map<U16, Base>

  /** What the table of bases promises: keys name their base, grades are 1 to 6, nobody is born retired. */
  ghost predicate WellFormed(bases: Bases) {
    forall id :: id in bases ==> bases[id].id == id && 1 <= bases[id].grade <= 6 && bases[id].health >= 1
  }

  function Find(bases: Bases, id: U16): Option<Base> {
    if id in bases then Some(bases[id]) else None
  }

  datatype Attributes = Attributes(attack: U16, health: U16, abilities: seq<Ability>, isTriple: bool)

  function BuildAttributes(base: Base, isTriple: bool): Attributes {
    Attributes(if isTriple then Sat16(2 * base.attack) else base.attack,
               if isTriple then Sat16(2 * base.health) else base.health, base.abilities, isTriple)
  }

  predicate MatchedTriple(required: Option<bool>, isTriple: bool) { required.None? || required.value == isTriple }
  predicate MatchedTyp(required: Option<Typ>, typ: Typ) { required.None? || required.value == typ }
  predicate Matched(c: Cond, typ: Typ, isTriple: bool) { MatchedTyp(c.typ, typ) && MatchedTriple(c.triple, isTriple) }

  /** A condition that asks for nothing is met by everyone; each thing that it asks for has to be there. */
  lemma ConditionIsMet(c: Cond, typ: Typ, isTriple: bool)
    ensures Matched(Cond(None, None), typ, isTriple)
    ensures Matched(c, typ, isTriple) ==> (c.typ.Some? ==> typ == c.typ.value) && (c.triple.Some? ==> isTriple == c.triple.value)
    ensures !Matched(c, typ, isTriple) ==> (c.typ.Some? && typ != c.typ.value) || (c.triple.Some? && isTriple != c.triple.value)
  {
  }

  function DoubleIf(condition: bool, n: U16): U16 { if condition then Sat16(2 * n) else n }

  /** A card of the match pool. */
  datatype Card = Card(id: U16, baseId: U16)

  /** Every id names one card. */
  ghost predicate UniqueIds(cards: seq<Card>) { forall a, b :: a in cards && b in cards && a.id == b.id ==> a == b }

  datatype BoardEmo = BoardEmo(cards: seq<U16>, baseId: U16, attr: Attributes)
  type Board = seq<BoardEmo>
  datatype GhostEmo = GhostEmo(baseId: U16, attr: Attributes)
  datatype GradeAndBoard = GradeAndBoard(grade: U8, board: Board)
  datatype GradeAndGhostBoard = GradeAndGhostBoard(grade: U8, board: seq<GhostEmo>)
  type Ghost = seq<GradeAndGhostBoard>
}
