/** One visit to the shop: the operations a player submits, verified and applied in order. */
module PlayerOps {
  import opened Types
  import opened Rng
  import opened Shop
  import opened ShopRun
  import opened Moves
  import opened Catalog
  import opened ShopRenaming

  const NEXT_CATALOG_LINE_COIN: U8 := 1
  const EMO_BUY_COIN: U8 := 3
  const LAST_GRADE: U8 := 6
  const MULLIGAN_COUNT: U8 := 2
  const MAX_COIN: U8 := 8
  const MAX_OPS: nat := 200

  datatype Op = Buy(cardId: U16, index: nat) | Sell(soldIndex: nat) | Mov(indexes: seq<nat>) | NextCatalogLine | Upgrade

  /** `sold` are the cards that may not be bought back; `upgradeCoin` is the price of the next grade. */
  datatype Visit = Visit(shop: State, coin: U8, line: U8, lineCounter: U8, sold: seq<U16>, grade: U8, upgradeCoin: Option<U8>)

  function InitialCoin(turn: U8): U8 { if turn + 2 > MAX_COIN then MAX_COIN else turn + 2 }

  function UpgradeCoin(grade: U8): Option<U8> {
    match grade
    case 2 => Some(5)
    case 3 => Some(7)
    case 4 => Some(8)
    case 5 => Some(9)
    case 6 => Some(9)
    case _ => None
  }

  function DecreaseUpgradeCoin(coin: Option<U8>): Option<U8> {
    match coin
    case Some(c) => Some(if c > 0 then c - 1 else 0)
    case None => None
  }

  /** Every operation counts its own coins and logs from nothing; only the start of the shop has a generator. */
  function Begin(s: State): State { s.(logs := [], earned := 0, tape := []) }

  function Collect(v: Visit, s: State): Visit { v.(shop := s, coin := Sat8(v.coin + Sat8(s.earned))) }

  predicate OnAnyEmo(board: seq<ShopEmo>, cardId: U16) { exists e :: e in board && cardId in e.cards }

  function FindCard(line: seq<Card>, id: U16): (r: Option<Card>)
    ensures r.Some? ==> r.value in line && r.value.id == id
  {
    if line == [] then None else if line[0].id == id then Some(line[0]) else FindCard(line[1..], id)
  }

  /** The base of the card when the player may buy it now. */
  function Offered(v: Visit, cardId: U16, catalog: seq<seq<Card>>, bases: Bases): (r: Option<Base>)
    ensures r.Some? ==> v.coin >= EMO_BUY_COIN && cardId !in v.sold
  {
    if cardId in v.sold || OnAnyEmo(v.shop.board, cardId) || v.coin < EMO_BUY_COIN || v.line >= |catalog| then None
    else
      var card :- FindCard(catalog[v.line], cardId);
      var base :- Find(bases, card.baseId);
      if base.grade > v.grade then None else Some(base)
  }

  function BuyCard(v: Visit, cardId: U16, index: nat, catalog: seq<seq<Card>>, bases: Bases): Option<Visit> {
    var base :- Offered(v, cardId, catalog, bases);
    var s :- AddEmo(Begin(v.shop), [cardId], base.id, false, index, bases);
    Some(Collect(v.(coin := v.coin - EMO_BUY_COIN), s))
  }

  function SellCard(v: Visit, index: nat, bases: Bases): Option<Visit> {
    if index >= |v.shop.board| then None
    else
      var s :- SellEmo(Begin(v.shop), index, bases);
      Some(Collect(v.(sold := v.sold + v.shop.board[index].cards), s))
  }

  function NextLine(v: Visit, turn: U8): Option<Visit> {
    var price := if turn > 1 || v.lineCounter >= MULLIGAN_COUNT then NEXT_CATALOG_LINE_COIN else 0;
    if v.coin < price || v.lineCounter == U8_MAX || v.line == U8_MAX then None
    else Some(v.(coin := v.coin - price, lineCounter := v.lineCounter + 1, line := v.line + 1))
  }

  function UpgradeGrade(v: Visit): Option<Visit> {
    var price :- v.upgradeCoin;
    if v.coin < price || v.grade >= LAST_GRADE then None
    else Some(v.(coin := v.coin - price, grade := v.grade + 1, upgradeCoin := UpgradeCoin(v.grade + 1)))
  }

  function Apply1(v: Visit, op: Op, catalog: seq<seq<Card>>, turn: U8, bases: Bases): Option<Visit> {
    match op
    case Buy(cardId, index) => BuyCard(v, cardId, index, catalog, bases)
    case Sell(index) => SellCard(v, index, bases)
    case Mov(indexes) =>
      var board :- Moves.Mov(v.shop.board, indexes);
      Some(v.(shop := v.shop.(board := board)))
    case NextCatalogLine => NextLine(v, turn)
    case Upgrade => UpgradeGrade(v)
  }

  /** The operations from left to right; the first that fails rejects them all. */
  function ApplyAll(v: Visit, ops: seq<Op>, catalog: seq<seq<Card>>, turn: U8, bases: Bases): Option<Visit>
    decreases |ops|
  {
    if ops == [] then Some(v)
    else
      var v' :- ApplyAll(v, ops[..|ops| - 1], catalog, turn, bases);
      Apply1(v', ops[|ops| - 1], catalog, turn, bases)
  }

  function Enter(board: Board, grade: U8, upgradeCoin: Option<U8>, tape: Tape, turn: U8, bases: Bases): Option<Visit> {
    var s :- StartShop(FromBoard(board, 0, tape), bases);
    Some(Visit(s, Sat8(InitialCoin(turn) + Sat8(s.earned)), 0, 0, [], grade, upgradeCoin))
  }

  /** Two generators are seeded in a visit: one for the catalog, one for the abilities at its start. */
  datatype Seed = Seed(catalog: Tape, shop: Tape)

  function Verify(board: Board, grade: U8, upgradeCoin: Option<U8>, ops: seq<Op>, pool: seq<Card>, seed: Seed, turn: U8,
                  bases: Bases): Option<Visit>
  {
    if |ops| >= MAX_OPS then None
    else
      var catalog :- GetCatalog(pool, board, seed.catalog);
      var v :- Enter(board, grade, upgradeCoin, seed.shop, turn, bases);
      ApplyAll(v, ops, catalog, turn, bases)
  }
}
