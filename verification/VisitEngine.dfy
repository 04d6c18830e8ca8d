/** A visit to the shop as the program runs it: a loop over the submitted operations that changes the board,
    the coins and the grade in place. */
module VisitEngine {
  import opened Types
  import opened ShopLog
  import opened PlayerOps
  import opened ShopEngine
  import Catalog
  import ShopRun

  class Visitor {
    const shop: ShopBoard
    var coin: U8
    var line: U8
    var lineCounter: U8
    var sold: seq<U16>
    var grade: U8
    var upgradeCoin: Option<U8>

    ghost function View(): Visit
      reads this, shop
    {
      Visit(shop.View(), coin, line, lineCounter, sold, grade, upgradeCoin)
    }

    constructor (shop: ShopBoard, coin: U8, grade: U8, upgradeCoin: Option<U8>)
      ensures this.shop == shop && View() == Visit(shop.View(), coin, 0, 0, [], grade, upgradeCoin)
    {
      this.shop, this.coin, line, lineCounter, sold, this.grade, this.upgradeCoin := shop, coin, 0, 0, [], grade, upgradeCoin;
    }

    /** No log is kept while operations are verified, and only the start of the shop has a generator. */
    method Reset()
      modifies shop
      ensures shop.View() == Begin(old(shop.View()))
    {
      shop.logs := [];
      shop.tape := [];
      shop.earned := 0;
    }

    method IsOnBoard(cardId: U16) returns (found: bool)
      ensures found == OnAnyEmo(shop.emos, cardId)
    {
      for i := 0 to |shop.emos|
        invariant forall e :: e in shop.emos[..i] ==> cardId !in e.cards
      {
        if cardId in shop.emos[i].cards {
          return true;
        }
      }
      assert shop.emos[..|shop.emos|] == shop.emos;
      return false;
    }

    method Buy(cardId: U16, index: nat, catalog: seq<seq<Card>>, bases: Bases) returns (ok: bool)
      modifies this, shop
      ensures BuyCard(old(View()), cardId, index, catalog, bases) == if ok then Some(View()) else None
    {
      hide ShopRun.AddEmo;
      if cardId in sold {
        return false;
      }
      var isOnBoard := IsOnBoard(cardId);
      if isOnBoard || coin < EMO_BUY_COIN || line >= |catalog| {
        return false;
      }
      var card := FindCard(catalog[line], cardId);
      if card.None? || card.value.baseId !in bases {
        return false;
      }
      var base := bases[card.value.baseId];
      if base.grade > grade {
        return false;
      }
      coin := coin - EMO_BUY_COIN;
      Reset();
      var gotten;
      ok, gotten := shop.AddEmo([cardId], base.id, false, index, bases);
      coin := Sat8(coin + gotten);
    }

    method Sell(index: nat, bases: Bases) returns (ok: bool)
      modifies this, shop
      ensures SellCard(old(View()), index, bases) == if ok then Some(View()) else None
    {
      hide ShopRun.SellEmo;
      if index >= |shop.emos| {
        return false;
      }
      sold := sold + shop.emos[index].cards;
      Reset();
      var gotten;
      ok, gotten := shop.SellEmo(index, bases);
      coin := Sat8(coin + gotten);
    }

    method NextCatalogLine(turn: U8) returns (ok: bool)
      modifies this
      ensures NextLine(old(View()), turn) == if ok then Some(View()) else None
    {
      if turn > 1 || lineCounter >= MULLIGAN_COUNT {
        if coin < NEXT_CATALOG_LINE_COIN {
          return false;
        }
        coin := coin - NEXT_CATALOG_LINE_COIN;
      }
      if lineCounter == U8_MAX || line == U8_MAX {
        return false;
      }
      lineCounter := lineCounter + 1;
      line := line + 1;
      return true;
    }

    method Upgrade() returns (ok: bool)
      modifies this
      ensures UpgradeGrade(old(View())) == if ok then Some(View()) else None
    {
      if upgradeCoin.None? || coin < upgradeCoin.value {
        return false;
      }
      coin := coin - upgradeCoin.value;
      if grade >= LAST_GRADE {
        return false;
      }
      grade := grade + 1;
      upgradeCoin := UpgradeCoin(grade);
      return true;
    }

    method Do(op: Op, catalog: seq<seq<Card>>, turn: U8, bases: Bases) returns (ok: bool)
      modifies this, shop
      ensures Apply1(old(View()), op, catalog, turn, bases) == if ok then Some(View()) else None
    {
      hide BuyCard;
      hide SellCard;
      hide NextLine;
      hide UpgradeGrade;
      match op {
        case Buy(cardId, index) => ok := Buy(cardId, index, catalog, bases);
        case Sell(index) => ok := Sell(index, bases);
        case Mov(indexes) => ok := shop.Mov(indexes);
        case NextCatalogLine => ok := NextCatalogLine(turn);
        case Upgrade => ok := Upgrade();
      }
    }
  }

  lemma {:induction false} RejectedPrefix(v: Visit, ops: seq<Op>, i: nat, catalog: seq<seq<Card>>, turn: U8, bases: Bases)
    requires i <= |ops| && ApplyAll(v, ops[..i], catalog, turn, bases).None?
    ensures ApplyAll(v, ops, catalog, turn, bases).None?
    decreases |ops|
  {
    hide Apply1;
    if i < |ops| {
      assert ops[..|ops| - 1][..i] == ops[..i];
      RejectedPrefix(v, ops[..|ops| - 1], i, catalog, turn, bases);
    } else {
      assert ops[..i] == ops;
    }
  }

  /** The operations are accepted exactly when the specification accepts them, with the same board, grade and price. */
  method VerifyPlayerOperations(board: Board, grade: U8, upgradeCoin: Option<U8>, ops: seq<Op>, pool: seq<Card>, seed: PlayerOps.Seed,
                                turn: U8, bases: Bases)
    returns (r: Option<(Board, U8, Option<U8>)>)
    ensures var v := Verify(board, grade, upgradeCoin, ops, pool, seed, turn, bases);
            r == if v.None? then None else Some((Strip(v.value.shop.board), v.value.grade, v.value.upgradeCoin))
  {
    hide ShopRun.StartShop;
    hide Apply1;
    if |ops| >= MAX_OPS {
      return None;
    }
    var coin := InitialCoin(turn);
    var catalog := Catalog.BuildCatalog(pool, board, seed.catalog);
    if catalog.None? {
      return None;
    }
    var shop := new ShopBoard.FromBoard(board, 0, seed.shop);
    var ok: bool, gotten: U8;
    ok, gotten := shop.StartShop(bases);
    if !ok {
      return None;
    }
    var visitor := new Visitor(shop, Sat8(coin + gotten), grade, upgradeCoin);
    ghost var v0 := visitor.View();
    assert Enter(board, grade, upgradeCoin, seed.shop, turn, bases) == Some(v0);
    assert ops[..0] == [];
    for i := 0 to |ops|
      invariant ApplyAll(v0, ops[..i], catalog.value, turn, bases) == Some(visitor.View())
    {
      assert ops[..i + 1][..i] == ops[..i];
      ok := visitor.Do(ops[i], catalog.value, turn, bases);
      if !ok {
        RejectedPrefix(v0, ops, i + 1, catalog.value, turn, bases);
        return None;
      }
    }
    assert ops[..|ops|] == ops;
    return Some((Strip(shop.emos), visitor.grade, visitor.upgradeCoin));
  }
}
