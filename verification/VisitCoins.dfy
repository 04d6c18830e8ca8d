/** What a visit to the shop costs, told in coins. */
module VisitCoins {
  import opened Types
  import opened Shop
  import opened ShopRun
  import opened ShopReactions
  import opened ShopRenaming
  import opened PlayerOps
  import Catalog

  function Max(a: int, b: int): int { if a < b then b else a }

  // ----- prices -----

  /** The price of the next grade for one who has just reached this one. */
  function PriceAfter(grade: nat): nat {
    match grade
    case 2 => 5
    case 3 => 7
    case 4 => 8
    case _ => 9
  }

  /** What the upgrade number `m` of a visit costs; the first has the price that the visit began with. */
  function UpgradePrice(grade: nat, first: nat, m: nat): nat { if m == 0 then first else PriceAfter(grade + m) }

  function UpgradesCost(grade: nat, first: nat, count: nat): nat {
    if count == 0 then 0 else UpgradesCost(grade, first, count - 1) + UpgradePrice(grade, first, count - 1)
  }

  /** Lines cost one coin each, but the first two of the first turn. */
  function LinesCost(turn: nat, lines: nat): nat { if turn > 1 then lines else Max(lines - 2, 0) }

  function Price(v: Visit, op: Op, turn: nat): nat {
    match op
    case Buy(_, _) => 3
    case Sell(_) => 0
    case Mov(_) => 0
    case NextCatalogLine => if turn > 1 || v.lineCounter >= 2 then 1 else 0
    case Upgrade => if v.upgradeCoin.Some? then v.upgradeCoin.value else 0
  }

  /** What an operation brings in, by the abilities it triggers and by a sale. */
  function Gain(v: Visit, op: Op): nat { if op.Buy? || op.Sell? then Min(255, v.shop.earned) else 0 }

  // ----- one operation -----

  lemma EarnedGrows(ts: seq<Task>, s: State, bases: Bases)
    ensures var r := Run(ts, s, bases); r.Some? ==> r.value.earned >= s.earned
  {
    var inv := (s1: State) => s1.earned >= s.earned;
    forall s1, t | inv(s1) && Step(s1, t, bases).Some? ensures inv(Step(s1, t, bases).value.0) {
      StepEarns(s1, t, bases);
    }
    RunKeeps(inv, ts, s, bases);
  }

  lemma StepEarns(s: State, t: Task, bases: Bases)
    ensures var r := Step(s, t, bases); r.Some? ==> r.value.0.earned >= s.earned
  {
    hide Spread;
    hide SpreadAction;
    hide ArrivalTasks;
    hide MenagerieIds;
    hide BuildTriple;
    hide CountOthers;
  }

  lemma SaleEarns(v: Visit, index: nat, bases: Bases)
    ensures var r := SellCard(v, index, bases); r.Some? ==> r.value.shop.earned >= 1
  {
    hide SellEmo;
    hide Run;
    if index < |v.shop.board| {
      var ts, s' := SaleActs(Begin(v.shop), index, bases);
      EarnedGrows(ts, s', bases);
    }
  }

  /** An accepted operation could be paid; its price is taken, what it brings in is added, and no purse holds more than 255. */
  lemma Costs(v: Visit, op: Op, catalog: seq<seq<Card>>, turn: U8, bases: Bases)
    ensures var r := Apply1(v, op, catalog, turn, bases);
            r.Some? ==> && v.coin >= Price(v, op, turn)
                        && r.value.coin == Min(255, v.coin - Price(v, op, turn) + Gain(r.value, op))
                        && (op.Sell? ==> Gain(r.value, op) >= 1)
                        && r.value.lineCounter == v.lineCounter + (if op.NextCatalogLine? then 1 else 0)
                        && r.value.line == v.line + (if op.NextCatalogLine? then 1 else 0)
                        && r.value.grade == v.grade + (if op.Upgrade? then 1 else 0)
                        && (!op.Upgrade? ==> r.value.upgradeCoin == v.upgradeCoin)
                        && (op.Upgrade? && v.grade >= 1 ==> r.value.upgradeCoin == Some(PriceAfter(r.value.grade)))
    ensures op.NextCatalogLine? ==>
              (Apply1(v, op, catalog, turn, bases).Some?
               <==> v.coin >= (if turn > 1 || v.lineCounter >= 2 then 1 else 0) && v.lineCounter < 255 && v.line < 255)
    ensures op.Upgrade? ==>
              (Apply1(v, op, catalog, turn, bases).Some? <==> v.upgradeCoin.Some? && v.coin >= v.upgradeCoin.value && v.grade < 6)
  {
    hide AddEmo;
    hide SellEmo;
    hide Offered;
    hide Begin;
    if op.Sell? {
      SaleEarns(v, op.soldIndex, bases);
    } else if op.Buy? {
      BuyCosts(v, op.cardId, op.index, catalog, bases);
    }
  }

  lemma BuyCosts(v: Visit, cardId: U16, index: nat, catalog: seq<seq<Card>>, bases: Bases)
    ensures var r := BuyCard(v, cardId, index, catalog, bases);
            r.Some? ==> v.coin >= 3 && r.value.coin == Min(255, v.coin - 3 + Min(255, r.value.shop.earned))
  {
    hide AddEmo;
  }

  // ----- a list of operations -----

  ghost function Buys(ops: seq<Op>): nat { |set i: nat | i < |ops| && ops[i].Buy?| }
  ghost function Lines(ops: seq<Op>): nat { |set i: nat | i < |ops| && ops[i].NextCatalogLine?| }
  ghost function Upgrades(ops: seq<Op>): nat { |set i: nat | i < |ops| && ops[i].Upgrade?| }

  lemma OneMoreBuy(ops: seq<Op>, op: Op)
    ensures Buys(ops + [op]) == Buys(ops) + if op.Buy? then 1 else 0
  {
    var all, n := ops + [op], |ops|;
    assert (set i: nat | i < |all| && all[i].Buy?) == (set i: nat | i < n && ops[i].Buy?) + if op.Buy? then {n} else {};
  }

  lemma OneMoreLine(ops: seq<Op>, op: Op)
    ensures Lines(ops + [op]) == Lines(ops) + if op.NextCatalogLine? then 1 else 0
  {
    var all, n := ops + [op], |ops|;
    assert (set i: nat | i < |all| && all[i].NextCatalogLine?)
        == (set i: nat | i < n && ops[i].NextCatalogLine?) + if op.NextCatalogLine? then {n} else {};
  }

  lemma OneMoreUpgrade(ops: seq<Op>, op: Op)
    ensures Upgrades(ops + [op]) == Upgrades(ops) + if op.Upgrade? then 1 else 0
  {
    var all, n := ops + [op], |ops|;
    assert (set i: nat | i < |all| && all[i].Upgrade?) == (set i: nat | i < n && ops[i].Upgrade?) + if op.Upgrade? then {n} else {};
  }

  /** What the operations brought in, one after the other. */
  function Gains(v: Visit, ops: seq<Op>, catalog: seq<seq<Card>>, turn: U8, bases: Bases): nat
    decreases |ops|
  {
    if ops == [] then 0
    else
      var r := ApplyAll(v, ops, catalog, turn, bases);
      Gains(v, ops[..|ops| - 1], catalog, turn, bases) + if r.Some? then Gain(r.value, ops[|ops| - 1]) else 0
  }

  /** Three coins a purchase, the lines and the upgrades. */
  ghost function Spent(ops: seq<Op>, turn: nat, grade: nat, price: nat): nat {
    3 * Buys(ops) + LinesCost(turn, Lines(ops)) + UpgradesCost(grade, price, Upgrades(ops))
  }

  ghost predicate Balanced(v: Visit, v': Visit, ops: seq<Op>, turn: nat, gains: nat) {
    var price := if v.upgradeCoin.Some? then v.upgradeCoin.value else 0;
    && v'.lineCounter == v.lineCounter + Lines(ops) && v'.line == v.line + Lines(ops) && v'.grade == v.grade + Upgrades(ops)
    && v'.upgradeCoin == (if Upgrades(ops) == 0 then v.upgradeCoin else Some(PriceAfter(v'.grade)))
    && v'.coin + Spent(ops, turn, v.grade, price) <= v.coin + gains
    && (v.coin + gains <= 255 ==> v'.coin + Spent(ops, turn, v.grade, price) == v.coin + gains)
  }

  lemma OneMoreBalanced(v: Visit, v1: Visit, v2: Visit, ops: seq<Op>, op: Op, gains: nat, catalog: seq<seq<Card>>, turn: U8, bases: Bases)
    requires v.grade >= 1 && v.lineCounter == 0 && Balanced(v, v1, ops, turn, gains) && Apply1(v1, op, catalog, turn, bases) == Some(v2)
    ensures Balanced(v, v2, ops + [op], turn, gains + Gain(v2, op))
  {
    hide Apply1;
    hide Buys;
    hide Lines;
    hide Upgrades;
    hide PriceAfter;
    hide Gain;
    OneMoreBuy(ops, op);
    OneMoreLine(ops, op);
    OneMoreUpgrade(ops, op);
    Costs(v1, op, catalog, turn, bases);
    var price := if v.upgradeCoin.Some? then v.upgradeCoin.value else 0;
    assert op.Upgrade? ==> v1.upgradeCoin.value == UpgradePrice(v.grade, price, Upgrades(ops));
    assert Spent(ops + [op], turn, v.grade, price) == Spent(ops, turn, v.grade, price) + Price(v1, op, turn);
  }

  /** Coins are never made or lost but by the cap: what is left and what was spent is what was there and what came in. */
  lemma {:induction false} Ledger(v: Visit, ops: seq<Op>, catalog: seq<seq<Card>>, turn: U8, bases: Bases)
    requires v.grade >= 1 && v.lineCounter == 0
    ensures var r := ApplyAll(v, ops, catalog, turn, bases);
            r.Some? ==> Balanced(v, r.value, ops, turn, Gains(v, ops, catalog, turn, bases))
    decreases |ops|
  {
    hide Apply1;
    hide Gain;
    if ops == [] {
      assert Buys(ops) == 0 && Lines(ops) == 0 && Upgrades(ops) == 0;
    } else {
      hide Balanced;
      var before, op := ops[..|ops| - 1], ops[|ops| - 1];
      Ledger(v, before, catalog, turn, bases);
      assert before + [op] == ops;
      var r := ApplyAll(v, ops, catalog, turn, bases);
      if r.Some? {
        var v1 := ApplyAll(v, before, catalog, turn, bases).value;
        OneMoreBalanced(v, v1, r.value, before, op, Gains(v, before, catalog, turn, bases), catalog, turn, bases);
      }
    }
  }

  /** A visit begins with two coins more than the turn, eight at most, and what the abilities at its start bring in. */
  lemma VisitLedger(board: Board, grade: U8, upgradeCoin: Option<U8>, ops: seq<Op>, pool: seq<Card>, seed: Seed, turn: U8, bases: Bases)
    requires grade >= 1
    ensures var r, start := Verify(board, grade, upgradeCoin, ops, pool, seed, turn, bases),
                            StartShop(FromBoard(board, 0, seed.shop), bases);
            var catalog, v := Catalog.GetCatalog(pool, board, seed.catalog), Enter(board, grade, upgradeCoin, seed.shop, turn, bases);
            r.Some? ==>
              && |ops| < 200 && catalog.Some? && v.Some? && start.Some?
              && v.value.coin == Min(255, Min(turn + 2, 8) + Min(255, start.value.earned))
              && var coins := v.value.coin + Gains(v.value, ops, catalog.value, turn, bases);
                 var spent := Spent(ops, turn, grade, if upgradeCoin.Some? then upgradeCoin.value else 0);
                 && r.value.coin + spent <= coins && (coins <= 255 ==> r.value.coin + spent == coins)
                 && r.value.grade == grade + Upgrades(ops)
                 && r.value.upgradeCoin == if Upgrades(ops) == 0 then upgradeCoin else Some(PriceAfter(r.value.grade))
  {
    hide ApplyAll;
    hide StartShop;
    hide Catalog.GetCatalog;
    hide Spent;
    hide Gains;
    var catalog, v := Catalog.GetCatalog(pool, board, seed.catalog), Enter(board, grade, upgradeCoin, seed.shop, turn, bases);
    if |ops| < MAX_OPS && catalog.Some? && v.Some? {
      Ledger(v.value, ops, catalog.value, turn, bases);
    }
  }

  // ----- the prices on the screen -----

  /** On the screen the price after an upgrade is that of the grade to come, and there is none at grade six; in the contract it is
      that of the grade just reached. */
  function ScreenPriceAfter(grade: nat): Option<nat> {
    match grade
    case 2 => Some(7)
    case 3 => Some(8)
    case 4 => Some(9)
    case 5 => Some(9)
    case _ => None
  }

  function ScreenUpgradesCost(grade: nat, first: nat, count: nat): nat {
    if count == 0 then 0
    else
      var last := ScreenPriceAfter(grade + count - 1);
      ScreenUpgradesCost(grade, first, count - 1) + if count == 1 then first else if last.Some? then last.value else 0
  }

  /** So the contract never charges more than the screen for the upgrades of a visit, and less for a second one in a visit that
      begins below grade 4. */
  lemma {:induction false} ScreenPaysMore(grade: nat, first: nat, count: nat)
    requires 1 <= grade && grade + count <= 6
    ensures UpgradesCost(grade, first, count) <= ScreenUpgradesCost(grade, first, count)
    ensures count >= 2 && grade <= 3 ==> UpgradesCost(grade, first, count) < ScreenUpgradesCost(grade, first, count)
  {
    if count > 0 {
      ScreenPaysMore(grade, first, count - 1);
    }
  }
}
