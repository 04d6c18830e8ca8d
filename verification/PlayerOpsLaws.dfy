/** What a whole visit keeps, whatever operations are accepted: cards, stats, copies, ids. */
module PlayerOpsLaws {
  import opened Types
  import opened Rng
  import opened Shop
  import opened ShopRun
  import opened ShopLaws
  import ShopPlaces
  import ShopReactions
  import opened ShopLog
  import opened ShopRenaming
  import opened Moves
  import opened Catalog
  import opened PlayerOps

  ghost predicate NoRepeat(cards: multiset<U16>) { forall c: U16 :: cards[c] <= 1 }

  /** What every shop board between two operations satisfies. */
  ghost predicate Good(s: State, bases: Bases, pool: set<Card>) {
    && |s.board| <= BOARD_EMO_MAX_COUNT
    && Distinct(s)
    && Sound(s, bases, pool)
    && (forall baseId: U16 :: CopyCount(s.board, baseId) <= 2)
  }

  /** The same of a board at rest; the ids it is given do not matter. */
  ghost predicate GoodBoard(board: Board, bases: Bases, pool: set<Card>) {
    Good(FromBoard(board, 0, []), bases, pool)
  }

  /** Cards the player holds or has sold. */
  function Ledger(v: Visit): multiset<U16> { Cards(v.shop.board) + multiset(v.sold) }

  function Bought(ops: seq<Op>): multiset<U16>
    decreases |ops|
  {
    if ops == [] then multiset{}
    else Bought(ops[..|ops| - 1]) + (match ops[|ops| - 1] case Buy(id, _) => multiset{id} case _ => multiset{})
  }

  // ----- one operation of the engine -----

  lemma RunKeepsGood(ts: seq<Task>, s: State, bases: Bases, pool: set<Card>)
    requires WellFormed(bases) && |s.board| <= 7 && Distinct(s) && Sound(s, bases, pool)
    ensures var r := Run(ts, s, bases);
            r.Some? ==> && |r.value.board| <= 7 && Distinct(r.value) && Sound(r.value, bases, pool)
                        && Cards(r.value.board) == Cards(s.board)
  {
    RunKeepsDistinct(ts, s, bases);
    RunKeepsSound(ts, s, bases, pool);
    RunKeepsCards(ts, s, bases);
    PotentialInRange(s.board);
    if Run(ts, s, bases).Some? {
      PotentialInRange(Run(ts, s, bases).value.board);
    }
  }

  lemma InsertCardGood(s: State, cardId: U16, baseId: U16, index: nat, bases: Bases, pool: set<Card>)
    requires WellFormed(bases) && Good(s, bases, pool) && Card(cardId, baseId) in pool
    ensures var r := InsertNew(s, [cardId], baseId, false, index, bases);
            r.Some? ==> && |r.value.0.board| <= 7 && Distinct(r.value.0) && Sound(r.value.0, bases, pool)
                        && Cards(r.value.0.board) == Cards(s.board) + multiset{cardId}
  {
    var r := InsertNew(s, [cardId], baseId, false, index, bases);
    if r.Some? {
      var base := bases[baseId];
      var e := ShopEmo(s.next, [cardId], base.id, BuildAttributes(base, false));
      InsertDistinct(s.board, e, index);
      CardsInsert(s.board, e, index);
      assert AboveFloor(e, bases) && FromPool(e, pool);
      assert forall x :: x in r.value.0.board ==> x == e || x in s.board;
    }
  }

  lemma AddKeepsGood(s: State, cardId: U16, baseId: U16, index: nat, bases: Bases, pool: set<Card>)
    requires WellFormed(bases) && Good(s, bases, pool) && Card(cardId, baseId) in pool
    ensures var r := AddEmo(s, [cardId], baseId, false, index, bases);
            r.Some? ==> && Good(r.value, bases, pool) && Cards(r.value.board) == Cards(s.board) + multiset{cardId}
                        && s.next <= r.value.next <= s.next + 32
  {
    var added := AddEmo(s, [cardId], baseId, false, index, bases);
    if added.Some? {
      AtMost32Emos(s, bases, [cardId], baseId, false, index);
      var r := InsertNew(s, [cardId], baseId, false, index, bases);
      InsertCardGood(s, cardId, baseId, index, bases, pool);
      RunKeepsGood(r.value.1, r.value.0, bases, pool);
      forall b: U16 ensures CopyCount(added.value.board, b) <= 2 {
        AddEmoCopies(s, bases, [cardId], baseId, false, index, b);
      }
    }
  }

  lemma RemoveKeepsGood(s: State, index: nat, bases: Bases, pool: set<Card>)
    requires Good(s, bases, pool) && index < |s.board|
    ensures var rest := RemoveAt(s, index);
            && |rest.board| <= 7 && Distinct(rest) && Sound(rest, bases, pool)
            && Cards(rest.board) + multiset(s.board[index].cards) == Cards(s.board)
  {
    CardsRemove(s.board, index);
    assert forall e :: e in RemoveAt(s, index).board ==> e in s.board;
  }

  lemma SellKeepsGood(s: State, index: nat, bases: Bases, pool: set<Card>)
    requires WellFormed(bases) && Good(s, bases, pool)
    ensures var r := SellEmo(s, index, bases);
            r.Some? ==> && Good(r.value, bases, pool)
                        && Cards(r.value.board) + multiset(s.board[index].cards) == Cards(s.board)
                        && s.next <= r.value.next <= s.next + 32
  {
    var sold := SellEmo(s, index, bases);
    if sold.Some? {
      AtMost32Emos(s, bases, [], 0, false, index);
      var rest := RemoveAt(s, index);
      RemoveKeepsGood(s, index, bases, pool);
      RunKeepsGood(SelfTasks(PeriOf(s.board[index].attr.abilities), OnSell, Removed(s.board[index], index)), rest, bases, pool);
      forall b: U16 ensures CopyCount(sold.value.board, b) <= 2 {
        SellEmoCopies(s, bases, index, b);
      }
    }
  }

  lemma StartKeepsGood(s: State, bases: Bases, pool: set<Card>)
    requires WellFormed(bases) && Good(s, bases, pool)
    ensures var r := StartShop(s, bases);
            r.Some? ==> && Good(r.value, bases, pool) && Cards(r.value.board) == Cards(s.board)
                        && s.next <= r.value.next <= s.next + 32
  {
    AtMost32Emos(s, bases, [], 0, false, 0);
    RunKeepsGood(PreTasks(BoardPres(s.board)), s, bases, pool);
    forall b: U16 ensures StartShop(s, bases).Some? ==> CopyCount(StartShop(s, bases).value.board, b) <= 2 {
      RunCopies(PreTasks(BoardPres(s.board)), s, bases, b);
    }
  }

  // ----- rearranging -----

  lemma RestSame(a: seq<ShopEmo>, b: seq<ShopEmo>, i: nat)
    requires multiset(a) == multiset(b) && a != [] && i < |b| && b[i] == a[0]
    ensures multiset(a[1..]) == multiset(b[..i] + b[i + 1..])
  {
    TakeOut(b, i);
    assert a == [a[0]] + a[1..];
    assert multiset(a[1..]) == multiset(a) - multiset{a[0]};
  }

  lemma WithoutOne(board: seq<ShopEmo>, i: nat, unit: ShopEmo -> nat)
    requires i < |board|
    ensures var rest := board[..i] + board[i + 1..];
            Cards(board) == Cards(rest) + multiset(board[i].cards) && Sum(unit, board) == Sum(unit, rest) + unit(board[i])
  {
    hide Sum;
    hide Cards;
    var rest := board[..i] + board[i + 1..];
    CardsRemove(board, i);
    SumInsert(unit, rest, board[i], i);
    assert rest[..i] + [board[i]] + rest[i..] == board;
  }

  lemma {:induction false} RearrangedSame(a: seq<ShopEmo>, b: seq<ShopEmo>, unit: ShopEmo -> nat)
    requires multiset(a) == multiset(b)
    ensures Cards(a) == Cards(b) && Sum(unit, a) == Sum(unit, b)
    decreases |a|
  {
    hide Sum;
    hide Cards;
    if a != [] {
      assert a[0] in multiset(a) && a[0] in multiset(b);
      var i :| 0 <= i < |b| && b[i] == a[0];
      RestSame(a, b, i);
      RearrangedSame(a[1..], b[..i] + b[i + 1..], unit);
      WithoutOne(a, 0, unit);
      assert a[..0] + a[0 + 1..] == a[1..];
      WithoutOne(b, i, unit);
    } else {
      assert |multiset(b)| == 0;
    }
  }

  lemma {:induction false} MovFromDistinct(s: seq<ShopEmo>, current: seq<nat>, wanted: seq<nat>, i: nat)
    requires |s| == |current| == |wanted| && i <= |wanted| && DistinctIds(s)
    ensures var r := MovFrom(s, current, wanted, i); r.Some? ==> DistinctIds(r.value)
    decreases |wanted| - i
  {
    if i < |wanted| && wanted[i] in current {
      var j := IndexOf(current, wanted[i]).value;
      MovFromDistinct(Swap(s, i, j), Swap(current, i, j), wanted, i + 1);
    }
  }

  lemma MovKeepsGood(s: State, wanted: seq<nat>, bases: Bases, pool: set<Card>)
    requires Good(s, bases, pool)
    ensures var r := Moves.Mov(s.board, wanted);
            r.Some? ==> Good(s.(board := r.value), bases, pool) && Cards(r.value) == Cards(s.board)
  {
    MovRearranges(s.board, wanted);
    var r := Moves.Mov(s.board, wanted);
    if r.Some? {
      MovFromDistinct(s.board, Identity(|s.board|), wanted, 0);
      forall b: U16 ensures CopyCount(r.value, b) <= 2 {
        RearrangedSame(r.value, s.board, CopyUnit(b));
        assert CopyCount(s.board, b) <= 2;
      }
      RearrangedSame(r.value, s.board, TripleUnit);
      forall e | e in r.value ensures e in s.board {
        assert multiset(r.value)[e] > 0;
        assert multiset(s.board)[e] > 0;
      }
    }
  }

  // ----- one player operation -----

  lemma NotHeld(v: Visit, cardId: U16)
    requires cardId !in v.sold && !OnAnyEmo(v.shop.board, cardId)
    ensures Ledger(v)[cardId] == 0
  {
    CardSeqMember(v.shop.board, cardId);
    assert cardId !in multiset(v.sold) && cardId !in multiset(CardSeq(v.shop.board));
  }

  ghost predicate LegalCatalog(catalog: seq<seq<Card>>, pool: set<Card>) {
    forall i, c :: 0 <= i < |catalog| && c in catalog[i] ==> c in pool
  }

  lemma {:induction false} FindCardFinds(line: seq<Card>, card: Card)
    requires UniqueIds(line) && card in line
    ensures FindCard(line, card.id) == Some(card)
  {
    if line[0].id != card.id {
      FindCardFinds(line[1..], card);
    } else {
      assert line[0] in line;
    }
  }

  lemma {:induction false} FindCardMisses(line: seq<Card>, id: U16)
    requires forall c :: c in line ==> c.id != id
    ensures FindCard(line, id).None?
  {
    if line != [] {
      assert line[0] in line;
      FindCardMisses(line[1..], id);
    }
  }

  /** A card may be bought exactly when it lies on the current line, the player has three coins, has not sold it and does not
      have it on the board, and its base is known and not above the player's grade. */
  lemma OfferedIff(v: Visit, cardId: U16, catalog: seq<seq<Card>>, bases: Bases)
    requires forall line :: line in catalog ==> UniqueIds(line)
    ensures Offered(v, cardId, catalog, bases).Some? <==>
              && v.coin >= 3 && cardId !in v.sold && (forall e :: e in v.shop.board ==> cardId !in e.cards)
              && v.line < |catalog|
              && exists card :: card in catalog[v.line] && card.id == cardId && card.baseId in bases
                                && bases[card.baseId].grade <= v.grade
    ensures forall card :: v.line < |catalog| && card in catalog[v.line] && card.id == cardId
                           && Offered(v, cardId, catalog, bases).Some? ==>
                             card.baseId in bases && Offered(v, cardId, catalog, bases).value == bases[card.baseId]
  {
    if v.line < |catalog| {
      var line := catalog[v.line];
      if card :| card in line && card.id == cardId {
        FindCardFinds(line, card);
      } else {
        FindCardMisses(line, cardId);
      }
    }
  }

  lemma OfferedIsNew(v: Visit, cardId: U16, catalog: seq<seq<Card>>, bases: Bases, pool: set<Card>)
    requires WellFormed(bases) && LegalCatalog(catalog, pool) && Offered(v, cardId, catalog, bases).Some?
    ensures Card(cardId, Offered(v, cardId, catalog, bases).value.id) in pool
    ensures Ledger(v)[cardId] == 0
  {
    NotHeld(v, cardId);
  }

  lemma BuyKeeps(v: Visit, cardId: U16, index: nat, catalog: seq<seq<Card>>, bases: Bases, pool: set<Card>)
    requires WellFormed(bases) && Good(v.shop, bases, pool) && LegalCatalog(catalog, pool) && NoRepeat(Ledger(v))
    ensures var r := BuyCard(v, cardId, index, catalog, bases);
            r.Some? ==> && Good(r.value.shop, bases, pool) && NoRepeat(Ledger(r.value))
                        && Ledger(r.value) == Ledger(v) + multiset{cardId}
                        && v.shop.next <= r.value.shop.next <= v.shop.next + 32
  {
    var r := BuyCard(v, cardId, index, catalog, bases);
    if r.Some? {
      var base := Offered(v, cardId, catalog, bases).value;
      OfferedIsNew(v, cardId, catalog, bases, pool);
      AddKeepsGood(Begin(v.shop), cardId, base.id, index, bases, pool);
      assert Ledger(r.value) == Ledger(v) + multiset{cardId};
    }
  }

  lemma SellKeeps(v: Visit, index: nat, bases: Bases, pool: set<Card>)
    requires WellFormed(bases) && Good(v.shop, bases, pool)
    ensures var r := SellCard(v, index, bases);
            r.Some? ==> && Good(r.value.shop, bases, pool) && Ledger(r.value) == Ledger(v)
                        && v.shop.next <= r.value.shop.next <= v.shop.next + 32
  {
    var r := SellCard(v, index, bases);
    if r.Some? {
      SellKeepsGood(Begin(v.shop), index, bases, pool);
    }
  }

  /** An accepted operation keeps the board good, moves cards only between board and sold list,
      and brings in a card only by buying one the player never held. */
  lemma Apply1Keeps(v: Visit, op: Op, catalog: seq<seq<Card>>, turn: U8, bases: Bases, pool: set<Card>)
    requires WellFormed(bases) && Good(v.shop, bases, pool) && LegalCatalog(catalog, pool) && NoRepeat(Ledger(v))
    ensures var r := Apply1(v, op, catalog, turn, bases);
            r.Some? ==> && Good(r.value.shop, bases, pool) && NoRepeat(Ledger(r.value))
                        && Ledger(r.value) == Ledger(v) + (match op case Buy(id, _) => multiset{id} case _ => multiset{})
                        && v.shop.next <= r.value.shop.next <= v.shop.next + 32
  {
    match op
    case Buy(cardId, index) => BuyKeeps(v, cardId, index, catalog, bases, pool);
    case Sell(index) => SellKeeps(v, index, bases, pool);
    case Mov(indexes) => MovKeepsGood(v.shop, indexes, bases, pool);
    case NextCatalogLine =>
    case Upgrade =>
  }

  lemma {:induction false} ApplyAllKeeps(v: Visit, ops: seq<Op>, catalog: seq<seq<Card>>, turn: U8, bases: Bases, pool: set<Card>)
    requires WellFormed(bases) && Good(v.shop, bases, pool) && LegalCatalog(catalog, pool) && NoRepeat(Ledger(v))
    ensures var r := ApplyAll(v, ops, catalog, turn, bases);
            r.Some? ==> && Good(r.value.shop, bases, pool) && NoRepeat(Ledger(r.value))
                        && Ledger(r.value) == Ledger(v) + Bought(ops)
                        && v.shop.next <= r.value.shop.next <= v.shop.next + 32 * |ops|
    decreases |ops|
  {
    if ops != [] {
      var before := ApplyAll(v, ops[..|ops| - 1], catalog, turn, bases);
      ApplyAllKeeps(v, ops[..|ops| - 1], catalog, turn, bases, pool);
      if before.Some? {
        Apply1Keeps(before.value, ops[|ops| - 1], catalog, turn, bases, pool);
      }
    }
  }

  // ----- the whole visit -----

  lemma {:induction false} CountsIgnoreIds(a: seq<ShopEmo>, b: seq<ShopEmo>, baseId: U16)
    requires Strip(a) == Strip(b)
    ensures CopyCount(a, baseId) == CopyCount(b, baseId) && CardSeq(a) == CardSeq(b)
  {
    assert |Strip(a)| == |a| && |Strip(b)| == |b|;
    if a != [] {
      assert Strip(a)[0] == ToBoardEmo(a[0]) && Strip(b)[0] == ToBoardEmo(b[0]);
      assert Strip(a[1..]) == Strip(a)[1..] && Strip(b[1..]) == Strip(b)[1..];
      CountsIgnoreIds(a[1..], b[1..], baseId);
    }
  }

  lemma LeavesGoodBoard(s: State, bases: Bases, pool: set<Card>)
    requires Good(s, bases, pool)
    ensures GoodBoard(Strip(s.board), bases, pool)
  {
    var plain := FromBoard(Strip(s.board), 0, []);
    assert Strip(plain.board) == Strip(s.board);
    forall baseId: U16 ensures CopyCount(plain.board, baseId) <= 2 {
      CountsIgnoreIds(plain.board, s.board, baseId);
    }
    forall e | e in plain.board ensures AboveFloor(e, bases) && FromPool(e, pool) && e.id < plain.next {
      var i :| 0 <= i < |plain.board| && plain.board[i] == e;
      assert AboveFloor(s.board[i], bases) && FromPool(s.board[i], pool);
    }
  }

  lemma CatalogFromPool(pool: seq<Card>, board: Board, tape: Tape)
    ensures var r := GetCatalog(pool, board, tape); r.Some? ==> LegalCatalog(r.value, set c | c in pool)
  {
    var r := GetCatalog(pool, board, tape);
    if r.Some? {
      forall i, c | 0 <= i < |r.value| && c in r.value[i] ensures c in (set c | c in pool) {
        OfferedFromPool(pool, board, tape, i, c);
      }
    }
  }

  /** An accepted list of operations, from any good board, leaves a good board with every card
      accounted for, and its id counter far from the 65536 where a u16 would wrap. */
  lemma VisitKeeps(board: Board, grade: U8, upgradeCoin: Option<U8>, ops: seq<Op>, pool: seq<Card>, seed: Seed, turn: U8,
                   bases: Bases)
    requires WellFormed(bases) && GoodBoard(board, bases, set c | c in pool)
    requires NoRepeat(Cards(FromBoard(board, 0, []).board))
    ensures var r := Verify(board, grade, upgradeCoin, ops, pool, seed, turn, bases);
            r.Some? ==> && GoodBoard(Strip(r.value.shop.board), bases, set c | c in pool)
                        && Ledger(r.value) == Cards(FromBoard(board, 0, []).board) + Bought(ops)
                        && NoRepeat(Ledger(r.value))
                        && r.value.shop.next <= 7 + 32 * 200 < 0x1_0000
  {
    var r := Verify(board, grade, upgradeCoin, ops, pool, seed, turn, bases);
    if r.Some? {
      ghost var cards := set c | c in pool;
      EnterKeeps(board, grade, upgradeCoin, seed.shop, turn, bases, cards);
      CatalogFromPool(pool, board, seed.catalog);
      var entered := Enter(board, grade, upgradeCoin, seed.shop, turn, bases).value;
      ApplyAllKeeps(entered, ops, GetCatalog(pool, board, seed.catalog).value, turn, bases, cards);
      LeavesGoodBoard(r.value.shop, bases, cards);
    }
  }

  lemma EnterKeeps(board: Board, grade: U8, upgradeCoin: Option<U8>, tape: Tape, turn: U8, bases: Bases, pool: set<Card>)
    requires WellFormed(bases) && GoodBoard(board, bases, pool)
    ensures var r := Enter(board, grade, upgradeCoin, tape, turn, bases);
            r.Some? ==> && Good(r.value.shop, bases, pool) && r.value.shop.next <= 7 + 32
                        && Ledger(r.value) == Cards(FromBoard(board, 0, []).board)
  {
    var start := FromBoard(board, 0, tape);
    assert start.board == FromBoard(board, 0, []).board;
    StartKeepsGood(start, bases, pool);
  }

  // ----- where cards come in and go out -----

  /** An accepted purchase first enters the card, plain and with the stats of its base, at the place that the player asked for. */
  lemma BoughtWhereAsked(v: Visit, cardId: U16, index: nat, catalog: seq<seq<Card>>, bases: Bases)
    requires IdsBelow(v.shop) && WellFormed(bases)
    ensures var r, base := BuyCard(v, cardId, index, catalog, bases), Offered(v, cardId, catalog, bases);
            r.Some? ==> && base.Some? && base.value.id in bases && index <= |v.shop.board| < 7
                        && ShopPlaces.Extends([Add(index, ShopPlaces.Fresh(bases[base.value.id], [cardId], false))], r.value.shop)
  {
    hide AddEmo;
    hide Offered;
    var base := Offered(v, cardId, catalog, bases);
    if BuyCard(v, cardId, index, catalog, bases).Some? {
      ShopPlaces.AddedWhereAsked(Begin(v.shop), [cardId], base.value.id, false, index, bases);
      assert [] + [Add(index, ShopPlaces.Fresh(bases[base.value.id], [cardId], false))]
          == [Add(index, ShopPlaces.Fresh(bases[base.value.id], [cardId], false))];
    }
  }

  /** A sale first takes off the emo at the place that the player named, and its cards are sold. */
  lemma SoldWhereAsked(v: Visit, index: nat, bases: Bases)
    ensures var r := SellCard(v, index, bases);
            && (index >= |v.shop.board| ==> r.None?)
            && (r.Some? ==> && ShopPlaces.Extends([Remove(index)], r.value.shop)
                            && r.value.sold == v.sold + v.shop.board[index].cards)
  {
    hide Run;
    if index < |v.shop.board| {
      var ts, s' := ShopReactions.SaleActs(Begin(v.shop), index, bases);
      assert [] + [Remove(index)] == [Remove(index)];
      ShopPlaces.RunExtends([Remove(index)], ts, s', bases);
    }
  }
}
