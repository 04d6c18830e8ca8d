/** The player's own client computes the board step by step, each step from a board without ids,
    and submits the operations afterwards. The chain, running them in one pass, gets the same board. */
module Client {
  import opened Types
  import opened Rng
  import opened Shop
  import opened ShopRun
  import opened ShopLaws
  import opened ShopLog
  import opened ShopRenaming
  import opened Moves
  import Catalog
  import opened PlayerOps
  import opened PlayerOpsLaws

  datatype Gesture = Place(card: Card, index: nat) | Discard(soldAt: nat) | Shift(shifted: nat, isRight: bool) | Other(op: Op)

  /** `next` is the client's own id counter; it is never reset. */
  datatype Screen = Screen(board: Board, ops: seq<Op>, next: nat)

  function Show(c: Screen, r: Option<State>, op: Op): Option<Screen> {
    var s :- r;
    Some(Screen(Strip(s.board), c.ops + [op], s.next))
  }

  /** A run of moves is submitted as one `Mov`: the list of the last one is spliced. */
  function ShiftOps(ops: seq<Op>, length: nat, from: nat, to: nat): Option<seq<Op>> {
    var last := |ops| - 1;
    if ops != [] && ops[last].Mov? then
      if from < |ops[last].indexes| && to < |ops[last].indexes|
      then Some(ops[..last] + [Mov(Splice(ops[last].indexes, from, to))]) else None
    else if from < length && to < length then Some(ops + [Mov(Splice(Identity(length), from, to))])
    else None
  }

  /** The list of operations that the client submits, and the list of indexes it splices in place. */
  class Submission {
    var operations: seq<Op>

    constructor ()
      ensures operations == []
    {
      operations := [];
    }

    /** Records a move; directly after another one its indexes are popped, changed and pushed again. */
    method FinishMove(length: nat, from: nat, to: nat) returns (ok: bool)
      modifies this
      ensures ShiftOps(old(operations), length, from, to) == if ok then Some(operations) else None
    {
      var indexes: seq<nat>;
      var last := |operations| - 1;
      if operations != [] && operations[last].Mov? {
        indexes := operations[last].indexes;
        if from >= |indexes| || to >= |indexes| {
          return false;
        }
        operations := operations[..last];
      } else {
        indexes := Identity(length);
        if from >= length || to >= length {
          return false;
        }
      }
      var moved := indexes[from];
      indexes := indexes[..from] + indexes[from + 1..];
      indexes := indexes[..to] + [moved] + indexes[to..];
      operations := operations + [Mov(indexes)];
      return true;
    }
  }

  function React(c: Screen, g: Gesture, bases: Bases): Option<Screen> {
    match g
    case Place(card, index) =>
      Show(c, AddEmo(FromBoard(c.board, c.next, []), [card.id], card.baseId, false, index, bases), Buy(card.id, index))
    case Discard(index) => Show(c, SellEmo(FromBoard(c.board, c.next, []), index, bases), Sell(index))
    case Shift(index, isRight) =>
      var s :- MoveEmo(FromBoard(c.board, c.next, []), index, isRight);
      var ops :- ShiftOps(c.ops, |c.board|, index, if isRight then index + 1 else index - 1);
      Some(Screen(Strip(s.board), ops, s.next))
    case Other(op) =>
      if op.NextCatalogLine? || op.Upgrade? then Some(c.(ops := c.ops + [op])) else None
  }

  function ReactAll(c: Screen, gs: seq<Gesture>, bases: Bases): Option<Screen>
    decreases |gs|
  {
    if gs == [] then Some(c)
    else
      var c' :- ReactAll(c, gs[..|gs| - 1], bases);
      React(c', gs[|gs| - 1], bases)
  }

  /** After the pre-shop abilities, run on the client's own numbering. */
  function Open(board: Board, first: nat, tape: Tape, bases: Bases): Option<Screen> {
    var s :- StartShop(FromBoard(board, first, tape), bases);
    Some(Screen(Strip(s.board), [], s.next))
  }

  ghost predicate PermutationMoves(ops: seq<Op>) { forall op :: op in ops && op.Mov? ==> IsPermutation(op.indexes) }

  /** Ids in the pool name one card each, and the player places only cards of the pool. */
  ghost predicate FairPool(pool: set<Card>) { forall a, b :: a in pool && b in pool && a.id == b.id ==> a == b }

  ghost predicate PlacesFrom(gs: seq<Gesture>, pool: set<Card>) {
    forall g :: g in gs && g.Place? ==> g.card in pool
  }

  // ----- one gesture -----

  lemma PlainDistinct(board: Board, first: nat, tape: Tape)
    ensures Distinct(FromBoard(board, first, tape)) && Strip(FromBoard(board, first, tape).board) == board
  {
    assert Strip(FromBoard(board, first, tape).board) == board;
  }

  lemma StripSwap(board: seq<ShopEmo>, i: nat, j: nat)
    requires i < |board| && j < |board|
    ensures Strip(Swap(board, i, j)) == Swap(Strip(board), i, j)
  {
  }

  lemma BuySameCard(v: Visit, card: Card, catalog: seq<seq<Card>>, bases: Bases, pool: set<Card>)
    requires WellFormed(bases) && LegalCatalog(catalog, pool) && FairPool(pool) && card in pool
    requires Offered(v, card.id, catalog, bases).Some?
    ensures Offered(v, card.id, catalog, bases).value.id == card.baseId
  {
    var found := FindCard(catalog[v.line], card.id).value;
    assert found in pool && found.id == card.id;
  }

  /** One more gesture on boards that agree leaves boards that agree. */
  lemma PlaceAgrees(c: Screen, v: Visit, card: Card, index: nat, catalog: seq<seq<Card>>, bases: Bases, pool: set<Card>)
    requires WellFormed(bases) && LegalCatalog(catalog, pool) && FairPool(pool) && card in pool
    requires Distinct(v.shop) && Strip(v.shop.board) == c.board
    ensures var r, r' := React(c, Place(card, index), bases), BuyCard(v, card.id, index, catalog, bases);
            r.Some? && r'.Some? ==> Strip(r'.value.shop.board) == r.value.board
  {
    if BuyCard(v, card.id, index, catalog, bases).Some? {
      BuySameCard(v, card, catalog, bases, pool);
      PlainDistinct(c.board, c.next, []);
      IdsDoNotMatter(Begin(v.shop), FromBoard(c.board, c.next, []), bases, [card.id], card.baseId, false, index);
    }
  }

  lemma DiscardAgrees(c: Screen, v: Visit, index: nat, bases: Bases)
    requires Distinct(v.shop) && Strip(v.shop.board) == c.board
    ensures var r, r' := React(c, Discard(index), bases), SellCard(v, index, bases);
            r.Some? && r'.Some? ==> Strip(r'.value.shop.board) == r.value.board
  {
    PlainDistinct(c.board, c.next, []);
    IdsDoNotMatter(Begin(v.shop), FromBoard(c.board, c.next, []), bases, [], 0, false, index);
  }

  lemma ShiftIsSwap(c: Screen, index: nat, isRight: bool)
    requires MoveEmo(FromBoard(c.board, c.next, []), index, isRight).Some?
    ensures var to := if isRight then index + 1 else index - 1;
            && index < |c.board| && 0 <= to < |c.board|
            && Strip(MoveEmo(FromBoard(c.board, c.next, []), index, isRight).value.board) == Swap(c.board, index, to)
  {
    PlainDistinct(c.board, c.next, []);
    StripSwap(FromBoard(c.board, c.next, []).board, index, if isRight then index + 1 else index - 1);
  }

  /** A board rearranged by `p`, then by one more move, is the board rearranged by the spliced list. */
  lemma SplicedAgrees(s: seq<ShopEmo>, p: seq<nat>, from: nat, to: nat)
    requires IsPermutation(p) && |p| == |s|
    requires from < |s| && to < |s| && (to == from + 1 || from == to + 1)
    ensures IsPermutation(Splice(p, from, to))
    ensures Moves.Mov(s, p).Some? && Moves.Mov(s, Splice(p, from, to)).Some?
    ensures |Moves.Mov(s, p).value| == |s|
    ensures Strip(Moves.Mov(s, Splice(p, from, to)).value) == Swap(Strip(Moves.Mov(s, p).value), from, to)
  {
    MovOfPermutation(s, p);
    OneMoreMove(s, p, from, to);
    StripSwap(Pick(s, p), from, to);
  }

  // ----- all gestures -----

  /** Client and chain agree after `gs`, if the chain accepts what the client would submit. */
  ghost predicate Agree(v0: Visit, c: Screen, catalog: seq<seq<Card>>, turn: U8, bases: Bases) {
    && PermutationMoves(c.ops)
    && var v := ApplyAll(v0, c.ops, catalog, turn, bases);
       v.Some? ==> Strip(v.value.shop.board) == c.board
  }

  lemma AppendedAgrees(v0: Visit, c: Screen, c': Screen, op: Op, catalog: seq<seq<Card>>, turn: U8, bases: Bases)
    requires Agree(v0, c, catalog, turn, bases) && c'.ops == c.ops + [op] && (op.Mov? ==> IsPermutation(op.indexes))
    requires var v := ApplyAll(v0, c.ops, catalog, turn, bases);
             v.Some? && Apply1(v.value, op, catalog, turn, bases).Some? ==>
               Strip(Apply1(v.value, op, catalog, turn, bases).value.shop.board) == c'.board
    ensures Agree(v0, c', catalog, turn, bases)
  {
    assert c'.ops[..|c'.ops| - 1] == c.ops;
  }

  lemma SplicedOpsAgree(v0: Visit, ops: seq<Op>, p: seq<nat>, from: nat, to: nat, board: Board, board': Board,
                        catalog: seq<seq<Card>>, turn: U8, bases: Bases)
    requires IsPermutation(p) && from < |p| == |board| && to < |p| && (to == from + 1 || from == to + 1)
    requires var v := ApplyAll(v0, ops + [Mov(p)], catalog, turn, bases); v.Some? ==> Strip(v.value.shop.board) == board
    requires board' == Swap(board, from, to)
    ensures var v := ApplyAll(v0, ops + [Mov(Splice(p, from, to))], catalog, turn, bases);
            v.Some? ==> Strip(v.value.shop.board) == board'
  {
    var p' := Splice(p, from, to);
    AdjacentPermutation(p, from, to);
    assert (ops + [Mov(p)])[..|ops|] == ops && (ops + [Mov(p')])[..|ops|] == ops;
    var before := ApplyAll(v0, ops, catalog, turn, bases);
    if before.Some? && |p| == |before.value.shop.board| {
      SplicedAgrees(before.value.shop.board, p, from, to);
    }
  }

  lemma ShiftAgrees(v0: Visit, c: Screen, index: nat, isRight: bool, catalog: seq<seq<Card>>, turn: U8, bases: Bases)
    requires Agree(v0, c, catalog, turn, bases)
    ensures var r := React(c, Shift(index, isRight), bases); r.Some? ==> Agree(v0, r.value, catalog, turn, bases)
  {
    var r := React(c, Shift(index, isRight), bases);
    if r.Some? {
      ShiftIsSwap(c, index, isRight);
      var to := if isRight then index + 1 else index - 1;
      if c.ops != [] && c.ops[|c.ops| - 1].Mov? {
        ShiftAgain(v0, c, r.value, index, to, catalog, turn, bases);
      } else {
        ShiftFirst(v0, c, r.value, index, to, catalog, turn, bases);
      }
    }
  }

  lemma ShiftAgain(v0: Visit, c: Screen, c': Screen, from: nat, to: nat, catalog: seq<seq<Card>>, turn: U8, bases: Bases)
    requires Agree(v0, c, catalog, turn, bases) && c.ops != [] && c.ops[|c.ops| - 1].Mov?
    requires from < |c.board| && to < |c.board| && (to == from + 1 || from == to + 1)
    requires ShiftOps(c.ops, |c.board|, from, to) == Some(c'.ops) && c'.board == Swap(c.board, from, to)
    ensures Agree(v0, c', catalog, turn, bases)
  {
    var last := |c.ops| - 1;
    var before, p := c.ops[..last], c.ops[last].indexes;
    assert c.ops[last] in c.ops && c.ops == before + [Mov(p)];
    AdjacentPermutation(p, from, to);
    assert c'.ops == before + [Mov(Splice(p, from, to))] && c'.ops[..last] == before;
    assert forall op :: op in before ==> op in c.ops;
    var v := ApplyAll(v0, c'.ops, catalog, turn, bases);
    if v.Some? {
      var b := ApplyAll(v0, before, catalog, turn, bases).value.shop.board;
      SplicedAgrees(b, p, from, to);
      assert ApplyAll(v0, c.ops, catalog, turn, bases).Some?;
      assert |c.board| == |b|;
      SplicedOpsAgree(v0, before, p, from, to, c.board, c'.board, catalog, turn, bases);
    }
  }

  lemma ShiftFirst(v0: Visit, c: Screen, c': Screen, from: nat, to: nat, catalog: seq<seq<Card>>, turn: U8, bases: Bases)
    requires Agree(v0, c, catalog, turn, bases)
    requires from < |c.board| && to < |c.board| && (to == from + 1 || from == to + 1)
    requires c'.ops == c.ops + [Mov(Splice(Identity(|c.board|), from, to))] && c'.board == Swap(c.board, from, to)
    ensures Agree(v0, c', catalog, turn, bases)
  {
    var p := Identity(|c.board|);
    IdentityIsPermutation(|c.board|);
    AdjacentPermutation(p, from, to);
    var v := ApplyAll(v0, c.ops, catalog, turn, bases);
    if v.Some? {
      var s := v.value.shop.board;
      assert |s| == |Strip(s)|;
      SplicedAgrees(s, p, from, to);
      MovOfPermutation(s, p);
      assert Pick(s, p) == s;
    }
    AppendedAgrees(v0, c, c', Mov(Splice(p, from, to)), catalog, turn, bases);
  }

  lemma AdjacentPermutation(p: seq<nat>, from: nat, to: nat)
    requires IsPermutation(p) && from < |p| && to < |p| && (to == from + 1 || from == to + 1)
    ensures IsPermutation(Splice(p, from, to)) && |Splice(p, from, to)| == |p|
  {
    OneMoreMove(p, p, from, to);
  }

  lemma {:induction false} GesturesAgree(v0: Visit, c0: Screen, gs: seq<Gesture>, catalog: seq<seq<Card>>, turn: U8,
                                         bases: Bases, pool: set<Card>)
    requires WellFormed(bases) && Good(v0.shop, bases, pool) && NoRepeat(Ledger(v0))
    requires LegalCatalog(catalog, pool) && FairPool(pool) && PlacesFrom(gs, pool)
    requires c0.ops == [] && c0.board == Strip(v0.shop.board)
    ensures var c := ReactAll(c0, gs, bases); c.Some? ==> Agree(v0, c.value, catalog, turn, bases)
    decreases |gs|
  {
    if gs != [] {
      var before := ReactAll(c0, gs[..|gs| - 1], bases);
      var g := gs[|gs| - 1];
      GesturesAgree(v0, c0, gs[..|gs| - 1], catalog, turn, bases, pool);
      if before.Some? {
        LastGestureAgrees(v0, before.value, g, catalog, turn, bases, pool);
      }
    }
  }

  lemma DistinctAfter(v0: Visit, ops: seq<Op>, catalog: seq<seq<Card>>, turn: U8, bases: Bases, pool: set<Card>)
    requires WellFormed(bases) && Good(v0.shop, bases, pool) && NoRepeat(Ledger(v0)) && LegalCatalog(catalog, pool)
    ensures var v := ApplyAll(v0, ops, catalog, turn, bases); v.Some? ==> Distinct(v.value.shop)
  {
    ApplyAllKeeps(v0, ops, catalog, turn, bases, pool);
  }

  lemma LastGestureAgrees(v0: Visit, c: Screen, g: Gesture, catalog: seq<seq<Card>>, turn: U8, bases: Bases, pool: set<Card>)
    requires WellFormed(bases) && Good(v0.shop, bases, pool) && NoRepeat(Ledger(v0))
    requires LegalCatalog(catalog, pool) && FairPool(pool) && (g.Place? ==> g.card in pool)
    requires Agree(v0, c, catalog, turn, bases)
    ensures var r := React(c, g, bases); r.Some? ==> Agree(v0, r.value, catalog, turn, bases)
  {
    hide Agree;
    hide PlayerOps.ApplyAll;
    hide PlayerOpsLaws.Good;
    hide ShopRun.AddEmo;
    hide ShopRun.SellEmo;
    var r := React(c, g, bases);
    if r.Some? {
      DistinctAfter(v0, c.ops, catalog, turn, bases, pool);
      match g
      case Shift(index, isRight) => ShiftAgrees(v0, c, index, isRight, catalog, turn, bases);
      case Place(card, index) => PlaceLast(v0, c, r.value, card, index, catalog, turn, bases, pool);
      case Discard(index) => DiscardLast(v0, c, r.value, index, catalog, turn, bases);
      case Other(op) => OtherLast(v0, c, r.value, op, catalog, turn, bases);
    }
  }

  lemma OtherLast(v0: Visit, c: Screen, c': Screen, op: Op, catalog: seq<seq<Card>>, turn: U8, bases: Bases)
    requires Agree(v0, c, catalog, turn, bases) && React(c, Other(op), bases) == Some(c')
    ensures Agree(v0, c', catalog, turn, bases)
  {
    AppendedAgrees(v0, c, c', op, catalog, turn, bases);
  }

  lemma PlaceLast(v0: Visit, c: Screen, c': Screen, card: Card, index: nat, catalog: seq<seq<Card>>, turn: U8, bases: Bases,
                  pool: set<Card>)
    requires WellFormed(bases) && LegalCatalog(catalog, pool) && FairPool(pool) && card in pool
    requires Agree(v0, c, catalog, turn, bases) && React(c, Place(card, index), bases) == Some(c')
    requires var v := ApplyAll(v0, c.ops, catalog, turn, bases); v.Some? ==> Distinct(v.value.shop)
    ensures Agree(v0, c', catalog, turn, bases)
  {
    var v := ApplyAll(v0, c.ops, catalog, turn, bases);
    if v.Some? {
      PlaceAgrees(c, v.value, card, index, catalog, bases, pool);
    }
    AppendedAgrees(v0, c, c', Buy(card.id, index), catalog, turn, bases);
  }

  lemma DiscardLast(v0: Visit, c: Screen, c': Screen, index: nat, catalog: seq<seq<Card>>, turn: U8, bases: Bases)
    requires Agree(v0, c, catalog, turn, bases) && React(c, Discard(index), bases) == Some(c')
    requires var v := ApplyAll(v0, c.ops, catalog, turn, bases); v.Some? ==> Distinct(v.value.shop)
    ensures Agree(v0, c', catalog, turn, bases)
  {
    var v := ApplyAll(v0, c.ops, catalog, turn, bases);
    if v.Some? {
      DiscardAgrees(c, v.value, index, bases);
    }
    AppendedAgrees(v0, c, c', Sell(index), catalog, turn, bases);
  }

  /** Whatever the player does, if the chain accepts the submitted operations it computes
      exactly the board the player saw. */
  lemma ChainMatchesClient(board: Board, grade: U8, upgradeCoin: Option<U8>, gs: seq<Gesture>, pool: seq<Card>, seed: Seed,
                           turn: U8, bases: Bases, first: nat)
    requires WellFormed(bases) && GoodBoard(board, bases, set c | c in pool)
    requires NoRepeat(Cards(FromBoard(board, 0, []).board))
    requires FairPool(set c | c in pool) && PlacesFrom(gs, set c | c in pool)
    ensures var screen := Open(board, first, seed.shop, bases);
            screen.Some? && ReactAll(screen.value, gs, bases).Some? ==>
              var c := ReactAll(screen.value, gs, bases).value;
              var v := Verify(board, grade, upgradeCoin, c.ops, pool, seed, turn, bases);
              v.Some? ==> Strip(v.value.shop.board) == c.board
  {
    hide PlayerOps.ApplyAll;
    hide ReactAll;
    hide ShopRun.StartShop;
    hide Catalog.GetCatalog;
    hide PlayerOpsLaws.NoRepeat;
    hide ShopLaws.Cards;
    hide FairPool;
    hide PlacesFrom;
    var screen := Open(board, first, seed.shop, bases);
    if screen.Some? && ReactAll(screen.value, gs, bases).Some? {
      var c := ReactAll(screen.value, gs, bases).value;
      if Verify(board, grade, upgradeCoin, c.ops, pool, seed, turn, bases).Some? {
        PlainDistinct(board, first, seed.shop);
        PlainDistinct(board, 0, seed.shop);
        IdsDoNotMatter(FromBoard(board, first, seed.shop), FromBoard(board, 0, seed.shop), bases, [], 0, false, 0);
        EnterKeeps(board, grade, upgradeCoin, seed.shop, turn, bases, set c | c in pool);
        CatalogFromPool(pool, board, seed.catalog);
        var v0 := Enter(board, grade, upgradeCoin, seed.shop, turn, bases).value;
        GesturesAgree(v0, screen.value, gs, PlayerOpsCatalog(pool, board, seed), turn, bases, set c | c in pool);
      }
    }
  }

  function PlayerOpsCatalog(pool: seq<Card>, board: Board, seed: Seed): seq<seq<Card>> {
    var r := Catalog.GetCatalog(pool, board, seed.catalog);
    if r.Some? then r.value else []
  }
}
