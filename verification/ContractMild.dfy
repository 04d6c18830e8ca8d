/** What the table's abilities are made of, all abilities in storage are made of: whatever is submitted, no board, ghost or
    recorded turn ever carries a battle ability of another kind. */
module ContractMild {
  import opened Types
  import opened Rng
  import opened Leaderboard
  import opened Matchmaking
  import opened GhostChoice
  import opened Organizer
  import opened Contract
  import opened ContractLaws
  import opened ShopMild
  import Catalog
  import Moves
  import OrganizerLaws
  import PlayerOps
  import Setup
  import Shop
  import ShopLog
  import ShopRenaming
  import ShopRun

  // ----- a visit leaves a mild board -----

  ghost predicate MildBoardEmos(board: Board, kind: Kind) { forall e :: e in board ==> MildList(e.attr.abilities, kind) }

  lemma RearrangedMild(s: seq<Shop.ShopEmo>, wanted: seq<nat>, kind: Kind)
    requires MildEmos(s, kind)
    ensures var r := Moves.Mov(s, wanted); r.Some? ==> MildEmos(r.value, kind)
  {
    Moves.MovRearranges(s, wanted);
    var r := Moves.Mov(s, wanted);
    if r.Some? {
      forall e | e in r.value ensures e in s {
        assert multiset(r.value)[e] > 0;
        assert multiset(s)[e] > 0;
      }
    }
  }

  lemma {:induction false} ApplyAllMild(v: PlayerOps.Visit, ops: seq<PlayerOps.Op>, catalog: seq<seq<Card>>, turn: U8, bases: Bases,
                                      kind: Kind)
    requires MildTable(bases, kind) && MildEmos(v.shop.board, kind)
    ensures var r := PlayerOps.ApplyAll(v, ops, catalog, turn, bases); r.Some? ==> MildEmos(r.value.shop.board, kind)
    decreases |ops|
  {
    hide ShopRun.AddEmo;
    hide ShopRun.SellEmo;
    hide MildEmos;
    if ops != [] {
      ApplyAllMild(v, ops[..|ops| - 1], catalog, turn, bases, kind);
      var before := PlayerOps.ApplyAll(v, ops[..|ops| - 1], catalog, turn, bases);
      if before.Some? {
        var s := before.value.shop;
        match ops[|ops| - 1]
        case Buy(cardId, index) =>
          var base := PlayerOps.Offered(before.value, cardId, catalog, bases);
          if base.Some? {
            AddMild(PlayerOps.Begin(s), [cardId], base.value.id, false, index, bases, kind);
          }
        case Sell(index) => SellMild(PlayerOps.Begin(s), index, bases, kind);
        case Mov(indexes) => RearrangedMild(s.board, indexes, kind);
        case _ =>
      }
    }
  }

  lemma FromBoardMild(board: Board, first: nat, tape: Tape, kind: Kind)
    requires MildBoardEmos(board, kind)
    ensures MildEmos(ShopRenaming.FromBoard(board, first, tape).board, kind)
  {
    var s := ShopRenaming.FromBoard(board, first, tape);
    forall e | e in s.board ensures MildEmo(e, kind) {
      var i :| 0 <= i < |board| && s.board[i] == e;
      assert board[i] in board;
    }
  }

  lemma StripMild(board: seq<Shop.ShopEmo>, kind: Kind)
    requires MildEmos(board, kind)
    ensures MildBoardEmos(ShopLog.Strip(board), kind)
  {
    forall e | e in ShopLog.Strip(board) ensures MildList(e.attr.abilities, kind) {
      var i :| 0 <= i < |board| && ShopLog.Strip(board)[i] == e;
      assert board[i] in board;
    }
  }

  lemma VisitMild(board: Board, grade: U8, upgradeCoin: Option<U8>, ops: seq<PlayerOps.Op>, pool: seq<Card>, seed: PlayerOps.Seed,
                  turn: U8, bases: Bases, kind: Kind)
    requires MildTable(bases, kind) && MildBoardEmos(board, kind)
    ensures var r := PlayerOps.Verify(board, grade, upgradeCoin, ops, pool, seed, turn, bases);
            r.Some? ==> MildBoardEmos(ShopLog.Strip(r.value.shop.board), kind)
  {
    hide ShopRun.StartShop;
    hide PlayerOps.ApplyAll;
    hide MildEmos;
    hide MildBoardEmos;
    hide MildTable;
    FromBoardMild(board, 0, seed.shop, kind);
    StartMild(ShopRenaming.FromBoard(board, 0, seed.shop), bases, kind);
    var v := PlayerOps.Enter(board, grade, upgradeCoin, seed.shop, turn, bases);
    var catalog := Catalog.GetCatalog(pool, board, seed.catalog);
    if v.Some? && catalog.Some? {
      ApplyAllMild(v.value, ops, catalog.value, turn, bases, kind);
      var r := PlayerOps.Verify(board, grade, upgradeCoin, ops, pool, seed, turn, bases);
      if r.Some? {
        StripMild(r.value.shop.board, kind);
      }
    }
  }

  // ----- storage stays mild -----

  ghost predicate MildGhostBoard(board: seq<GhostEmo>, kind: Kind) { forall e :: e in board ==> MildList(e.attr.abilities, kind) }

  ghost predicate MildGhost(g: Ghost, kind: Kind) { forall i :: 0 <= i < |g| ==> MildGhostBoard(g[i].board, kind) }

  ghost predicate MildHistory(history: seq<GradeAndBoard>, kind: Kind) {
    forall i :: 0 <= i < |history| ==> MildBoardEmos(history[i].board, kind)
  }

  ghost predicate MildRivals(rivals: seq<Rival>, kind: Kind) {
    forall i :: 0 <= i < |rivals| && rivals[i].Some? ==> MildGhost(rivals[i].value.1, kind)
  }

  ghost predicate MildBands(bands: Bands, kind: Kind) {
    forall b, i :: b in bands && 0 <= i < |bands[b].info| && i in bands[b].ghosts ==> MildGhost(bands[b].ghosts[i], kind)
  }

  ghost predicate MildStore(s: Store, kind: Kind) {
    && MildBands(s.bands, kind)
    && (forall a :: a in s.settings ==> MildRivals(s.settings[a].rivals, kind))
    && (forall a :: a in s.matches ==> MildHistory(s.matches[a].history, kind))
  }

  lemma GhostBoardMild(board: Board, kind: Kind)
    requires MildBoardEmos(board, kind)
    ensures MildGhostBoard(GhostBoard(board), kind)
  {
    forall e | e in GhostBoard(board) ensures MildList(e.attr.abilities, kind) {
      var i :| 0 <= i < |board| && GhostBoard(board)[i] == e;
      assert board[i] in board;
    }
  }

  lemma GhostOfMild(history: seq<GradeAndBoard>, kind: Kind)
    requires MildHistory(history, kind)
    ensures MildGhost(GhostOf(history), kind)
  {
    forall i | 0 <= i < |history| ensures MildGhostBoard(GhostOf(history)[i].board, kind) {
      GhostBoardMild(history[i].board, kind);
    }
  }

  lemma ChoiceMild(bands: Bands, ep: U16, tape: Tape, order: Tape, kind: Kind)
    requires MildBands(bands, kind) && forall b :: b in bands ==> Sane(bands[b])
    ensures var r := Choose(bands, ep, tape, order); r.Some? ==> MildRivals(r.value, kind)
  {
    hide MildGhost;
    ChoiceIsFair(bands, ep, tape, order);
    var r := Choose(bands, ep, tape, order).value;
    forall i | 0 <= i < |r| && r[i].Some? ensures MildGhost(r[i].value.1, kind) {
      assert Stored(bands, r[i].value);
      var p :| IsAt(bands, p, r[i].value);
    }
  }

  lemma AddGhostMild(bands: Bands, ep: U16, block: nat, player: Account, history: seq<GradeAndBoard>, kind: Kind)
    requires MildBands(bands, kind) && MildHistory(history, kind) && forall b :: b in bands ==> Sane(bands[b])
    ensures MildBands(AddGhost(bands, ep, block, player, history), kind)
  {
    hide MildGhost;
    hide Oldest;
    GhostOfMild(history, kind);
  }

  lemma TurnMild(m: Match, setting: Setting, ops: seq<PlayerOps.Op>, stored: Seed, drawn: Seed, first: FirstIds, budget: nat,
                 bases: Bases, kind: Kind)
    requires MildTable(bases, kind) && MildHistory(m.history, kind)
    ensures var r := PlayTurn(m, setting, ops, stored, drawn, first, budget, bases); r.Some? ==> MildHistory(r.value.m.history, kind)
  {
    hide BattleAll;
    hide PlayerOps.Verify;
    hide MildTable;
    hide MildBoardEmos;
    NothingIsMild(kind);
    var last := LastTurn(m.history);
    var turn := TurnOf(m.history);
    if turn.Some? {
      VisitMild(last.board, last.grade, m.upgradeCoin, ops, setting.pool, stored.visit, turn.value, bases, kind);
    }
  }

  lemma NothingIsMild(kind: Kind)
    ensures MildBoardEmos([], kind)
  {
  }

  lemma StartMtcMild(s: Store, player: Account, deck: seq<U16>, seed: Seed, bases: Bases, kind: Kind)
    requires Legal(s, bases) && MildStore(s, kind)
    ensures MildStore(Receive(s, StartMtc(player, deck, seed)), kind)
  {
    hide Choose;
    hide Open;
    hide LegalBands;
    hide Sane;
    hide Setup.Pool;
    hide MildGhost;
    hide MildBands;
    hide MildRivals;
    hide MildBoardEmos;
    var ep := EpAtStart(s, player);
    assert MildHistory(NewMatch(ep).history, kind);
    hide MildHistory;
    hide NewMatch;
    hide EpAtStart;
    hide Ordered;
    hide WellFormed;
    BandsAreSane(s.bands, bases);
    ChoiceMild(s.bands, ep, seed.places, seed.order, kind);
  }

  lemma BandsAreSane(bands: Bands, bases: Bases)
    requires LegalBands(bands, bases)
    ensures forall b :: b in bands ==> Sane(bands[b])
  {
  }

  lemma FinishMild(s: Store, player: Account, ops: seq<PlayerOps.Op>, seed: Seed, block: nat, first: FirstIds, budget: nat,
                   bases: Bases, kind: Kind)
    requires Legal(s, bases) && MildStore(s, kind) && MildTable(bases, kind) && player in s.matches
    ensures MildStore(Receive(s, FinishMtcShop(player, ops, seed, block, first, budget)), kind)
  {
    hide PlayTurn;
    hide Open;
    hide Record;
    hide SelectGhost;
    hide AddGhost;
    hide MildBands;
    hide MildRivals;
    hide MildHistory;
    var m, setting := s.matches[player], s.settings[player];
    TurnMild(m, setting, ops, s.seeds[player], seed, first, budget, bases, kind);
    var t := PlayTurn(m, setting, ops, s.seeds[player], seed, first, budget, bases);
    if t.Some? {
      BandsAreSane(s.bands, bases);
      AddGhostMild(s.bands, s.eps[player], block, player, t.value.m.history, kind);
    }
  }

  lemma {:induction false} ReachableIsMild(tables: Tables, msgs: seq<Message>, kind: Kind)
    requires WellFormed(tables.bases) && MildTable(tables.bases, kind)
    ensures MildStore(ReceiveAll(Genesis(tables), msgs), kind)
    decreases |msgs|
  {
    hide Receive;
    hide Legal;
    hide MildStore;
    hide MildTable;
    FreshIsMild(tables, kind);
    if msgs != [] {
      var before, msg := msgs[..|msgs| - 1], msgs[|msgs| - 1];
      ReachableIsMild(tables, before, kind);
      ReachableIsLegal(tables, before);
      MessageMild(ReceiveAll(Genesis(tables), before), msg, tables.bases, kind);
    }
  }

  lemma FreshIsMild(tables: Tables, kind: Kind)
    ensures MildStore(Genesis(tables), kind)
  {
  }

  lemma MessageMild(s: Store, msg: Message, bases: Bases, kind: Kind)
    requires Legal(s, bases) && MildStore(s, kind) && MildTable(bases, kind)
    ensures MildStore(Receive(s, msg), kind)
  {
    hide MildStore;
    hide MildTable;
    hide Open;
    hide PlayTurn;
    hide Start;
    match msg
    case StartMtc(player, deck, seed) => StartMtcMild(s, player, deck, seed, bases, kind);
    case FinishMtcShop(player, ops, seed, block, first, budget) =>
      if player in s.matches {
        FinishMild(s, player, ops, seed, block, first, budget, bases, kind);
      }
  }

  // ----- the boards of a turn -----

  ghost predicate Ready(ghosts: seq<Ghost>, states: seq<GhostState>, turn: nat, bases: Bases, kind: Kind) {
    && |ghosts| == 3 && |states| == 3
    && forall i :: 0 <= i < 3 ==>
         OrganizerLaws.LegalGhost(ghosts[i], bases) && MildGhost(ghosts[i], kind) && OrganizerLaws.Seasoned(states[i], turn)
  }

  lemma BroughtBoard(ghosts: seq<Ghost>, states: seq<GhostState>, turn: U8, bases: Bases, kind: Kind, i: nat)
    requires Ready(ghosts, states, turn, bases, kind) && turn >= 1 && i < 3
    ensures var g := GhostBoardAt(ghosts[i], states[i], turn);
            g.Some? && OrganizerLaws.LegalBoard(g.value.board, bases) && MildGhostBoard(g.value.board, kind)
  {
    OrganizerLaws.GhostBoardIsFound(ghosts[i], states[i], turn);
    OrganizerLaws.GhostBoardIsLegal(ghosts[i], states[i], turn, bases);
  }

  lemma OpenIsReady(m: Match, setting: Setting, bases: Bases, kind: Kind)
    requires Open(m, setting, bases) && MildRivals(setting.rivals, kind)
    ensures Ready(GhostsOf(setting.rivals), m.states, |m.history| + 1, bases, kind)
  {
  }
}
