/** What storage satisfies after any sequence of messages, and which panics it rules out. */
module ContractLaws {
  import opened Types
  import opened Rng
  import opened Leaderboard
  import opened Matchmaking
  import opened GhostChoice
  import opened Organizer
  import opened OrganizerLaws
  import opened Contract
  import PlayerOps
  import PlayerOpsLaws
  import Setup
  import Catalog
  import ShopRun
  import ShopLaws
  import ShopLog
  import ShopRenaming

  // ----- EP -----

  function Max(a: int, b: int): int { if a < b then b else a }

  /** The panic of `calc_new_ep` is reached for unsupported places only. The first place wins 70 EP and the second 50, one less
      for every 40 EP above 300 but at least one; the third loses 30 and the fourth 50, but nobody falls below one. */
  lemma NewEpIsLegal(place: nat, oldEp: U16)
    requires oldEp >= MIN_EP
    ensures var r := CalcNewEp(place, oldEp);
            && (r.Some? <==> 1 <= place <= 4)
            && (place == 1 ==> r == Some(Sat16(oldEp + Max(1, 70 - Max(0, oldEp - 300) / 40))))
            && (place == 2 ==> r == Some(Sat16(oldEp + Max(1, 50 - Max(0, oldEp - 300) / 40))))
            && (place == 3 ==> r == Some(Max(1, oldEp - 30)))
            && (place == 4 ==> r == Some(Max(1, oldEp - 50)))
  {
  }

  /** A better place never gives less, and from more EP the same place never leads to less. */
  lemma NewEpKeepsOrder(place: nat, place': nat, oldEp: U16, oldEp': U16)
    requires 1 <= place <= place' <= 4 && MIN_EP <= oldEp' <= oldEp
    ensures CalcNewEp(place, oldEp).value >= CalcNewEp(place', oldEp').value >= MIN_EP
  {
    NewEpIsLegal(place, oldEp);
    NewEpIsLegal(place', oldEp');
  }

  // ----- a match in progress -----

  /** The player's cards: every id once, every emo of a base of the table, with cards of the pool. */
  ghost predicate LegalHand(board: Board, pool: seq<Card>, bases: Bases) {
    && PlayerOpsLaws.GoodBoard(board, bases, set c | c in pool)
    && PlayerOpsLaws.NoRepeat(ShopLaws.Cards(ShopRenaming.FromBoard(board, 0, []).board))
  }

  ghost predicate LegalHistory(history: seq<GradeAndBoard>, pool: seq<Card>, bases: Bases) {
    && |history| <= 39
    && (forall i :: 0 <= i < |history| ==> 1 <= history[i].grade <= 6 && LegalBoard(GhostBoard(history[i].board), bases))
    && LegalHand(LastTurn(history).board, pool, bases)
  }

  ghost predicate LegalRivals(rivals: seq<Rival>, bases: Bases) {
    |rivals| == 3 && forall i :: 0 <= i < 3 && rivals[i].Some? ==> LegalGhost(rivals[i].value.1, bases)
  }

  /** The player is alive; of three ghosts at least one is active, and every active one has health left; the next
      opponent is active; fewer than 40 turns are recorded, with legal boards; every id of the pool names one card. */
  ghost predicate Open(m: Match, setting: Setting, bases: Bases) {
    && m.health > 0
    && Field(m.states, m.ghostIndex, |m.history|)
    && LegalHistory(m.history, setting.pool, bases)
    && LegalRivals(setting.rivals, bases)
    && UniqueIds(setting.pool)
  }

  lemma LaterSeasoned(states: seq<GhostState>, index: nat, turn: nat)
    requires Field(states, index, turn)
    ensures Field(states, index, turn + 1)
  {
  }

  lemma GoodIsLegal(board: Board, pool: set<Card>, bases: Bases)
    requires WellFormed(bases) && PlayerOpsLaws.GoodBoard(board, bases, pool)
    ensures LegalBoard(GhostBoard(board), bases)
  {
    var s := ShopRenaming.FromBoard(board, 0, []);
    assert |s.board| == |board|;
    forall e | e in GhostBoard(board) ensures e.baseId in bases && e.attr.health >= 1 {
      var i :| 0 <= i < |board| && GhostBoard(board)[i] == e;
      assert s.board[i] in s.board && ShopLaws.AboveFloor(s.board[i], bases);
    }
  }

  // ----- the visit -----

  lemma {:induction false} GradeStaysLegal(v: PlayerOps.Visit, ops: seq<PlayerOps.Op>, catalog: seq<seq<Card>>, turn: U8, bases: Bases)
    requires 1 <= v.grade <= 6
    ensures var r := PlayerOps.ApplyAll(v, ops, catalog, turn, bases); r.Some? ==> v.grade <= r.value.grade <= 6
    decreases |ops|
  {
    hide ShopRun.SellEmo;
    hide ShopRun.AddEmo;
    hide PlayerOps.Offered;
    hide PlayerOps.Begin;
    if ops != [] {
      GradeStaysLegal(v, ops[..|ops| - 1], catalog, turn, bases);
    }
  }

  lemma VisitIsLegal(board: Board, grade: U8, upgradeCoin: Option<U8>, ops: seq<PlayerOps.Op>, pool: seq<Card>, seed: PlayerOps.Seed,
                     turn: U8, bases: Bases)
    requires WellFormed(bases) && LegalHand(board, pool, bases) && 1 <= grade <= 6
    ensures var r := PlayerOps.Verify(board, grade, upgradeCoin, ops, pool, seed, turn, bases);
            r.Some? ==> var board' := ShopLog.Strip(r.value.shop.board);
                        grade <= r.value.grade <= 6 && LegalHand(board', pool, bases) && LegalBoard(GhostBoard(board'), bases)
  {
    var r := PlayerOps.Verify(board, grade, upgradeCoin, ops, pool, seed, turn, bases);
    PlayerOpsLaws.VisitKeeps(board, grade, upgradeCoin, ops, pool, seed, turn, bases);
    if r.Some? {
      GoodIsLegal(ShopLog.Strip(r.value.shop.board), (set c | c in pool), bases);
      CardsOfStrip(r.value);
      VisitGrade(board, grade, upgradeCoin, ops, pool, seed, turn, bases);
    }
  }

  lemma VisitGrade(board: Board, grade: U8, upgradeCoin: Option<U8>, ops: seq<PlayerOps.Op>, pool: seq<Card>, seed: PlayerOps.Seed,
                   turn: U8, bases: Bases)
    requires 1 <= grade <= 6
    ensures var r := PlayerOps.Verify(board, grade, upgradeCoin, ops, pool, seed, turn, bases);
            r.Some? ==> grade <= r.value.grade <= 6
  {
    var catalog, v := Catalog.GetCatalog(pool, board, seed.catalog), PlayerOps.Enter(board, grade, upgradeCoin, seed.shop, turn, bases);
    if |ops| < PlayerOps.MAX_OPS && catalog.Some? && v.Some? {
      GradeStaysLegal(v.value, ops, catalog.value, turn, bases);
    }
  }

  /** The board's part of a ledger without repetition has none either, whatever ids it is given. */
  lemma CardsOfStrip(v: PlayerOps.Visit)
    requires PlayerOpsLaws.NoRepeat(PlayerOpsLaws.Ledger(v))
    ensures PlayerOpsLaws.NoRepeat(ShopLaws.Cards(ShopRenaming.FromBoard(ShopLog.Strip(v.shop.board), 0, []).board))
  {
    var plain := ShopRenaming.FromBoard(ShopLog.Strip(v.shop.board), 0, []);
    assert ShopLog.Strip(plain.board) == ShopLog.Strip(v.shop.board);
    PlayerOpsLaws.CountsIgnoreIds(plain.board, v.shop.board, 0);
    var cards := ShopLaws.Cards(v.shop.board);
    forall c: U16 ensures cards[c] <= 1 {
      assert PlayerOpsLaws.Ledger(v)[c] == cards[c] + multiset(v.sold)[c];
    }
  }

  // ----- one turn -----

  lemma WornField(states: seq<GhostState>, states': seq<GhostState>, index: nat, index': nat, turn: U8)
    requires Field(states, index, turn) && turn >= 1 && AllWear(states, states', turn)
    requires index' < 3 && |states'| == 3 && states'[index'].Active?
    ensures Field(states', index', turn)
  {
  }

  /** A turn of an open match: one more legal entry in the history, retired ghosts as they were; without a final place
      the player is alive and a ghost is active, with one the place is in 1 to 4. */
  lemma TurnKeeps(m: Match, setting: Setting, ops: seq<PlayerOps.Op>, stored: Seed, drawn: Seed, first: FirstIds, budget: nat, bases: Bases)
    requires WellFormed(bases) && Open(m, setting, bases)
    ensures var r := PlayTurn(m, setting, ops, stored, drawn, first, budget, bases);
            r.Some? ==>
              && |r.value.m.history| == |m.history| + 1 && m.history == r.value.m.history[..|m.history|]
              && LegalHistory(r.value.m.history, setting.pool, bases)
              && AllWear(m.states, r.value.m.states, |m.history| + 1)
              && r.value.m.health <= m.health && r.value.m.ghostIndex == m.ghostIndex
              && (r.value.place.None? ==> r.value.m.health > 0 && !AllRetired(r.value.m.states))
              && (r.value.place.Some? ==> 1 <= r.value.place.value <= 4)
              && (r.value.place == Some(1) ==> r.value.m.health > 0 && AllRetired(r.value.m.states))
  {
    hide BattleAll;
    hide PlayerOps.Verify;
    hide LegalHand;
    hide Field;
    var r := PlayTurn(m, setting, ops, stored, drawn, first, budget, bases);
    if r.Some? {
      var turn, before := TurnOf(m.history).value, LastTurn(m.history);
      VisitIsLegal(before.board, before.grade, m.upgradeCoin, ops, setting.pool, stored.visit, turn, bases);
      var v := PlayerOps.Verify(before.board, before.grade, m.upgradeCoin, ops, setting.pool, stored.visit, turn, bases).value;
      var dice := Dice(drawn.pvg, drawn.gvg, first, budget);
      var board := GhostBoard(ShopLog.Strip(v.shop.board));
      LaterSeasoned(m.states, m.ghostIndex, |m.history|);
      TurnWears(board, m.health, m.states, v.grade, GhostsOf(setting.rivals), m.ghostIndex, turn, dice, bases);
      PlacesAreLegal(board, m.health, m.states, v.grade, GhostsOf(setting.rivals), m.ghostIndex, turn, dice, bases);
      HistoryGrows(m.history, GradeAndBoard(v.grade, ShopLog.Strip(v.shop.board)), setting.pool, bases);
    }
  }

  lemma HistoryGrows(history: seq<GradeAndBoard>, last: GradeAndBoard, pool: seq<Card>, bases: Bases)
    requires LegalHistory(history, pool, bases) && |history| < 39
    requires 1 <= last.grade <= 6 && LegalBoard(GhostBoard(last.board), bases) && LegalHand(last.board, pool, bases)
    ensures LegalHistory(history + [last], pool, bases) && (history + [last])[..|history|] == history
  {
    assert LastTurn(history + [last]) == last;
  }

  /** When no place is final the next opponent is found, and the match stays open. */
  lemma NextTurnOpens(s: Store, player: Account, m: Match, m': Match, setting: Setting, seed: Seed, bases: Bases)
    requires Open(m, setting, bases) && AllWear(m.states, m'.states, |m.history| + 1)
    requires m'.health > 0 && !AllRetired(m'.states) && |m'.history| == |m.history| + 1 && LegalHistory(m'.history, setting.pool, bases)
    ensures var r := NextTurn(s, player, m', seed);
            && r.Some? && r.value.matches.Keys == s.matches.Keys + {player}
            && Open(r.value.matches[player], setting, bases)
            && r.value == s.(matches := s.matches[player := r.value.matches[player]])
            && r.value.matches[player].states == m'.states && r.value.matches[player].history == m'.history
  {
    SelectSucceeds(m'.states, m'.ghostIndex, seed.pick);
    LaterSeasoned(m.states, m.ghostIndex, |m.history|);
    var index := SelectGhost(m'.states, m'.ghostIndex, seed.pick).value;
    WornField(m.states, m'.states, m.ghostIndex, index, |m'.history|);
  }

  // ----- storage -----

  ghost predicate LegalBand(band: Band, bases: Bases) {
    Sane(band) && forall i :: 0 <= i < |band.info| ==> LegalGhost(band.ghosts[i], bases)
  }

  ghost predicate LegalBands(bands: Bands, bases: Bases) { forall b :: b in bands ==> LegalBand(bands[b], bases) }

  /** What every message leaves behind. */
  ghost predicate Legal(s: Store, bases: Bases) {
    && s.tables.Some? && s.tables.value.bases == bases && WellFormed(bases)
    && Ordered(s.leaderboard) && |s.leaderboard| <= LEADERBOARD_SIZE
    && (forall a :: a in s.eps ==> s.eps[a] >= MIN_EP)
    && LegalBands(s.bands, bases)
    && s.settings.Keys == s.matches.Keys
    && (forall a :: a in s.matches ==> a in s.eps && a in s.seeds && Open(s.matches[a], s.settings[a], bases))
  }

  lemma HistoryIsGhost(history: seq<GradeAndBoard>, pool: seq<Card>, bases: Bases)
    requires LegalHistory(history, pool, bases)
    ensures LegalGhost(GhostOf(history), bases)
  {
  }

  lemma AddKeepsLegal(bands: Bands, ep: U16, block: nat, player: Account, history: seq<GradeAndBoard>, pool: seq<Card>, bases: Bases)
    requires LegalBands(bands, bases) && LegalHistory(history, pool, bases)
    ensures LegalBands(AddGhost(bands, ep, block, player, history), bases)
  {
    hide Oldest;
    hide LegalGhost;
    HistoryIsGhost(history, pool, bases);
    var band, s := BandOf(bands, EpBand(ep)), Submission(block, player, GhostOf(history));
    AddIsSane(band, s);
    var after, slot := Add(band, s), Slot(band.info, s.account);
    forall i | 0 <= i < |after.info| ensures LegalGhost(after.ghosts[i], bases) {
      assert i != slot ==> i < |band.info| && after.ghosts[i] == band.ghosts[i];
    }
  }

  lemma RivalsAreLegal(bands: Bands, ep: U16, tape: Tape, order: Tape, bases: Bases)
    requires LegalBands(bands, bases)
    ensures var r := Choose(bands, ep, tape, order); r.Some? && LegalRivals(r.value, bases)
  {
    hide LegalGhost;
    ChoiceIsFair(bands, ep, tape, order);
    var r := Choose(bands, ep, tape, order).value;
    forall i | 0 <= i < 3 && r[i].Some? ensures LegalGhost(r[i].value.1, bases) {
      assert Stored(bands, r[i].value);
      var p :| IsAt(bands, p, r[i].value);
      assert LegalBand(bands[p.band], bases);
    }
  }

  lemma NewMatchIsOpen(ep: U16, pool: seq<Card>, rivals: seq<Rival>, bases: Bases)
    requires WellFormed(bases) && LegalRivals(rivals, bases) && UniqueIds(pool)
    ensures Open(NewMatch(ep), Setting(pool, rivals), bases)
  {
    var m := NewMatch(ep);
    var plain := ShopRenaming.FromBoard([], 0, []);
    assert plain.board == [];
    assert m.states[0].Active?;
    assert LegalHand([], pool, bases);
  }

  /** Choosing the rivals never fails; a start fails exactly when no tables are set or no pool can be built. */
  lemma StartKeepsLegal(s: Store, player: Account, deck: seq<U16>, seed: Seed, bases: Bases)
    requires Legal(s, bases)
    ensures var r := Start(s, player, deck, seed);
            && (r.None? <==> Setup.Pool(deck, bases, s.tables.value.fixed, s.tables.value.built).None?)
            && (r.Some? ==> Legal(r.value, bases))
  {
    hide Open;
    hide LegalBands;
    hide LegalRivals;
    hide Choose;
    var ep := EpAtStart(s, player);
    RivalsAreLegal(s.bands, ep, seed.places, seed.order, bases);
    var r := Start(s, player, deck, seed);
    if r.Some? {
      var setting := r.value.settings[player];
      Setup.PoolIsRegular(deck, bases, s.tables.value.fixed, s.tables.value.built, 0);
      NewMatchIsOpen(ep, setting.pool, setting.rivals, bases);
    }
  }

  lemma FinishMatchKeepsLegal(s: Store, player: Account, place: nat, history: seq<GradeAndBoard>, block: nat, bases: Bases)
    requires Legal(s, bases) && player in s.matches && 1 <= place <= 4 && LegalHistory(history, s.settings[player].pool, bases)
    ensures var r := FinishMatch(s, player, place, history, block);
            r.Some? && Legal(r.value, bases) && player !in r.value.matches
  {
    hide Open;
    hide LegalBands;
    hide LegalHistory;
    NewEpIsLegal(place, s.eps[player]);
    var ep := CalcNewEp(place, s.eps[player]).value;
    RecordOrdered(s.leaderboard, ep, player);
    TopOrdered(Record(s.leaderboard, ep, player), LEADERBOARD_SIZE);
    AddKeepsLegal(s.bands, s.eps[player], block, player, history, s.settings[player].pool, bases);
  }

  /** For a player in a match, finishing a turn fails only when 39 turns are recorded already, the operations are rejected
      or the battles fail; everything the contract expects afterwards is there. */
  lemma FinishKeepsLegal(s: Store, player: Account, ops: seq<PlayerOps.Op>, seed: Seed, block: nat, first: FirstIds, budget: nat,
                         bases: Bases)
    requires Legal(s, bases) && player in s.matches
    ensures var r := Finish(s, player, ops, seed, block, first, budget);
            && (r.None? <==> PlayTurn(s.matches[player], s.settings[player], ops, s.seeds[player], seed, first, budget, bases).None?)
            && (r.Some? ==> Legal(r.value, bases))
  {
    hide Open;
    hide LegalBands;
    hide LegalHistory;
    hide PlayTurn;
    hide NextTurn;
    hide FinishMatch;
    var m, setting := s.matches[player], s.settings[player];
    TurnKeeps(m, setting, ops, s.seeds[player], seed, first, budget, bases);
    var t := PlayTurn(m, setting, ops, s.seeds[player], seed, first, budget, bases);
    if t.Some? {
      if t.value.place.Some? {
        FinishMatchKeepsLegal(s, player, t.value.place.value, t.value.m.history, block, bases);
      } else {
        NextTurnOpens(s, player, m, t.value.m, setting, seed, bases);
      }
    }
  }

  /** Both stores hold the same of this player. */
  ghost predicate SameOf(s: Store, s': Store, player: Account) {
    && (player in s'.eps <==> player in s.eps) && (player in s.eps ==> s'.eps[player] == s.eps[player])
    && (player in s'.seeds <==> player in s.seeds) && (player in s.seeds ==> s'.seeds[player] == s.seeds[player])
    && (player in s'.settings <==> player in s.settings) && (player in s.settings ==> s'.settings[player] == s.settings[player])
    && (player in s'.matches <==> player in s.matches) && (player in s.matches ==> s'.matches[player] == s.matches[player])
  }

  /** What one player sends changes nothing that is stored of another. */
  lemma OthersLeaveAlone(s: Store, msg: Message, player: Account)
    requires msg.player != player
    ensures SameOf(s, Receive(s, msg), player)
  {
    hide PlayTurn;
    hide Choose;
    hide Setup.Pool;
    hide Record;
    hide AddGhost;
    hide SelectGhost;
    hide CalcNewEp;
  }

  lemma HandleKeepsLegal(s: Store, msg: Message, bases: Bases)
    requires Legal(s, bases)
    ensures Legal(Receive(s, msg), bases)
  {
    hide Legal;
    match msg
    case StartMtc(player, deck, seed) => StartKeepsLegal(s, player, deck, seed, bases);
    case FinishMtcShop(player, ops, seed, block, first, budget) =>
      if player in s.matches {
        FinishKeepsLegal(s, player, ops, seed, block, first, budget, bases);
      }
  }

  /** After any sequence of messages storage is legal; in particular every match in progress is open. */
  lemma {:induction false} ReachableIsLegal(tables: Tables, msgs: seq<Message>)
    requires WellFormed(tables.bases)
    ensures Legal(ReceiveAll(Genesis(tables), msgs), tables.bases)
    decreases |msgs|
  {
    hide Receive;
    if msgs != [] {
      ReachableIsLegal(tables, msgs[..|msgs| - 1]);
      HandleKeepsLegal(ReceiveAll(Genesis(tables), msgs[..|msgs| - 1]), msgs[|msgs| - 1], tables.bases);
    }
  }
}
