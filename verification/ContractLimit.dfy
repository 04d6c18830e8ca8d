/** The turn limit of the contract is within reach: a player who does nothing, against seats without ghosts, records 39 turns
    and can then finish no further one. */
module ContractLimit {
  import opened Types
  import opened Rng
  import opened Leaderboard
  import opened GhostChoice
  import opened Organizer
  import opened Contract
  import Catalog
  import ContractLaws
  import OrganizerLaws
  import PlayerOps
  import Setup
  import Shop
  import ShopRenaming

  // ----- a visit that does nothing -----

  lemma {:induction false} NothingOnBoard(pool: seq<Card>)
    ensures Catalog.OffBoard(pool, []) == pool
  {
    if pool != [] {
      NothingOnBoard(pool[1..]);
    }
  }

  /** With nothing on the board and no operations a visit leaves nothing on the board. */
  lemma IdleVisit(upgradeCoin: Option<U8>, pool: seq<Card>, seed: PlayerOps.Seed, turn: U8, bases: Bases)
    requires |pool| >= 35
    ensures var r := PlayerOps.Verify([], 1, upgradeCoin, [], pool, seed, turn, bases);
            r.Some? && r.value.shop.board == [] && r.value.grade == 1 && r.value.upgradeCoin == upgradeCoin
  {
    hide Catalog.GetCatalog;
    Catalog.CatalogIsLegal(pool, [], seed.catalog);
    NothingOnBoard(pool);
    var s := ShopRenaming.FromBoard([], 0, seed.shop);
    assert s.board == [];
    assert Shop.BoardPres(s.board) == [];
  }

  // ----- battles without emos -----

  lemma EmptyFight(tape: Tape, first: nat, budget: nat, bases: Bases)
    ensures Fight([], [], tape, first, budget, bases) == Some((0, 0))
  {
  }

  lemma IdleDuel(health: U8, state: GhostState, turn: U8, dice: Dice, bases: Bases)
    requires state.Active? && state.health > 0
    ensures BattlePvg(1, health, [], state, [], turn, dice, bases) == Some((health, state))
    ensures forall other: GhostState :: other.Active? && other.health > 0 ==>
              BattleGvg(state, [], other, [], turn, dice, bases) == Some((state, other))
  {
    EmptyFight(dice.pvg, dice.first.pvg, dice.budget, bases);
    EmptyFight(dice.gvg, dice.first.gvg, dice.budget, bases);
    hide Fight;
  }

  ghost predicate AllStanding(states: seq<GhostState>) {
    |states| == 3 && forall i :: 0 <= i < 3 ==> states[i].Active? && states[i].health > 0
  }

  lemma IdleBattles(health: U8, states: seq<GhostState>, index: nat, turn: U8, dice: Dice, bases: Bases)
    requires AllStanding(states) && index < 3 && health > 0
    ensures BattleAll([], health, states, 1, [[], [], []], index, turn, dice, bases) == Some((health, states, None))
  {
    hide BattlePvg;
    hide BattleGvg;
    OrganizerLaws.ActiveCount(states);
    var i, j, k := Seat(0, index), Seat(1, index), Seat(2, index);
    IdleDuel(health, states[i], turn, dice, bases);
    IdleDuel(health, states[j], turn, dice, bases);
    assert states[i := states[i]][j := states[j]][k := states[k]] == states;
    assert !AllRetired(states);
  }

  // ----- a match in which nothing happens -----

  ghost predicate Idle(m: Match, setting: Setting, turns: nat) {
    && m.health > 0 && AllStanding(m.states) && m.ghostIndex < 3
    && m.history == seq(turns, _ => GradeAndBoard(1, []))
    && setting.rivals == [None, None, None] && |setting.pool| >= 35
  }

  lemma IdleTurn(m: Match, setting: Setting, stored: Seed, drawn: Seed, first: FirstIds, budget: nat, bases: Bases)
    requires Idle(m, setting, |m.history|) && |m.history| < 39
    ensures PlayTurn(m, setting, [], stored, drawn, first, budget, bases)
         == Some(TurnResult(m.(history := m.history + [GradeAndBoard(1, [])]), None))
  {
    hide BattleAll;
    hide PlayerOps.Verify;
    var turn := |m.history| + 1;
    assert LastTurn(m.history) == GradeAndBoard(1, []);
    IdleVisit(m.upgradeCoin, setting.pool, stored.visit, turn, bases);
    IdleBattles(m.health, m.states, m.ghostIndex, turn, Dice(drawn.pvg, drawn.gvg, first, budget), bases);
    assert GhostsOf(setting.rivals) == [[], [], []];
    assert GhostBoard([]) == [];
  }

  /** The player is in a match that has gone on for these turns without anything happening. */
  ghost predicate IdleFor(s: Store, player: Account, turns: nat) {
    && s.tables.Some? && player in s.settings && player in s.matches && player in s.seeds
    && Idle(s.matches[player], s.settings[player], turns)
  }

  lemma OneMoreIdle(s: Store, player: Account, turns: nat, seed: Seed, block: nat, first: FirstIds, budget: nat)
    requires IdleFor(s, player, turns) && turns < 39
    ensures IdleFor(Receive(s, FinishMtcShop(player, [], seed, block, first, budget)), player, turns + 1)
  {
    hide PlayTurn;
    hide SelectGhost;
    var m, setting := s.matches[player], s.settings[player];
    assert |m.history| == turns;
    IdleTurn(m, setting, s.seeds[player], seed, first, budget, s.tables.value.bases);
    OrganizerLaws.SelectSucceeds(m.states, m.ghostIndex, seed.pick);
    assert m.states[0].Active?;
    var index := SelectGhost(m.states, m.ghostIndex, seed.pick).value;
    var m' := Match(m.health, m.history + [GradeAndBoard(1, [])], PlayerOps.DecreaseUpgradeCoin(m.upgradeCoin), m.states, index);
    assert Receive(s, FinishMtcShop(player, [], seed, block, first, budget))
        == s.(matches := s.matches[player := m'], seeds := s.seeds[player := seed]);
    assert m'.history == seq(turns + 1, _ => GradeAndBoard(1, []));
  }

  lemma NobodyStored(ep: U16, tape: Tape, order: Tape)
    ensures Choose(map[], ep, tape, order) == Some([None, None, None])
  {
    var bands: Bands := map[];
    hide Choose;
    ChoiceIsFair(bands, ep, tape, order);
    var r := Choose(bands, ep, tape, order).value;
    assert forall rival :: !Stored(bands, rival);
    assert r[0].None? && r[1].None? && r[2].None?;
    assert r == [None, None, None];
  }

  lemma FirstIdle(tables: Tables, player: Account, deck: seq<U16>, seed: Seed)
    requires var pool := Setup.Pool(deck, tables.bases, tables.fixed, tables.built); pool.Some? && |pool.value| >= 35
    ensures IdleFor(Receive(Genesis(tables), StartMtc(player, deck, seed)), player, 0)
  {
    hide Choose;
    hide Setup.Pool;
    NobodyStored(INITIAL_EP, seed.places, seed.order);
    assert AllStanding(InitialGhostStates(INITIAL_EP));
  }

  /** These messages finish turns of the player without any operation. */
  ghost predicate DoNothing(turns: seq<Message>, player: Account) {
    forall i :: 0 <= i < |turns| ==> turns[i].FinishMtcShop? && turns[i].player == player && turns[i].ops == []
  }

  lemma {:induction false} IdleTurns(tables: Tables, player: Account, deck: seq<U16>, seed: Seed, turns: seq<Message>)
    requires var pool := Setup.Pool(deck, tables.bases, tables.fixed, tables.built); pool.Some? && |pool.value| >= 35
    requires DoNothing(turns, player) && |turns| <= 39
    ensures IdleFor(ReceiveAll(Genesis(tables), [StartMtc(player, deck, seed)] + turns), player, |turns|)
    decreases |turns|
  {
    hide Receive;
    hide IdleFor;
    hide Setup.Pool;
    var start, all := [StartMtc(player, deck, seed)], [StartMtc(player, deck, seed)] + turns;
    if turns == [] {
      assert all == start && start[..0] == [];
      FirstIdle(tables, player, deck, seed);
      assert ReceiveAll(Genesis(tables), start[..0]) == Genesis(tables);
    } else {
      var before, last := turns[..|turns| - 1], turns[|turns| - 1];
      IdleTurns(tables, player, deck, seed, before);
      assert all[..|all| - 1] == start + before && all[|all| - 1] == last;
      OneMoreIdle(ReceiveAll(Genesis(tables), start + before), player, |before|, last.seed, last.block, last.first, last.budget);
    }
  }

  /** After 39 recorded turns no message can finish another one, whatever it holds. */
  lemma NoFortiethTurn(s: Store, player: Account, ops: seq<PlayerOps.Op>, seed: Seed, block: nat, first: FirstIds, budget: nat)
    requires player in s.matches && |s.matches[player].history| == 39
    ensures Receive(s, FinishMtcShop(player, ops, seed, block, first, budget)) == s
  {
    hide PlayerOps.Verify;
    hide BattleAll;
    hide FinishMatch;
    hide NextTurn;
    assert TurnOf(s.matches[player].history).None?;
  }

  ghost predicate NoNewStart(msgs: seq<Message>, player: Account) {
    forall i :: 0 <= i < |msgs| && msgs[i].player == player ==> msgs[i].FinishMtcShop?
  }

  /** Whatever anybody sends, a match with 39 recorded turns stays as it is until its player starts a new one. */
  lemma {:induction false} StuckForGood(s: Store, player: Account, msgs: seq<Message>)
    requires player in s.matches && |s.matches[player].history| == 39 && NoNewStart(msgs, player)
    ensures player in ReceiveAll(s, msgs).matches && ReceiveAll(s, msgs).matches[player] == s.matches[player]
    decreases |msgs|
  {
    hide Receive;
    if msgs != [] {
      var before, msg := msgs[..|msgs| - 1], msgs[|msgs| - 1];
      StuckForGood(s, player, before);
      var s' := ReceiveAll(s, before);
      if msg.player == player {
        NoFortiethTurn(s', player, msg.ops, msg.seed, msg.block, msg.first, msg.budget);
      } else {
        ContractLaws.OthersLeaveAlone(s', msg, player);
      }
    }
  }

  /** The limit is within reach. Over any table, with a deck whose pool has the 35 cards of a catalog: a new player who
      finishes turn after turn without an operation has every one recorded, and after the 39th the match stays as it is,
      whatever anybody sends, until the player starts a new one. */
  lemma LimitIsReached(tables: Tables, player: Account, deck: seq<U16>, seed: Seed, turns: seq<Message>, later: seq<Message>)
    requires var pool := Setup.Pool(deck, tables.bases, tables.fixed, tables.built); pool.Some? && |pool.value| >= 35
    requires DoNothing(turns, player) && |turns| <= 39 && NoNewStart(later, player)
    ensures var s := ReceiveAll(Genesis(tables), [StartMtc(player, deck, seed)] + turns);
            && player in s.matches && |s.matches[player].history| == |turns|
            && (|turns| == 39 ==>
                  player in ReceiveAll(s, later).matches && ReceiveAll(s, later).matches[player] == s.matches[player])
  {
    hide ReceiveAll;
    hide Setup.Pool;
    IdleTurns(tables, player, deck, seed, turns);
    if |turns| == 39 {
      StuckForGood(ReceiveAll(Genesis(tables), [StartMtc(player, deck, seed)] + turns), player, later);
    }
  }

  // ----- pools with enough cards -----

  lemma {:induction false} DeckIsLarge(baseIds: seq<U16>, bases: Bases, first: nat)
    ensures var r := Setup.Deck(baseIds, bases, first); r.Some? ==> |r.value| >= 4 * |baseIds|
  {
    if baseIds != [] && Setup.Deck(baseIds, bases, first).Some? {
      DeckIsLarge(baseIds[1..], bases, first + Setup.PoolCount(bases[baseIds[0]].grade).value);
    }
  }

  /** With three fixed bases every pool has the cards of a catalog. */
  lemma PoolIsLarge(deck: seq<U16>, tables: Tables)
    requires |tables.fixed| >= 3
    ensures var pool := Setup.Pool(deck, tables.bases, tables.fixed, tables.built); pool.Some? ==> |pool.value| >= 35
  {
    var baseIds := Setup.Selected(deck, tables.bases, tables.built);
    if baseIds.Some? {
      DeckIsLarge(baseIds.value + tables.fixed, tables.bases, 1);
    }
  }
}
