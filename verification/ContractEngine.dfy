/** The contract as an object whose messages change its storage in place; a panic rolls storage back. */
module ContractEngine {
  import opened Types
  import opened Leaderboard
  import opened Matchmaking
  import opened GhostChoice
  import opened Organizer
  import opened Contract
  import opened OrganizerEngine
  import PlayerOps
  import Setup
  import ShopLog
  import VisitEngine

  /** The marches of the turn that the message plays end within its budget. */
  ghost predicate BudgetSuffices(s: Store, player: Account, ops: seq<PlayerOps.Op>, seed: Seed, first: FirstIds, budget: nat) {
    s.tables.Some? && player in s.settings && player in s.matches && player in s.seeds && TurnOf(s.matches[player].history).Some? ==>
      var m, turn := s.matches[player], TurnOf(s.matches[player].history).value;
      var last := LastTurn(m.history);
      var v := PlayerOps.Verify(last.board, last.grade, m.upgradeCoin, ops, s.settings[player].pool, s.seeds[player].visit, turn,
                                s.tables.value.bases);
      v.Some? ==> TurnFinishes(GhostBoard(ShopLog.Strip(v.value.shop.board)), m.states, GhostsOf(s.settings[player].rivals), turn,
                               Dice(seed.pvg, seed.gvg, first, budget), s.tables.value.bases)
  }

  class Game {
    var tables: Option<Tables>
    var bands: Bands
    var leaderboard: seq<Row>
    var eps: map<Account, U16>
    var seeds: map<Account, Seed>
    var settings: map<Account, Setting>
    var matches: map<Account, Match>

    function View(): Store
      reads this
    {
      Store(tables, bands, leaderboard, eps, seeds, settings, matches)
    }

    ghost predicate Valid()
      reads this
    {
      Ordered(leaderboard) && |leaderboard| <= LEADERBOARD_SIZE
    }

    constructor (tables: Tables)
      ensures Valid() && View() == Genesis(tables)
    {
      this.tables, bands, leaderboard, eps, seeds, settings, matches := Some(tables), map[], [], map[], map[], map[], map[];
    }

    method Rollback(s: Store)
      modifies this
      ensures View() == s
    {
      tables, bands, leaderboard, eps, seeds, settings, matches :=
        s.tables, s.bands, s.leaderboard, s.eps, s.seeds, s.settings, s.matches;
    }

    // ----- starting a match -----

    method CreateOrUpdatePlayerEp(player: Account) returns (ep: U16)
      modifies this`eps
      ensures ep == EpAtStart(old(View()), player) && eps == old(eps)[player := ep]
    {
      if player in eps {
        if player in matches {
          ep := ReduceEp(eps[player], EP_UNFINISH_PENALTY);
        } else {
          assert eps == eps[player := eps[player]];
          return eps[player];
        }
      } else {
        ep := INITIAL_EP;
      }
      eps := eps[player := ep];
    }

    method StartMtcMessage(player: Account, deck: seq<U16>, seed: Seed) returns (ok: bool)
      requires Valid()
      modifies this
      ensures Valid() && ok == Start(old(View()), player, deck, seed).Some?
      ensures View() == Receive(old(View()), StartMtc(player, deck, seed))
    {
      hide Choose;
      hide Setup.Pool;
      var before := View();
      if tables.None? {
        return false;
      }
      var ep := CreateOrUpdatePlayerEp(player);
      seeds := seeds[player := seed];
      var pool := Setup.BuildPool(deck, tables.value.bases, tables.value.fixed, tables.value.built);
      if pool.None? {
        Rollback(before);
        return false;
      }
      var rivals := ChooseGhosts(bands, ep, seed.places, seed.order);
      if rivals.None? {
        Rollback(before);
        return false;
      }
      settings := settings[player := Setting(pool.value, rivals.value)];
      matches := matches[player := NewMatch(ep)];
      return true;
    }

    // ----- finishing a turn -----

    method AddMatchmakingGhost(player: Account, ep: U16, block: nat, history: seq<GradeAndBoard>)
      modifies this`bands
      ensures bands == AddGhost(old(bands), ep, block, player, history)
    {
      hide Slot;
      var epBand := EpBand(ep);
      var band := BandOf(bands, epBand);
      var info, index := AddEntry(band.info, block, player);
      bands := bands[epBand := Band(info, band.ghosts[index := GhostOf(history)])];
    }

    method FinishMtc(player: Account, place: nat, history: seq<GradeAndBoard>, block: nat) returns (ok: bool)
      requires Valid()
      modifies this
      ensures Valid() && FinishMatch(old(View()), player, place, history, block) == if ok then Some(View()) else None
    {
      hide AddGhost;
      hide Record;
      if player !in eps {
        return false;
      }
      var oldEp := eps[player];
      var ep := CalcNewEp(place, oldEp);
      if ep.None? {
        return false;
      }
      var updated := UpdateLeaderboard(leaderboard, ep.value, player);
      RecordOrdered(leaderboard, ep.value, player);
      TopOrdered(Record(leaderboard, ep.value, player), LEADERBOARD_SIZE);
      if updated.Some? {
        leaderboard := updated.value;
      }
      eps := eps[player := ep.value];
      if LastTurn(history).board != [] {
        AddMatchmakingGhost(player, oldEp, block, history);
      }
      settings := settings - {player};
      matches := matches - {player};
      return true;
    }

    method FinishMtcTurn(player: Account, m: Match, seed: Seed) returns (ok: bool)
      requires Valid()
      modifies this`matches
      ensures NextTurn(old(View()), player, m, seed) == if ok then Some(View()) else None
    {
      hide SelectGhost;
      var index := SelectGhost(m.states, m.ghostIndex, seed.pick);
      if index.None? {
        return false;
      }
      matches := matches[player := m.(upgradeCoin := PlayerOps.DecreaseUpgradeCoin(m.upgradeCoin), ghostIndex := index.value)];
      return true;
    }

    method FinishMtcShopMessage(player: Account, ops: seq<PlayerOps.Op>, seed: Seed, block: nat, first: FirstIds, budget: nat)
      returns (ok: bool)
      requires Valid() && BudgetSuffices(View(), player, ops, seed, first, budget)
      modifies this
      ensures Valid() && ok == Finish(old(View()), player, ops, seed, block, first, budget).Some?
      ensures View() == Receive(old(View()), FinishMtcShop(player, ops, seed, block, first, budget))
    {
      hide BattleAll;
      hide PlayerOps.Verify;
      hide TurnFinishes;
      hide FinishMatch;
      hide NextTurn;
      hide Ordered;
      var before := View();
      if tables.None? || player !in settings || player !in matches || player !in seeds {
        return false;
      }
      var bases, m, setting := tables.value.bases, matches[player], settings[player];
      var turn := TurnOf(m.history);
      if turn.None? {
        return false;
      }
      var last := LastTurn(m.history);
      var visit := VisitEngine.VerifyPlayerOperations(last.board, last.grade, m.upgradeCoin, ops, setting.pool, seeds[player].visit,
                                                      turn.value, bases);
      if visit.None? {
        return false;
      }
      var (board, grade, upgradeCoin) := visit.value;
      var standings := new Standings(m.health, m.states);
      var place;
      ok, place := standings.BattleAllHere(GhostBoard(board), grade, GhostsOf(setting.rivals), m.ghostIndex, turn.value,
                                           Dice(seed.pvg, seed.gvg, first, budget), bases);
      if !ok {
        return;
      }
      var after := Match(standings.health, m.history + [GradeAndBoard(grade, board)], upgradeCoin, standings.states[..], m.ghostIndex);
      assert PlayTurn(m, setting, ops, seeds[player], seed, first, budget, bases) == Some(TurnResult(after, place));
      if place.Some? {
        ok := FinishMtc(player, place.value, after.history, block);
      } else {
        ok := FinishMtcTurn(player, after, seed);
      }
      if !ok {
        Rollback(before);
        return;
      }
      seeds := seeds[player := seed];
    }
  }
}
