/** Over a firm table, after any messages, a turn can fail for three reasons only: 39 turns are recorded, the operations are
    rejected, or both boards of a march of the turn still stand after tick 255. */
module ContractFailures {
  import opened Types
  import opened Rng
  import opened Leaderboard
  import opened Organizer
  import opened OrganizerLaws
  import opened OrganizerEngine
  import opened Contract
  import opened ContractLaws
  import opened ContractMild
  import opened ShopMild
  import Battle
  import BattleIndexes
  import ContractEngine
  import ContractRuns
  import March
  import PlayerOps
  import ShopLog

  function FirmIn(bases: Bases): Kind { ability => BattleIndexes.Firm(ability, bases) }

  /** A table over which no ability, not even a granted one, damages a whole board, sets an unknown base or divides by zero. */
  ghost predicate FirmThroughout(bases: Bases) { WellFormed(bases) && MildTable(bases, FirmIn(bases)) }

  // ----- one fight -----

  /** Both boards still stand when the ticks of the march are used up. */
  ghost predicate Stalls(zero: seq<GhostEmo>, one: seq<GhostEmo>, tape: Tape, first: nat, budget: nat, bases: Bases) {
    var f0, f1 := Fighters(zero, first, bases), Fighters(one, first + |zero|, bases);
    f0.Some? && f1.Some? && BattleIndexes.OutOfTicks(Battle.State(f0.value, f1.value, [], first + |zero| + |one|, tape), budget, bases)
  }

  lemma {:induction false} FightersFirm(board: seq<GhostEmo>, first: nat, bases: Bases)
    requires MildGhostBoard(board, FirmIn(bases))
    ensures var r := Fighters(board, first, bases); r.Some? ==> BattleIndexes.FirmBoard(r.value, bases)
  {
    if board != [] {
      assert board[0] in board;
      FightersFirm(board[1..], first + 1, bases);
      MildIsFirm(board[0].attr.abilities, bases);
    }
  }

  lemma MildIsFirm(abilities: seq<Ability>, bases: Bases)
    requires MildList(abilities, FirmIn(bases))
    ensures BattleIndexes.FirmList(abilities, bases)
  {
  }

  lemma TableIsFirm(bases: Bases)
    requires MildTable(bases, FirmIn(bases))
    ensures BattleIndexes.FirmTable(bases)
  {
    forall id | id in bases ensures BattleIndexes.FirmList(bases[id].abilities, bases) {
      MildIsFirm(bases[id].abilities, bases);
    }
  }

  /** A fight between legal boards that ends within its budget fails exactly when it stalls. */
  lemma FightFailsWhenStalled(zero: seq<GhostEmo>, one: seq<GhostEmo>, tape: Tape, first: nat, budget: nat, bases: Bases)
    requires FirmThroughout(bases) && LegalBoard(zero, bases) && LegalBoard(one, bases)
    requires MildGhostBoard(zero, FirmIn(bases)) && MildGhostBoard(one, FirmIn(bases))
    requires Finishes(zero, one, tape, first, budget, bases)
    ensures Fight(zero, one, tape, first, budget, bases).None? <==> Stalls(zero, one, tape, first, budget, bases)
  {
    hide March.MarchResult;
    hide March.Ready;
    hide BattleIndexes.OutOfTicks;
    hide BattleIndexes.FirmBoard;
    hide LegalBoard;
    FightersReady(zero, one, tape, first, bases);
    FightersFirm(zero, first, bases);
    FightersFirm(one, first + |zero|, bases);
    TableIsFirm(bases);
    var f0, f1 := Fighters(zero, first, bases).value, Fighters(one, first + |zero|, bases).value;
    BattleIndexes.MarchFailsOnlyAtLimit(Battle.State(f0, f1, [], first + |zero| + |one|, tape), budget, bases);
  }

  // ----- one turn -----

  /** A march of the turn stalls: the player's or, while more than one ghost is active, the other two ghosts'. */
  ghost predicate TurnStalls(board: seq<GhostEmo>, states: seq<GhostState>, ghosts: seq<Ghost>, index: nat, turn: U8,
                             dice: Dice, bases: Bases)
    requires |states| == 3 && |ghosts| == 3 && index < 3
  {
    var at := (i: nat) requires i < 3 => GhostBoardAt(ghosts[i], states[i], turn);
    if |ActiveIndexes(states)| > 1 then
      var i, j, k := Seat(0, index), Seat(1, index), Seat(2, index);
      || (at(i).Some? && Stalls(board, at(i).value.board, dice.pvg, dice.first.pvg, dice.budget, bases))
      || (at(j).Some? && at(k).Some?
          && Stalls(at(j).value.board, at(k).value.board, dice.gvg, dice.first.gvg, dice.budget, bases))
    else
      var i := FirstActive(states);
      i.Some? && at(i.value).Some? && Stalls(board, at(i.value).value.board, dice.pvg, dice.first.pvg, dice.budget, bases)
  }

  lemma PvgFailsWhenStalled(board: seq<GhostEmo>, states: seq<GhostState>, ghosts: seq<Ghost>, turn: U8, dice: Dice, bases: Bases, i: nat)
    requires FirmThroughout(bases) && LegalBoard(board, bases) && MildGhostBoard(board, FirmIn(bases))
    requires Ready(ghosts, states, turn, bases, FirmIn(bases)) && turn >= 1 && i < 3
    requires PvgFinishes(board, states[i], ghosts[i], turn, dice, bases)
    ensures var g := GhostBoardAt(ghosts[i], states[i], turn);
            g.Some? && (Fight(board, g.value.board, dice.pvg, dice.first.pvg, dice.budget, bases).None?
                        <==> Stalls(board, g.value.board, dice.pvg, dice.first.pvg, dice.budget, bases))
  {
    hide Finishes;
    hide Fight;
    hide Stalls;
    BroughtBoard(ghosts, states, turn, bases, FirmIn(bases), i);
    FightFailsWhenStalled(board, GhostBoardAt(ghosts[i], states[i], turn).value.board, dice.pvg, dice.first.pvg, dice.budget, bases);
  }

  lemma GvgFailsWhenStalled(states: seq<GhostState>, ghosts: seq<Ghost>, turn: U8, dice: Dice, bases: Bases, i: nat, j: nat)
    requires FirmThroughout(bases) && Ready(ghosts, states, turn, bases, FirmIn(bases)) && turn >= 1 && i < 3 && j < 3
    requires GvgFinishes(states[i], ghosts[i], states[j], ghosts[j], turn, dice, bases)
    ensures var g0, g1 := GhostBoardAt(ghosts[i], states[i], turn), GhostBoardAt(ghosts[j], states[j], turn);
            g0.Some? && g1.Some? && (Fight(g0.value.board, g1.value.board, dice.gvg, dice.first.gvg, dice.budget, bases).None?
                                     <==> Stalls(g0.value.board, g1.value.board, dice.gvg, dice.first.gvg, dice.budget, bases))
  {
    hide Finishes;
    hide Fight;
    hide Stalls;
    BroughtBoard(ghosts, states, turn, bases, FirmIn(bases), i);
    BroughtBoard(ghosts, states, turn, bases, FirmIn(bases), j);
    FightFailsWhenStalled(GhostBoardAt(ghosts[i], states[i], turn).value.board, GhostBoardAt(ghosts[j], states[j], turn).value.board,
                          dice.gvg, dice.first.gvg, dice.budget, bases);
  }

  lemma MarchesFailWhenStalled(board: seq<GhostEmo>, states: seq<GhostState>, ghosts: seq<Ghost>, index: nat, turn: U8, dice: Dice,
                               bases: Bases)
    requires FirmThroughout(bases) && LegalBoard(board, bases) && MildGhostBoard(board, FirmIn(bases))
    requires Ready(ghosts, states, turn, bases, FirmIn(bases)) && turn >= 1 && |ghosts| == 3 && Field(states, index, turn)
    requires TurnFinishes(board, states, ghosts, turn, dice, bases)
    ensures MarchesSucceed(board, states, ghosts, index, turn, dice, bases) <==> !TurnStalls(board, states, ghosts, index, turn, dice, bases)
  {
    hide PvgFinishes;
    hide GvgFinishes;
    hide GhostBoardAt;
    hide Fight;
    hide Stalls;
    hide Ready;
    hide LegalBoard;
    if |ActiveIndexes(states)| > 1 {
      var i, j, k := Seat(0, index), Seat(1, index), Seat(2, index);
      PvgFailsWhenStalled(board, states, ghosts, turn, dice, bases, i);
      GvgFailsWhenStalled(states, ghosts, turn, dice, bases, j, k);
    } else {
      SomeActive(states, index);
      PvgFailsWhenStalled(board, states, ghosts, turn, dice, bases, FirstActive(states).value);
    }
  }

  lemma SomeActive(states: seq<GhostState>, index: nat)
    requires index < |states| && states[index].Active?
    ensures FirstActive(states).Some?
  {
  }

  // ----- reachable turns -----

  /** After any messages, a turn whose marches end within the budget is accepted exactly when fewer than 39 turns are recorded,
      the operations are accepted and no march of the turn leaves both boards standing after tick 255. */
  lemma ReachableTurnStalls(tables: Tables, msgs: seq<Message>, player: Account, ops: seq<PlayerOps.Op>, seed: Seed, block: nat,
                            first: FirstIds, budget: nat)
    requires FirmThroughout(tables.bases) && player in ReceiveAll(Genesis(tables), msgs).matches
    requires ContractEngine.BudgetSuffices(ReceiveAll(Genesis(tables), msgs), player, ops, seed, first, budget)
    ensures var s := ReceiveAll(Genesis(tables), msgs);
            && player in s.settings && player in s.seeds && |s.matches[player].history| <= 39
            && var m, setting := s.matches[player], s.settings[player];
               var turn, last := |m.history| + 1, LastTurn(m.history);
               var v := PlayerOps.Verify(last.board, last.grade, m.upgradeCoin, ops, setting.pool, s.seeds[player].visit, turn,
                                         tables.bases);
               && |m.states| == 3 && |setting.rivals| == 3 && m.ghostIndex < 3
               && (Handle(s, FinishMtcShop(player, ops, seed, block, first, budget)).Some? <==>
                     turn < 40 && v.Some?
                     && !TurnStalls(GhostBoard(ShopLog.Strip(v.value.shop.board)), m.states, GhostsOf(setting.rivals), m.ghostIndex,
                                    turn, Dice(seed.pvg, seed.gvg, first, budget), tables.bases))
  {
    hide ReceiveAll;
    hide Handle;
    hide PlayerOps.Verify;
    hide MarchesSucceed;
    hide TurnStalls;
    hide TurnFinishes;
    hide MildTable;
    hide MildHistory;
    hide MildRivals;
    hide MildBands;
    hide Field;
    hide LegalHistory;
    hide LegalRivals;
    hide LegalBands;
    hide GhostBoard;
    hide ShopLog.Strip;
    hide WellFormed;
    ReachableIsLegal(tables, msgs);
    ReachableIsMild(tables, msgs, FirmIn(tables.bases));
    ContractRuns.ReachableTurnFails(tables, msgs, player, ops, seed, block, first, budget);
    var s := ReceiveAll(Genesis(tables), msgs);
    var m, setting := s.matches[player], s.settings[player];
    if |m.history| < 39 {
      OpenTurnStalls(m, setting, ops, s.seeds[player], Dice(seed.pvg, seed.gvg, first, budget), tables.bases);
    }
  }

  lemma OpenTurnStalls(m: Match, setting: Setting, ops: seq<PlayerOps.Op>, stored: Seed, dice: Dice, bases: Bases)
    requires FirmThroughout(bases) && Open(m, setting, bases) && |m.history| < 39
    requires MildHistory(m.history, FirmIn(bases)) && MildRivals(setting.rivals, FirmIn(bases))
    ensures var turn, last := |m.history| + 1, LastTurn(m.history);
            var v := PlayerOps.Verify(last.board, last.grade, m.upgradeCoin, ops, setting.pool, stored.visit, turn, bases);
            v.Some? ==>
              var board := GhostBoard(ShopLog.Strip(v.value.shop.board));
              TurnFinishes(board, m.states, GhostsOf(setting.rivals), turn, dice, bases) ==>
                (MarchesSucceed(board, m.states, GhostsOf(setting.rivals), m.ghostIndex, turn, dice, bases)
                 <==> !TurnStalls(board, m.states, GhostsOf(setting.rivals), m.ghostIndex, turn, dice, bases))
  {
    hide PlayerOps.Verify;
    hide MarchesSucceed;
    hide TurnStalls;
    hide TurnFinishes;
    hide MildTable;
    hide MildRivals;
    hide LegalHand;
    hide MildBoardEmos;
    hide MildGhostBoard;
    var turn, last := |m.history| + 1, LastTurn(m.history);
    var v := PlayerOps.Verify(last.board, last.grade, m.upgradeCoin, ops, setting.pool, stored.visit, turn, bases);
    if v.Some? {
      var board := ShopLog.Strip(v.value.shop.board);
      NothingIsMild(FirmIn(bases));
      VisitMild(last.board, last.grade, m.upgradeCoin, ops, setting.pool, stored.visit, turn, bases, FirmIn(bases));
      VisitIsLegal(last.board, last.grade, m.upgradeCoin, ops, setting.pool, stored.visit, turn, bases);
      GhostBoardMild(board, FirmIn(bases));
      OpenIsReady(m, setting, bases, FirmIn(bases));
      LaterSeasoned(m.states, m.ghostIndex, |m.history|);
      if TurnFinishes(GhostBoard(board), m.states, GhostsOf(setting.rivals), turn, dice, bases) {
        MarchesFailWhenStalled(GhostBoard(board), m.states, GhostsOf(setting.rivals), m.ghostIndex, turn, dice, bases);
      }
    }
  }
}
