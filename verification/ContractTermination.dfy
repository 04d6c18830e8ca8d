/** Over a stratified table no message runs for ever: after any messages, every march that a turn can need ends. */
module ContractTermination {
  import opened Types
  import opened Rng
  import opened Leaderboard
  import opened Organizer
  import opened Contract
  import opened ContractLaws
  import opened ShopMild
  import opened ContractMild
  import Battle
  import BattleTermination
  import March
  import OrganizerLaws
  import OrganizerEngine
  import ContractEngine
  import PlayerOps
  import ShopLog

  /** A table over which battles end and whose shop abilities grant nothing that could change that. */
  ghost predicate StratifiedTable(bases: Bases, ranks: BattleTermination.Ranks) {
    WellFormed(bases) && BattleTermination.Ranked(bases, ranks) && MildTable(bases, BattleTermination.Tame)
  }

  // ----- budgets -----

  lemma {:induction false} FightersMild(board: seq<GhostEmo>, first: nat, bases: Bases)
    requires MildGhostBoard(board, BattleTermination.Tame)
    ensures var r := Fighters(board, first, bases);
            r.Some? ==> |r.value| == |board| && forall e :: e in r.value ==> BattleTermination.Mild(e.attr.abilities)
  {
    if board != [] {
      assert board[0] in board;
      FightersMild(board[1..], first + 1, bases);
      MildIsTame(board[0].attr.abilities);
    }
  }

  lemma MildIsTame(abilities: seq<Ability>)
    requires MildList(abilities, BattleTermination.Tame)
    ensures BattleTermination.Mild(abilities)
  {
  }

  /** A budget for one march of two legal boards, and for every larger one. */
  lemma MarchBudget(zero: seq<GhostEmo>, one: seq<GhostEmo>, tape: Tape, first: nat, bases: Bases, ranks: BattleTermination.Ranks)
    returns (n: nat)
    requires StratifiedTable(bases, ranks) && OrganizerLaws.LegalBoard(zero, bases) && OrganizerLaws.LegalBoard(one, bases)
    requires MildGhostBoard(zero, BattleTermination.Tame) && MildGhostBoard(one, BattleTermination.Tame)
    ensures forall m :: n <= m ==> OrganizerEngine.Finishes(zero, one, tape, first, m, bases)
  {
    hide BattleTermination.Ranked;
    hide March.MarchResult;
    FightersMild(zero, first, bases);
    FightersMild(one, first + |zero|, bases);
    var f0, f1 := Fighters(zero, first, bases), Fighters(one, first + |zero|, bases);
    n := 0;
    if f0.Some? && f1.Some? {
      n := March.MarchesEnd(Battle.State(f0.value, f1.value, [], first + |zero| + |one|, tape), bases, ranks);
    }
  }

  lemma PvgBudget(board: seq<GhostEmo>, ghosts: seq<Ghost>, states: seq<GhostState>, turn: U8, seed: Seed, first: FirstIds, bases: Bases,
                  ranks: BattleTermination.Ranks, i: nat) returns (n: nat)
    requires StratifiedTable(bases, ranks) && OrganizerLaws.LegalBoard(board, bases) && MildGhostBoard(board, BattleTermination.Tame)
    requires Ready(ghosts, states, turn, bases, BattleTermination.Tame) && turn >= 1 && i < 3
    ensures forall m: nat :: n <= m ==>
              OrganizerEngine.PvgFinishes(board, states[i], ghosts[i], turn, Dice(seed.pvg, seed.gvg, first, m), bases)
  {
    hide OrganizerEngine.Finishes;
    BroughtBoard(ghosts, states, turn, bases, BattleTermination.Tame, i);
    n := MarchBudget(board, GhostBoardAt(ghosts[i], states[i], turn).value.board, seed.pvg, first.pvg, bases, ranks);
  }

  lemma GvgBudget(ghosts: seq<Ghost>, states: seq<GhostState>, turn: U8, seed: Seed, first: FirstIds, bases: Bases,
                  ranks: BattleTermination.Ranks, i: nat, j: nat) returns (n: nat)
    requires StratifiedTable(bases, ranks) && Ready(ghosts, states, turn, bases, BattleTermination.Tame) && turn >= 1 && i < 3 && j < 3
    ensures forall m: nat :: n <= m ==>
              OrganizerEngine.GvgFinishes(states[i], ghosts[i], states[j], ghosts[j], turn, Dice(seed.pvg, seed.gvg, first, m), bases)
  {
    hide OrganizerEngine.Finishes;
    BroughtBoard(ghosts, states, turn, bases, BattleTermination.Tame, i);
    BroughtBoard(ghosts, states, turn, bases, BattleTermination.Tame, j);
    n := MarchBudget(GhostBoardAt(ghosts[i], states[i], turn).value.board, GhostBoardAt(ghosts[j], states[j], turn).value.board,
                     seed.gvg, first.gvg, bases, ranks);
  }

  lemma TurnBudget(board: seq<GhostEmo>, ghosts: seq<Ghost>, states: seq<GhostState>, turn: U8, seed: Seed, first: FirstIds, bases: Bases,
                   ranks: BattleTermination.Ranks) returns (n: nat)
    requires StratifiedTable(bases, ranks) && OrganizerLaws.LegalBoard(board, bases) && MildGhostBoard(board, BattleTermination.Tame)
    requires Ready(ghosts, states, turn, bases, BattleTermination.Tame) && turn >= 1
    ensures forall m: nat :: n <= m ==> OrganizerEngine.TurnFinishes(board, states, ghosts, turn, Dice(seed.pvg, seed.gvg, first, m), bases)
  {
    hide OrganizerEngine.PvgFinishes;
    hide OrganizerEngine.GvgFinishes;
    hide StratifiedTable;
    hide Ready;
    assert |ghosts| == 3 && |states| == 3 by {
      ReadyAreThree(ghosts, states, turn, bases);
    }
    n := 0;
    for i := 0 to 3
      invariant forall k, m: nat :: 0 <= k < i && n <= m ==>
        OrganizerEngine.PvgFinishes(board, states[k], ghosts[k], turn, Dice(seed.pvg, seed.gvg, first, m), bases)
      invariant forall k, j, m: nat :: 0 <= k < i && 0 <= j < 3 && n <= m ==>
        OrganizerEngine.GvgFinishes(states[k], ghosts[k], states[j], ghosts[j], turn, Dice(seed.pvg, seed.gvg, first, m), bases)
    {
      var p := PvgBudget(board, ghosts, states, turn, seed, first, bases, ranks, i);
      var a := GvgBudget(ghosts, states, turn, seed, first, bases, ranks, i, 0);
      var b := GvgBudget(ghosts, states, turn, seed, first, bases, ranks, i, 1);
      var c := GvgBudget(ghosts, states, turn, seed, first, bases, ranks, i, 2);
      n := n + p + a + b + c;
    }
  }

  lemma ReadyAreThree(ghosts: seq<Ghost>, states: seq<GhostState>, turn: nat, bases: Bases)
    requires Ready(ghosts, states, turn, bases, BattleTermination.Tame)
    ensures |ghosts| == 3 && |states| == 3
  {
  }

  // ----- a budget that suffices decides -----

  lemma FightMore(zero: seq<GhostEmo>, one: seq<GhostEmo>, tape: Tape, first: nat, n: nat, m: nat, bases: Bases)
    requires OrganizerEngine.Finishes(zero, one, tape, first, n, bases) && n <= m
    ensures Fight(zero, one, tape, first, m, bases) == Fight(zero, one, tape, first, n, bases)
  {
    hide March.MarchResult;
    var f0, f1 := Fighters(zero, first, bases), Fighters(one, first + |zero|, bases);
    if f0.Some? && f1.Some? {
      March.MarchMore(Battle.State(f0.value, f1.value, [], first + |zero| + |one|, tape), n, m - n, bases);
    }
  }

  function WithBudget(dice: Dice, m: nat): Dice { dice.(budget := m) }

  lemma PvgMore(grade: U8, health: U8, board: seq<GhostEmo>, state: GhostState, history: Ghost, turn: U8, dice: Dice, m: nat, bases: Bases)
    requires OrganizerEngine.PvgFinishes(board, state, history, turn, dice, bases) && dice.budget <= m
    ensures BattlePvg(grade, health, board, state, history, turn, WithBudget(dice, m), bases)
         == BattlePvg(grade, health, board, state, history, turn, dice, bases)
  {
    hide Fight;
    hide OrganizerEngine.Finishes;
    var g := GhostBoardAt(history, state, turn);
    if g.Some? {
      FightMore(board, g.value.board, dice.pvg, dice.first.pvg, dice.budget, m, bases);
    }
  }

  lemma GvgMore(state0: GhostState, history0: Ghost, state1: GhostState, history1: Ghost, turn: U8, dice: Dice, m: nat, bases: Bases)
    requires OrganizerEngine.GvgFinishes(state0, history0, state1, history1, turn, dice, bases) && dice.budget <= m
    ensures BattleGvg(state0, history0, state1, history1, turn, WithBudget(dice, m), bases)
         == BattleGvg(state0, history0, state1, history1, turn, dice, bases)
  {
    hide Fight;
    hide OrganizerEngine.Finishes;
    var g0, g1 := GhostBoardAt(history0, state0, turn), GhostBoardAt(history1, state1, turn);
    if g0.Some? && g1.Some? {
      FightMore(g0.value.board, g1.value.board, dice.gvg, dice.first.gvg, dice.budget, m, bases);
    }
  }

  lemma AllMore(board: seq<GhostEmo>, health: U8, states: seq<GhostState>, grade: U8, ghosts: seq<Ghost>, index: nat, turn: U8,
                dice: Dice, m: nat, bases: Bases)
    requires OrganizerEngine.TurnFinishes(board, states, ghosts, turn, dice, bases) && dice.budget <= m
    ensures BattleAll(board, health, states, grade, ghosts, index, turn, WithBudget(dice, m), bases)
         == BattleAll(board, health, states, grade, ghosts, index, turn, dice, bases)
  {
    hide BattlePvg;
    hide BattleGvg;
    hide FinalPlace;
    hide OrganizerEngine.PvgFinishes;
    hide OrganizerEngine.GvgFinishes;
    if |ActiveIndexes(states)| > 1 {
      var sets := Min(|ghosts|, |states|);
      if sets >= 3 && index < sets {
        var i, j, k := Seat(0, index), Seat(1, index), Seat(2, index);
        PvgMore(grade, health, board, states[i], ghosts[i], turn, dice, m, bases);
        GvgMore(states[j], ghosts[j], states[k], ghosts[k], turn, dice, m, bases);
      }
    } else {
      var i := FirstActive(states);
      if i.Some? && i.value < |ghosts| {
        PvgMore(grade, health, board, states[i.value], ghosts[i.value], turn, dice, m, bases);
      }
    }
  }

  /** A budget that suffices gives what every larger one gives. */
  lemma BudgetDecides(s: Store, player: Account, ops: seq<PlayerOps.Op>, seed: Seed, block: nat, first: FirstIds, n: nat, m: nat)
    requires ContractEngine.BudgetSuffices(s, player, ops, seed, first, n) && n <= m
    ensures Handle(s, FinishMtcShop(player, ops, seed, block, first, m)) == Handle(s, FinishMtcShop(player, ops, seed, block, first, n))
  {
    hide PlayerOps.Verify;
    hide BattleAll;
    hide OrganizerEngine.TurnFinishes;
    hide FinishMatch;
    hide NextTurn;
    if s.tables.Some? && player in s.settings && player in s.matches && player in s.seeds && TurnOf(s.matches[player].history).Some? {
      var p, turn, bases := s.matches[player], TurnOf(s.matches[player].history).value, s.tables.value.bases;
      var last := LastTurn(p.history);
      var v := PlayerOps.Verify(last.board, last.grade, p.upgradeCoin, ops, s.settings[player].pool, s.seeds[player].visit, turn, bases);
      if v.Some? {
        AllMore(GhostBoard(ShopLog.Strip(v.value.shop.board)), p.health, p.states, v.value.grade, GhostsOf(s.settings[player].rivals),
                p.ghostIndex, turn, Dice(seed.pvg, seed.gvg, first, n), m, bases);
      }
    }
  }

  /** Over a stratified table, after any messages, whatever a player submits: some budget suffices for the marches of the
      turn, so does every larger one, and they all give the same storage. */
  lemma EveryMessageEnds(tables: Tables, ranks: BattleTermination.Ranks, msgs: seq<Message>, player: Account,
                         ops: seq<PlayerOps.Op>, seed: Seed, first: FirstIds) returns (n: nat)
    requires StratifiedTable(tables.bases, ranks)
    ensures forall m: nat :: n <= m ==>
              ContractEngine.BudgetSuffices(ReceiveAll(Genesis(tables), msgs), player, ops, seed, first, m)
    ensures forall m: nat, block: nat :: n <= m ==>
              Handle(ReceiveAll(Genesis(tables), msgs), FinishMtcShop(player, ops, seed, block, first, m))
              == Handle(ReceiveAll(Genesis(tables), msgs), FinishMtcShop(player, ops, seed, block, first, n))
  {
    n := MessageBudget(tables, ranks, msgs, player, ops, seed, first);
    hide Handle;
    hide ContractEngine.BudgetSuffices;
    forall m: nat, block: nat | n <= m
      ensures Handle(ReceiveAll(Genesis(tables), msgs), FinishMtcShop(player, ops, seed, block, first, m))
           == Handle(ReceiveAll(Genesis(tables), msgs), FinishMtcShop(player, ops, seed, block, first, n))
    {
      BudgetDecides(ReceiveAll(Genesis(tables), msgs), player, ops, seed, block, first, n, m);
    }
  }

  lemma MessageBudget(tables: Tables, ranks: BattleTermination.Ranks, msgs: seq<Message>, player: Account,
                      ops: seq<PlayerOps.Op>, seed: Seed, first: FirstIds) returns (n: nat)
    requires StratifiedTable(tables.bases, ranks)
    ensures forall m: nat :: n <= m ==>
              ContractEngine.BudgetSuffices(ReceiveAll(Genesis(tables), msgs), player, ops, seed, first, m)
  {
    hide OrganizerEngine.TurnFinishes;
    hide BattleTermination.Ranked;
    hide MildTable;
    hide PlayerOps.Verify;
    hide ReceiveAll;
    hide MildHistory;
    hide MildRivals;
    ReachableIsLegal(tables, msgs);
    ReachableIsMild(tables, msgs, BattleTermination.Tame);
    var s := ReceiveAll(Genesis(tables), msgs);
    n := 0;
    if player in s.matches && TurnOf(s.matches[player].history).Some? {
      n := OpenEnds(s.matches[player], s.settings[player], ops, s.seeds[player], seed, first, tables.bases, ranks);
    }
  }

  lemma OpenEnds(m: Match, setting: Setting, ops: seq<PlayerOps.Op>, stored: Seed, seed: Seed, first: FirstIds, bases: Bases,
                 ranks: BattleTermination.Ranks) returns (n: nat)
    requires StratifiedTable(bases, ranks) && Open(m, setting, bases)
    requires MildRivals(setting.rivals, BattleTermination.Tame) && MildHistory(m.history, BattleTermination.Tame)
    requires TurnOf(m.history).Some?
    ensures var turn, last := TurnOf(m.history).value, LastTurn(m.history);
            var v := PlayerOps.Verify(last.board, last.grade, m.upgradeCoin, ops, setting.pool, stored.visit, turn, bases);
            v.Some? ==>
              forall k: nat :: n <= k ==>
                OrganizerEngine.TurnFinishes(GhostBoard(ShopLog.Strip(v.value.shop.board)), m.states, GhostsOf(setting.rivals), turn,
                                             Dice(seed.pvg, seed.gvg, first, k), bases)
  {
    hide OrganizerEngine.TurnFinishes;
    hide PlayerOps.Verify;
    hide LegalHand;
    hide MildBoardEmos;
    hide MildGhostBoard;
    hide BattleTermination.Ranked;
    var turn, last := TurnOf(m.history).value, LastTurn(m.history);
    var v := PlayerOps.Verify(last.board, last.grade, m.upgradeCoin, ops, setting.pool, stored.visit, turn, bases);
    n := 0;
    if v.Some? {
      var board := ShopLog.Strip(v.value.shop.board);
      NothingIsMild(BattleTermination.Tame);
      VisitMild(last.board, last.grade, m.upgradeCoin, ops, setting.pool, stored.visit, turn, bases, BattleTermination.Tame);
      VisitIsLegal(last.board, last.grade, m.upgradeCoin, ops, setting.pool, stored.visit, turn, bases);
      GhostBoardMild(board, BattleTermination.Tame);
      OpenIsReady(m, setting, bases, BattleTermination.Tame);
      n := TurnBudget(GhostBoard(board), GhostsOf(setting.rivals), m.states, turn, seed, first, bases, ranks);
    }
  }
}
