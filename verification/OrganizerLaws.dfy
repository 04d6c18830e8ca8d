/** What the battles of a turn can and cannot do to the player and the ghosts. */
module OrganizerLaws {
  import opened Types
  import opened Rng
  import opened Battle
  import opened BattleLaws
  import opened BattleLog
  import opened March
  import opened Organizer

  // ----- a fight between legal boards -----

  ghost predicate LegalBoard(board: seq<GhostEmo>, bases: Bases) {
    |board| <= BOARD_EMO_MAX_COUNT && forall e :: e in board ==> e.baseId in bases && e.attr.health >= 1
  }

  lemma {:induction false} FightersStand(board: seq<GhostEmo>, first: nat, bases: Bases)
    requires WellFormed(bases) && forall e :: e in board ==> e.baseId in bases && e.attr.health >= 1
    ensures var r := Fighters(board, first, bases);
            r.Some? && |r.value| == |board| && forall e :: e in r.value ==> Sound(e, bases) && e.survived == 0
  {
    if board != [] {
      assert board[0] in board;
      FightersStand(board[1..], first + 1, bases);
    }
  }

  /** Every emo of a board fights with the base, the typ, the stats and the abilities it has there, under ids counted up. */
  lemma {:induction false} FightersAre(board: seq<GhostEmo>, first: nat, bases: Bases)
    requires forall e :: e in board ==> e.baseId in bases
    ensures var r := Fighters(board, first, bases);
            && r.Some? && |r.value| == |board|
            && forall k :: 0 <= k < |board| ==>
                 r.value[k] == Fighter((first + k) % 65536, bases[board[k].baseId].id, bases[board[k].baseId].typ, board[k].attr, 0)
  {
    if board != [] {
      assert board[0] in board;
      FightersAre(board[1..], first + 1, bases);
    }
  }

  /** Legal boards are sent into a march as it expects them. */
  lemma FightersReady(zero: seq<GhostEmo>, one: seq<GhostEmo>, tape: Tape, first: nat, bases: Bases)
    requires WellFormed(bases) && LegalBoard(zero, bases) && LegalBoard(one, bases)
    ensures var f0, f1 := Fighters(zero, first, bases), Fighters(one, first + |zero|, bases);
            f0.Some? && f1.Some? && Ready(State(f0.value, f1.value, [], first + |zero| + |one|, tape), bases)
  {
    FightersStand(zero, first, bases);
    FightersStand(one, first + |zero|, bases);
    var f0, f1 := Fighters(zero, first, bases).value, Fighters(one, first + |zero|, bases).value;
    var s := State(f0, f1, [], first + |zero| + |one|, tape);
    forall p: Player, i | 0 <= i < |s.At(p)| ensures s.At(p)[i].survived == 0 {
      assert s.At(p)[i] in s.At(p);
    }
  }

  /** The fighters stand as the boards do, `zero` on the left side of the march, and its grades are those of what is left. */
  lemma FightIs(zero: seq<GhostEmo>, one: seq<GhostEmo>, tape: Tape, first: nat, budget: nat, bases: Bases) returns (start: State)
    requires WellFormed(bases) && LegalBoard(zero, bases) && LegalBoard(one, bases)
    ensures |start.zero| == |zero| && |start.one| == |one| && start.logs == [] && start.tape == tape
    ensures forall k :: 0 <= k < |zero| ==>
              && zero[k].baseId in bases
              && start.zero[k] == Fighter((first + k) % 65536, zero[k].baseId, bases[zero[k].baseId].typ, zero[k].attr, 0)
    ensures forall k :: 0 <= k < |one| ==>
              && one[k].baseId in bases
              && start.one[k] == Fighter((first + |zero| + k) % 65536, one[k].baseId, bases[one[k].baseId].typ, one[k].attr, 0)
    ensures var r, march := Fight(zero, one, tape, first, budget, bases), MarchResult(start, budget, bases);
            && (r.Some? <==> march.Finished?)
            && (r.Some? ==> r.value.0 == GradeSum(march.s.zero, bases) && r.value.1 == GradeSum(march.s.one, bases))
  {
    hide MarchResult;
    FightersAre(zero, first, bases);
    FightersAre(one, first + |zero|, bases);
    FightersReady(zero, one, tape, first, bases);
    start := State(Fighters(zero, first, bases).value, Fighters(one, first + |zero|, bases).value, [], first + |zero| + |one|, tape);
    MarchIsGood(start, budget, bases);
  }

  /** At most one side is left, with a grade of at most 42. */
  lemma FightIsOneSided(zero: seq<GhostEmo>, one: seq<GhostEmo>, tape: Tape, first: nat, budget: nat, bases: Bases)
    ensures var r := Fight(zero, one, tape, first, budget, bases);
            r.Some? ==> (r.value.0 == 0 || r.value.1 == 0)
                        && (WellFormed(bases) && LegalBoard(zero, bases) && LegalBoard(one, bases) ==> r.value.0 <= 42 && r.value.1 <= 42)
  {
    hide MarchResult;
    var f0, f1 := Fighters(zero, first, bases), Fighters(one, first + |zero|, bases);
    if f0.Some? && f1.Some? {
      var s := State(f0.value, f1.value, [], first + |zero| + |one|, tape);
      OneGradeIsZero(s, budget, bases);
      if WellFormed(bases) && LegalBoard(zero, bases) && LegalBoard(one, bases) {
        FightersReady(zero, one, tape, first, bases);
        MarchIsGood(s, budget, bases);
      }
    }
  }

  // ----- which ghost board -----

  ghost predicate Seasoned(state: GhostState, turn: nat) { state.Retired? ==> 1 <= state.finalTurn <= turn }

  /** The ghost's board is found: the empty one of a ghost without history, else the one of the turn, of the
      ghost's last turn or of the end of its history, whichever comes first. */
  lemma GhostBoardIsFound(history: Ghost, state: GhostState, turn: U8)
    requires |history| <= 39 && 1 <= turn && Seasoned(state, turn)
    ensures var effective := if state.Retired? then Min(turn, state.finalTurn) else turn;
            var at := Min(effective, |history|);
            GhostBoardAt(history, state, turn) == Some(if history == [] then EMPTY_BOARD else history[at - 1])
  {
  }

  /** A board is missing exactly when a ghost with history retired in turn zero or the turn is zero. */
  lemma GhostBoardIsMissing(history: Ghost, state: GhostState, turn: U8)
    requires |history| <= 39
    ensures GhostBoardAt(history, state, turn).None? <==> history != [] && (turn == 0 || state == Retired(0))
  {
  }

  ghost predicate LegalGhost(g: Ghost, bases: Bases) {
    |g| <= 39 && forall i :: 0 <= i < |g| ==> 1 <= g[i].grade <= 6 && LegalBoard(g[i].board, bases)
  }

  lemma GhostBoardIsLegal(history: Ghost, state: GhostState, turn: U8, bases: Bases)
    requires LegalGhost(history, bases) && 1 <= turn && Seasoned(state, turn)
    ensures var r := GhostBoardAt(history, state, turn);
            r.Some? && 1 <= r.value.grade <= 6 && LegalBoard(r.value.board, bases)
  {
    GhostBoardIsFound(history, state, turn);
  }

  // ----- what a battle does to health -----

  /** A health can only fall; at zero an active ghost retires in this turn; a retired one stays as it is. */
  ghost predicate Wears(before: GhostState, after: GhostState, turn: U8) {
    match before
    case Retired(_) => after == before
    case Active(h) => (after.Active? && 1 <= after.health <= h) || after == Retired(turn)
  }

  ghost predicate Standing(state: GhostState) { state.Active? ==> state.health > 0 }

  /** A duel hurts at most one side, never fails on arithmetic for legal grades, and retires by zero health only. */
  lemma PvgHurtsOne(grade: U8, health: U8, board: seq<GhostEmo>, state: GhostState, history: Ghost, turn: U8, dice: Dice, bases: Bases)
    requires Standing(state)
    ensures var r := BattlePvg(grade, health, board, state, history, turn, dice, bases);
            r.Some? ==> && (r.value.0 == health || r.value.1 == state)
                        && r.value.0 <= health && Wears(state, r.value.1, turn)
  {
    hide Fight;
    var g := GhostBoardAt(history, state, turn);
    if g.Some? {
      FightIsOneSided(board, g.value.board, dice.pvg, dice.first.pvg, dice.budget, bases);
    }
  }

  lemma GvgHurtsOne(state0: GhostState, history0: Ghost, state1: GhostState, history1: Ghost, turn: U8, dice: Dice, bases: Bases)
    requires Standing(state0) && Standing(state1)
    ensures var r := BattleGvg(state0, history0, state1, history1, turn, dice, bases);
            r.Some? ==> && (r.value.0 == state0 || r.value.1 == state1)
                        && Wears(state0, r.value.0, turn) && Wears(state1, r.value.1, turn)
  {
    hide Fight;
    var g0, g1 := GhostBoardAt(history0, state0, turn), GhostBoardAt(history1, state1, turn);
    if g0.Some? && g1.Some? {
      FightIsOneSided(g0.value.board, g1.value.board, dice.gvg, dice.first.gvg, dice.budget, bases);
    }
  }

  /** What is left of a health. */
  function Left(health: nat, loss: nat): nat { if health <= loss then 0 else health - loss }

  /** A ghost that loses health: nothing left retires it in this turn, and a retired one has nothing to lose. */
  function Struck(state: GhostState, loss: nat, turn: U8): GhostState {
    match state
    case Retired(_) => state
    case Active(h) => if h <= loss then Retired(turn) else Active(h - loss)
  }

  /** The loser of a duel is hurt, by the grades that are left on the other board and the grade of the other shop, and nobody
      else is: the player by the ghost's board, the ghost by the player's. */
  lemma PvgHurtsLoser(grade: U8, health: U8, board: seq<GhostEmo>, state: GhostState, history: Ghost, turn: U8, dice: Dice, bases: Bases)
    requires Standing(state)
    ensures var g := GhostBoardAt(history, state, turn);
            var r := BattlePvg(grade, health, board, state, history, turn, dice, bases);
            g.Some? && r.Some? ==>
              var left := Fight(board, g.value.board, dice.pvg, dice.first.pvg, dice.budget, bases);
              && left.Some?
              && (left.value == (0, 0) ==> r.value == (health, state))
              && (left.value.0 > 0 ==> r.value == (health, Struck(state, left.value.0 + grade, turn)))
              && (left.value.1 > 0 ==> r.value == (Left(health, left.value.1 + g.value.grade), state))
  {
    hide Fight;
    var g := GhostBoardAt(history, state, turn);
    if g.Some? {
      FightIsOneSided(board, g.value.board, dice.pvg, dice.first.pvg, dice.budget, bases);
    }
  }

  /** The same between two ghosts. */
  lemma GvgHurtsLoser(state0: GhostState, history0: Ghost, state1: GhostState, history1: Ghost, turn: U8, dice: Dice, bases: Bases)
    requires Standing(state0) && Standing(state1)
    ensures var g0, g1 := GhostBoardAt(history0, state0, turn), GhostBoardAt(history1, state1, turn);
            var r := BattleGvg(state0, history0, state1, history1, turn, dice, bases);
            g0.Some? && g1.Some? && r.Some? ==>
              var left := Fight(g0.value.board, g1.value.board, dice.gvg, dice.first.gvg, dice.budget, bases);
              && left.Some?
              && (left.value == (0, 0) ==> r.value == (state0, state1))
              && (left.value.0 > 0 ==> r.value == (state0, Struck(state1, left.value.0 + g0.value.grade, turn)))
              && (left.value.1 > 0 ==> r.value == (Struck(state0, left.value.1 + g1.value.grade, turn), state1))
  {
    hide Fight;
    var g0, g1 := GhostBoardAt(history0, state0, turn), GhostBoardAt(history1, state1, turn);
    if g0.Some? && g1.Some? {
      FightIsOneSided(g0.value.board, g1.value.board, dice.gvg, dice.first.gvg, dice.budget, bases);
    }
  }

  /** Between legal boards a battle can only fail in its march: every lookup is in range and no sum of grades overflows. */
  lemma PvgFailsOnlyInMarch(grade: U8, health: U8, board: seq<GhostEmo>, state: GhostState, history: Ghost, turn: U8, dice: Dice,
                            bases: Bases)
    requires WellFormed(bases) && LegalBoard(board, bases) && LegalGhost(history, bases)
    requires grade <= 6 && 1 <= turn && Seasoned(state, turn)
    ensures var g := GhostBoardAt(history, state, turn);
            g.Some? && (BattlePvg(grade, health, board, state, history, turn, dice, bases).None?
                        <==> Fight(board, g.value.board, dice.pvg, dice.first.pvg, dice.budget, bases).None?)
  {
    hide Fight;
    GhostBoardIsLegal(history, state, turn, bases);
    FightIsOneSided(board, GhostBoardAt(history, state, turn).value.board, dice.pvg, dice.first.pvg, dice.budget, bases);
  }

  lemma GvgFailsOnlyInMarch(state0: GhostState, history0: Ghost, state1: GhostState, history1: Ghost, turn: U8, dice: Dice, bases: Bases)
    requires WellFormed(bases) && LegalGhost(history0, bases) && LegalGhost(history1, bases)
    requires 1 <= turn && Seasoned(state0, turn) && Seasoned(state1, turn)
    ensures var g0, g1 := GhostBoardAt(history0, state0, turn), GhostBoardAt(history1, state1, turn);
            g0.Some? && g1.Some? && (BattleGvg(state0, history0, state1, history1, turn, dice, bases).None?
                        <==> Fight(g0.value.board, g1.value.board, dice.gvg, dice.first.gvg, dice.budget, bases).None?)
  {
    hide Fight;
    GhostBoardIsLegal(history0, state0, turn, bases);
    GhostBoardIsLegal(history1, state1, turn, bases);
    var g0, g1 := GhostBoardAt(history0, state0, turn), GhostBoardAt(history1, state1, turn);
    FightIsOneSided(g0.value.board, g1.value.board, dice.gvg, dice.first.gvg, dice.budget, bases);
  }

  // ----- what a turn does -----

  /** The ghosts of a match in progress. */
  ghost predicate Field(states: seq<GhostState>, index: nat, turn: nat) {
    && |states| == 3 && !AllRetired(states)
    && (forall i :: 0 <= i < 3 ==> Standing(states[i]) && Seasoned(states[i], turn))
    && index < 3 && states[index].Active?
  }

  ghost predicate AllWear(before: seq<GhostState>, after: seq<GhostState>, turn: U8) {
    |before| == |after| && forall i :: 0 <= i < |before| ==> Wears(before[i], after[i], turn)
  }

  lemma ActiveCount(states: seq<GhostState>)
    requires |states| == 3
    ensures |ActiveIndexes(states)| == (if states[0].Active? then 1 else 0) + (if states[1].Active? then 1 else 0)
                                     + (if states[2].Active? then 1 else 0)
  {
    assert states[..2][..1][..0] == [];
    assert states[..2][1] == states[1] && states[..2][..1][0] == states[0];
    assert |ActiveIndexes(states[..2][..1])| == if states[0].Active? then 1 else 0;
  }

  /** Two ghosts that both retire in one turn include the player's opponent, so the player was not hurt. */
  lemma PvgAndGvgWear(board: seq<GhostEmo>, grade: U8, health: U8, ghosts: seq<Ghost>, states: seq<GhostState>, index: nat, turn: U8,
                      dice: Dice, bases: Bases)
    requires Field(states, index, turn) && |ghosts| == 3
    ensures var r := BattlePvgAndGvg(board, grade, health, ghosts, states, index, turn, dice, bases);
            r.Some? ==> && r.value.0 <= health && AllWear(states, r.value.1, turn)
                        && (r.value.0 == health || r.value.1[index] == states[index])
                        && (exists i :: 0 <= i < 3 && i != index && r.value.1[i] == states[i])
  {
    hide BattlePvg;
    hide BattleGvg;
    var i, j, k := Seat(0, index), Seat(1, index), Seat(2, index);
    PvgHurtsOne(grade, health, board, states[i], ghosts[i], turn, dice, bases);
    GvgHurtsOne(states[j], ghosts[j], states[k], ghosts[k], turn, dice, bases);
    var r := BattlePvgAndGvg(board, grade, health, ghosts, states, index, turn, dice, bases);
    if r.Some? {
      assert r.value.1[j] == states[j] || r.value.1[k] == states[k];
    }
  }

  /** What one turn of battles does to a match in progress: healths only fall, retired ghosts stay as they are, and
      when all ghosts are retired the player is alive. */
  lemma TurnWears(board: seq<GhostEmo>, health: U8, states: seq<GhostState>, grade: U8, ghosts: seq<Ghost>, index: nat, turn: U8,
                  dice: Dice, bases: Bases)
    requires Field(states, index, turn) && |ghosts| == 3 && health > 0
    ensures var r := BattleAll(board, health, states, grade, ghosts, index, turn, dice, bases);
            r.Some? ==> && r.value.0 <= health && AllWear(states, r.value.1, turn)
                        && (AllRetired(r.value.1) ==> r.value.0 == health)
  {
    hide BattlePvg;
    hide BattlePvgAndGvg;
    ActiveCount(states);
    if |ActiveIndexes(states)| > 1 {
      PvgAndGvgWear(board, grade, health, ghosts, states, index, turn, dice, bases);
      var r := BattlePvgAndGvg(board, grade, health, ghosts, states, index, turn, dice, bases);
      if r.Some? && AllRetired(r.value.1) {
        var i :| 0 <= i < 3 && i != index && r.value.1[i] == states[i];
        assert r.value.1[index] != states[index];
      }
    } else {
      var i := FirstActive(states).value;
      PvgHurtsOne(grade, health, board, states[i], ghosts[i], turn, dice, bases);
    }
  }

  /** With more than one active ghost the player meets the ghost of the match, and the two others meet each other; a single
      active ghost meets the player, whichever it is. */
  lemma TurnPairs(board: seq<GhostEmo>, health: U8, states: seq<GhostState>, grade: U8, ghosts: seq<Ghost>, index: nat, turn: U8,
                  dice: Dice, bases: Bases)
    requires Field(states, index, turn) && |ghosts| == 3
    ensures var r := BattleAll(board, health, states, grade, ghosts, index, turn, dice, bases);
            var j, k := if index == 1 then 0 else 1, if index == 2 then 0 else 2;
            var pvg := BattlePvg(grade, health, board, states[index], ghosts[index], turn, dice, bases);
            var gvg := BattleGvg(states[j], ghosts[j], states[k], ghosts[k], turn, dice, bases);
            if states[j].Active? || states[k].Active? then
              r.Some? ==> && pvg.Some? && gvg.Some? && r.value.0 == pvg.value.0 && |r.value.1| == 3
                          && r.value.1[index] == pvg.value.1 && r.value.1[j] == gvg.value.0 && r.value.1[k] == gvg.value.1
            else
              r.Some? ==> pvg.Some? && r.value.0 == pvg.value.0 && r.value.1 == states[index := pvg.value.1]
  {
    hide BattlePvg;
    hide BattleGvg;
    ActiveCount(states);
  }

  lemma {:induction false} AheadBounds(states: seq<GhostState>, before: seq<GhostState>, preHealth: U8)
    requires |states| == |before|
    ensures Ahead(states, before, preHealth) <= |states|
    ensures !AllRetired(states) ==> Ahead(states, before, preHealth) >= 1
  {
    if states != [] {
      AheadBounds(states[1..], before[1..], preHealth);
      if !AllRetired(states) && !states[0].Active? {
        var i :| 0 <= i < |states| && !states[i].Retired?;
        assert states[1..][i - 1] == states[i];
      }
    }
  }

  /** Every place is in 1 to 4, and the first place is the player's exactly when all ghosts are retired, who is then alive. */
  lemma PlacesAreLegal(board: seq<GhostEmo>, health: U8, states: seq<GhostState>, grade: U8, ghosts: seq<Ghost>, index: nat, turn: U8,
                       dice: Dice, bases: Bases)
    requires Field(states, index, turn) && |ghosts| == 3 && health > 0
    ensures var r := BattleAll(board, health, states, grade, ghosts, index, turn, dice, bases);
            r.Some? ==> && (r.value.2.Some? <==> AllRetired(r.value.1) || r.value.0 == 0)
                        && (r.value.2.Some? ==> 1 <= r.value.2.value <= 4)
                        && (r.value.2 == Some(1) <==> AllRetired(r.value.1))
                        && (r.value.2 == Some(1) ==> r.value.0 > 0)
  {
    hide BattlePvg;
    hide BattlePvgAndGvg;
    TurnWears(board, health, states, grade, ghosts, index, turn, dice, bases);
    var r := BattleAll(board, health, states, grade, ghosts, index, turn, dice, bases);
    if r.Some? {
      AheadBounds(r.value.1, states, health);
    }
  }

  lemma {:induction false} AheadCounts(states: seq<GhostState>, before: seq<GhostState>, preHealth: U8)
    requires |states| == |before|
    ensures Ahead(states, before, preHealth)
         == |set i | 0 <= i < |states| && (states[i].Active? || (before[i].Active? && before[i].health > preHealth))|
  {
    var ahead := set i | 0 <= i < |states| && (states[i].Active? || (before[i].Active? && before[i].health > preHealth));
    if states == [] {
      assert ahead == {};
    } else {
      AheadCounts(states[1..], before[1..], preHealth);
      var s, b := states[1..], before[1..];
      var rest := set i | 0 <= i < |s| && (s[i].Active? || (b[i].Active? && b[i].health > preHealth));
      var later := set i | i in rest :: i + 1;
      forall i: nat ensures i in later <==> i > 0 && i - 1 in rest {
        assert i in later ==> i - 1 in rest;
      }
      ShiftedSize(rest, later);
      forall i ensures i in ahead && i > 0 <==> i in later {
        if i in ahead && i > 0 {
          assert i - 1 in rest;
        }
      }
      assert ahead == (if 0 in ahead then {0} else {}) + later;
    }
  }

  lemma {:induction false} ShiftedSize(x: set<nat>, later: set<nat>)
    requires forall i :: i in later <==> i > 0 && i - 1 in x
    ensures |later| == |x|
  {
    if x != {} {
      var a :| a in x;
      assert a + 1 in later;
      ShiftedSize(x - {a}, later - {a + 1});
    }
  }

  /** A player who is dead with ghosts left comes in after every ghost that is still active and every one that fell in this turn
      from more health than the player had. */
  lemma DeadPlace(board: seq<GhostEmo>, health: U8, states: seq<GhostState>, grade: U8, ghosts: seq<Ghost>, index: nat, turn: U8,
                  dice: Dice, bases: Bases)
    requires Field(states, index, turn) && |ghosts| == 3 && health > 0
    ensures var r := BattleAll(board, health, states, grade, ghosts, index, turn, dice, bases);
            r.Some? && r.value.0 == 0 ==>
              && |r.value.1| == 3
              && r.value.2 == Some(1 + |set i | 0 <= i < 3 && (r.value.1[i].Active? || (states[i].Active? && states[i].health > health))|)
  {
    hide BattlePvg;
    hide BattlePvgAndGvg;
    TurnWears(board, health, states, grade, ghosts, index, turn, dice, bases);
    var r := BattleAll(board, health, states, grade, ghosts, index, turn, dice, bases);
    if r.Some? {
      AheadCounts(r.value.1, states, health);
    }
  }

  // ----- why a turn fails -----

  /** The marches of a turn succeed: the player's and, while more than one ghost is active, the other two ghosts'. */
  ghost predicate MarchesSucceed(board: seq<GhostEmo>, states: seq<GhostState>, ghosts: seq<Ghost>, index: nat, turn: U8,
                                 dice: Dice, bases: Bases)
    requires |states| == 3 && |ghosts| == 3 && index < 3
  {
    var at := (i: nat) requires i < 3 => GhostBoardAt(ghosts[i], states[i], turn);
    if |ActiveIndexes(states)| > 1 then
      var i, j, k := Seat(0, index), Seat(1, index), Seat(2, index);
      && at(i).Some? && Fight(board, at(i).value.board, dice.pvg, dice.first.pvg, dice.budget, bases).Some?
      && at(j).Some? && at(k).Some? && Fight(at(j).value.board, at(k).value.board, dice.gvg, dice.first.gvg, dice.budget, bases).Some?
    else
      var i := FirstActive(states);
      i.Some? && at(i.value).Some? && Fight(board, at(i.value).value.board, dice.pvg, dice.first.pvg, dice.budget, bases).Some?
  }

  /** Among legal boards a turn of a match in progress succeeds exactly when its marches do: no ghost, no board
      and no sum of grades can go wrong. */
  lemma TurnFailsOnlyInMarches(board: seq<GhostEmo>, health: U8, states: seq<GhostState>, grade: U8, ghosts: seq<Ghost>, index: nat,
                               turn: U8, dice: Dice, bases: Bases)
    requires Field(states, index, turn) && |ghosts| == 3 && 1 <= turn && grade <= 6
    requires WellFormed(bases) && LegalBoard(board, bases) && forall i :: 0 <= i < 3 ==> LegalGhost(ghosts[i], bases)
    ensures BattleAll(board, health, states, grade, ghosts, index, turn, dice, bases).Some?
       <==> MarchesSucceed(board, states, ghosts, index, turn, dice, bases)
  {
    hide BattlePvg;
    hide BattleGvg;
    hide GhostBoardAt;
    hide Fight;
    hide LegalBoard;
    hide LegalGhost;
    ActiveCount(states);
    if |ActiveIndexes(states)| > 1 {
      var i, j, k := Seat(0, index), Seat(1, index), Seat(2, index);
      PvgFailsOnlyInMarch(grade, health, board, states[i], ghosts[i], turn, dice, bases);
      GvgFailsOnlyInMarch(states[j], ghosts[j], states[k], ghosts[k], turn, dice, bases);
    } else {
      var i := FirstActive(states).value;
      PvgFailsOnlyInMarch(grade, health, board, states[i], ghosts[i], turn, dice, bases);
    }
  }

  // ----- the next ghost -----

  lemma {:induction false} ExceptIs(indexes: seq<nat>, i: nat)
    ensures forall j :: j in Except(indexes, i) <==> j in indexes && j != i
  {
    if indexes != [] {
      ExceptIs(indexes[1..], i);
      assert indexes == [indexes[0]] + indexes[1..];
    }
  }

  lemma {:induction false} ActivesIncrease(states: seq<GhostState>)
    ensures forall i, j :: 0 <= i < j < |ActiveIndexes(states)| ==> ActiveIndexes(states)[i] < ActiveIndexes(states)[j]
  {
    if states != [] {
      ActivesIncrease(states[..|states| - 1]);
      var front := ActiveIndexes(states[..|states| - 1]);
      assert forall i :: 0 <= i < |front| ==> front[i] in front;
    }
  }

  /** A ghost is found exactly when one is active; it is active, and another than before unless it is the only one. */
  lemma SelectSucceeds(states: seq<GhostState>, previous: nat, tape: Tape)
    ensures var r := SelectGhost(states, previous, tape);
            && (r.Some? <==> !AllRetired(states))
            && (r.Some? ==> && r.value < |states| && states[r.value].Active?
                            && (r.value == previous ==> ActiveIndexes(states) == [previous]))
  {
    var live := ActiveIndexes(states);
    ExceptIs(live, previous);
    ActivesIncrease(states);
    if live != [] {
      assert live[0] in live;
      if |live| > 1 {
        assert live[1] in live && live[0] != live[1];
        var others := Except(live, previous);
        assert live[0] in others || live[1] in others;
        assert others[Choice(tape, |others|)] in others;
      }
    } else {
      assert forall i :: 0 <= i < |states| ==> i !in live;
    }
  }

  /** Of several active ghosts each other one may be the next. */
  lemma AnyOtherMayBeNext(states: seq<GhostState>, previous: nat, next: nat) returns (tape: Tape)
    requires next < |states| && states[next].Active? && next != previous
    requires exists i :: 0 <= i < |states| && i != next && states[i].Active?
    ensures SelectGhost(states, previous, tape) == Some(next)
  {
    hide ActiveIndexes;
    hide Except;
    var live := ActiveIndexes(states);
    ExceptIs(live, previous);
    var i :| 0 <= i < |states| && i != next && states[i].Active?;
    assert i in live && next in live;
    var others := Except(live, previous);
    assert next in others;
    var k :| 0 <= k < |others| && others[k] == next;
    tape := [k];
    TwoListed(live, i, next);
    hide AllRetired;
    hide Choice;
    assert SelectGhost(states, previous, tape) == Some(others[Choice(tape, |others|)]);
    assert Choice(tape, |others|) == k by {
      ChoiceIs(k, |others|);
    }
  }

  lemma TwoListed(live: seq<nat>, i: nat, j: nat)
    requires i in live && j in live && i != j
    ensures live != [] && |live| != 1
  {
  }
}
