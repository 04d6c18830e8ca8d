/** The battles of a turn as the program runs them: the player's health and the ghosts' states change in
    place, and each pair of boards is marched by the engine. */
module OrganizerEngine {
  import opened Types
  import opened Rng
  import opened Battle
  import opened March
  import opened BattleEngine
  import opened MarchEngine
  import opened Organizer

  /** The march of these boards ends within the budget. */
  ghost predicate Finishes(zero: seq<GhostEmo>, one: seq<GhostEmo>, tape: Tape, first: nat, budget: nat, bases: Bases) {
    var f0, f1 := Fighters(zero, first, bases), Fighters(one, first + |zero|, bases);
    f0.Some? && f1.Some? ==>
      MarchResult(State(f0.value, f1.value, [], first + |zero| + |one|, tape), budget, bases) != MRunning
  }

  ghost predicate PvgFinishes(board: seq<GhostEmo>, state: GhostState, history: Ghost, turn: U8, dice: Dice, bases: Bases) {
    var g := GhostBoardAt(history, state, turn);
    g.Some? ==> Finishes(board, g.value.board, dice.pvg, dice.first.pvg, dice.budget, bases)
  }

  ghost predicate GvgFinishes(state0: GhostState, history0: Ghost, state1: GhostState, history1: Ghost, turn: U8, dice: Dice,
                              bases: Bases)
  {
    var g0, g1 := GhostBoardAt(history0, state0, turn), GhostBoardAt(history1, state1, turn);
    g0.Some? && g1.Some? ==> Finishes(g0.value.board, g1.value.board, dice.gvg, dice.first.gvg, dice.budget, bases)
  }

  /** Every march that these ghosts can have in this turn ends within the budget. */
  ghost predicate TurnFinishes(board: seq<GhostEmo>, states: seq<GhostState>, ghosts: seq<Ghost>, turn: U8, dice: Dice, bases: Bases) {
    && (forall i :: 0 <= i < |states| && i < |ghosts| ==> PvgFinishes(board, states[i], ghosts[i], turn, dice, bases))
    && (forall i, j :: 0 <= i < |states| && i < |ghosts| && 0 <= j < |states| && j < |ghosts| && i != j ==>
          GvgFinishes(states[i], ghosts[i], states[j], ghosts[j], turn, dice, bases))
  }

  lemma {:induction false} NoFighters(board: seq<GhostEmo>, i: nat, first: nat, bases: Bases)
    requires i < |board| && board[i].baseId !in bases
    ensures Fighters(board, first, bases).None?
  {
    if i > 0 {
      NoFighters(board[1..], i - 1, first + 1, bases);
    }
  }

  lemma {:induction false} FightersAppend(a: seq<GhostEmo>, e: GhostEmo, first: nat, bases: Bases)
    requires e.baseId in bases
    ensures var r := Fighters(a, first, bases);
            Fighters(a + [e], first, bases)
            == if r.None? then None
               else Some(r.value + [Fighter((first + |a|) % 0x1_0000, bases[e.baseId].id, bases[e.baseId].typ, e.attr, 0)])
  {
    var base := bases[e.baseId];
    var last := Fighter((first + |a|) % 0x1_0000, base.id, base.typ, e.attr, 0);
    if a == [] {
      assert a + [e] == [e] && [e][1..] == [] && [last] + [] == [] + [last];
    } else {
      assert (a + [e])[1..] == a[1..] + [e] && (a + [e])[0] == a[0];
      FightersAppend(a[1..], e, first + 1, bases);
      if a[0].baseId in bases && Fighters(a[1..], first + 1, bases).Some? {
        var head, rest := Fighters(a, first, bases).value[0], Fighters(a[1..], first + 1, bases).value;
        assert [head] + (rest + [last]) == ([head] + rest) + [last];
      }
    }
  }

  method BuildBattleEmos(board: seq<GhostEmo>, first: nat, bases: Bases) returns (r: Option<seq<Fighter>>)
    ensures r == Fighters(board, first, bases)
  {
    var emos := [];
    for i := 0 to |board|
      invariant Fighters(board[..i], first, bases) == Some(emos)
    {
      if board[i].baseId !in bases {
        NoFighters(board, i, first, bases);
        return None;
      }
      FightersAppend(board[..i], board[i], first, bases);
      assert board[..i + 1] == board[..i] + [board[i]];
      var base := bases[board[i].baseId];
      emos := emos + [Fighter((first + i) % 0x1_0000, base.id, base.typ, board[i].attr, 0)];
    }
    assert board[..|board|] == board;
    return Some(emos);
  }

  method MarchOf(zero: seq<GhostEmo>, one: seq<GhostEmo>, tape: Tape, first: nat, ghost budget: nat, bases: Bases)
    returns (r: Option<(U8, U8)>)
    requires Finishes(zero, one, tape, first, budget, bases)
    ensures r == Fight(zero, one, tape, first, budget, bases)
  {
    hide MarchResult;
    var f0 := BuildBattleEmos(zero, first, bases);
    if f0.None? {
      return None;
    }
    var f1 := BuildBattleEmos(one, first + |zero|, bases);
    if f1.None? {
      return None;
    }
    var boards := new BattleBoards(f0.value, f1.value, first + |zero| + |one|, tape, bases);
    var result := RunMarch(boards, budget);
    match result {
      case Finished(a, b, _) => r := Some((a, b));
      case _ => r := None;
    }
  }

  class Standings {
    var health: U8
    const states: array<GhostState>

    constructor (health: U8, states: seq<GhostState>)
      ensures this.health == health && this.states[..] == states && fresh(this.states)
    {
      this.health := health;
      this.states := new GhostState[|states|](i requires 0 <= i < |states| => states[i]);
    }

    /** An error stands for the overflow of the sum of grades. */
    method DamagePlayerHealth(boardGrade: U8, grade: U8) returns (ok: bool)
      modifies this
      ensures DamageHealth(boardGrade, grade, old(health)) == if ok then Some(health) else None
      ensures !ok ==> health == old(health)
    {
      if boardGrade > 0 {
        if boardGrade + grade > U8_MAX {
          return false;
        }
        health := if health < boardGrade + grade then 0 else health - (boardGrade + grade);
      }
      return true;
    }

    method DamageGhostHealth(boardGrade: U8, grade: U8, k: nat, turn: U8) returns (ok: bool)
      requires k < states.Length
      modifies states
      ensures DamageGhost(boardGrade, grade, old(states[k]), turn) == if ok then Some(states[k]) else None
      ensures states[..] == old(states[..])[k := states[k]]
    {
      if states[k].Active? {
        if boardGrade > 0 {
          if boardGrade + grade > U8_MAX {
            return false;
          }
          var h := states[k].health;
          states[k] := Active(if h < boardGrade + grade then 0 else h - (boardGrade + grade));
        }
        if states[k].health == 0 {
          states[k] := Retired(turn);
        }
      }
      return true;
    }

    method BattlePvgAt(grade: U8, board: seq<GhostEmo>, k: nat, history: Ghost, turn: U8, dice: Dice, bases: Bases) returns (ok: bool)
      requires k < states.Length && PvgFinishes(board, states[k], history, turn, dice, bases)
      modifies this, states
      ensures BattlePvg(grade, old(health), board, old(states[k]), history, turn, dice, bases)
           == if ok then Some((health, states[k])) else None
      ensures states[..] == old(states[..])[k := states[k]]
    {
      hide Fight;
      var brought := GhostBoardAt(history, states[k], turn);
      if brought.None? {
        return false;
      }
      var grades := MarchOf(board, brought.value.board, dice.pvg, dice.first.pvg, dice.budget, bases);
      if grades.None? {
        return false;
      }
      ok := DamageGhostHealth(grades.value.0, grade, k, turn);
      if !ok {
        return;
      }
      ok := DamagePlayerHealth(grades.value.1, brought.value.grade);
    }

    method BattleGvgAt(j: nat, history0: Ghost, k: nat, history1: Ghost, turn: U8, dice: Dice, bases: Bases) returns (ok: bool)
      requires j < states.Length && k < states.Length && j != k
      requires GvgFinishes(states[j], history0, states[k], history1, turn, dice, bases)
      modifies states
      ensures BattleGvg(old(states[j]), history0, old(states[k]), history1, turn, dice, bases)
           == if ok then Some((states[j], states[k])) else None
      ensures states[..] == old(states[..])[j := states[j]][k := states[k]]
    {
      hide Fight;
      var ghost0, ghost1 := GhostBoardAt(history0, states[j], turn), GhostBoardAt(history1, states[k], turn);
      if ghost0.None? || ghost1.None? {
        return false;
      }
      var grades := MarchOf(ghost0.value.board, ghost1.value.board, dice.gvg, dice.first.gvg, dice.budget, bases);
      if grades.None? {
        return false;
      }
      ok := DamageGhostHealth(grades.value.1, ghost1.value.grade, j, turn);
      if !ok {
        return;
      }
      ok := DamageGhostHealth(grades.value.0, ghost0.value.grade, k, turn);
    }

    /** The place when the match is over, counted ghost by ghost. */
    method CalcFinalPlace(preHealth: U8, before: seq<GhostState>) returns (place: Option<nat>)
      requires |before| == states.Length
      ensures place == FinalPlace(health, preHealth, states[..], before)
    {
      var areAllRetired := true;
      for i := 0 to states.Length
        invariant areAllRetired == AllRetired(states[..i])
      {
        assert states[..i + 1] == states[..i] + [states[i]];
        if states[i].Active? {
          areAllRetired := false;
          assert !states[..i + 1][i].Retired?;
        }
      }
      assert states[..states.Length] == states[..];
      if areAllRetired {
        return Some(1);
      }
      if health != 0 {
        return None;
      }
      var n := 1;
      for i := 0 to states.Length
        invariant n + Ahead(states[i..], before[i..], preHealth) == 1 + Ahead(states[..], before, preHealth)
      {
        assert states[i..][1..] == states[i + 1..] && before[i..][1..] == before[i + 1..];
        if states[i].Active? {
          n := n + 1;
          continue;
        }
        if before[i].Active? {
          if before[i].health > preHealth {
            n := n + 1;
            continue;
          }
        }
      }
      return Some(n);
    }

    method BattleAllHere(board: seq<GhostEmo>, grade: U8, ghosts: seq<Ghost>, index: nat, turn: U8, dice: Dice, bases: Bases)
      returns (ok: bool, place: Option<nat>)
      requires TurnFinishes(board, states[..], ghosts, turn, dice, bases)
      modifies this, states
      ensures BattleAll(board, old(health), old(states[..]), grade, ghosts, index, turn, dice, bases)
           == if ok then Some((health, states[..], place)) else None
    {
      hide BattlePvg;
      hide BattleGvg;
      hide FinalPlace;
      var preHealth, before := health, states[..];
      place := None;
      if |ActiveIndexes(before)| > 1 {
        var sets := Min(|ghosts|, states.Length);
        if sets < 3 || index >= sets {
          return false, None;
        }
        var i, j, k := Seat(0, index), Seat(1, index), Seat(2, index);
        ok := BattlePvgAt(grade, board, i, ghosts[i], turn, dice, bases);
        if !ok {
          return;
        }
        assert states[..][j] == before[j] && states[..][k] == before[k];
        ok := BattleGvgAt(j, ghosts[j], k, ghosts[k], turn, dice, bases);
        if !ok {
          return;
        }
      } else {
        var i := FirstActive(before);
        if i.None? || i.value >= |ghosts| {
          return false, None;
        }
        ok := BattlePvgAt(grade, board, i.value, ghosts[i.value], turn, dice, bases);
        if !ok {
          return;
        }
      }
      place := CalcFinalPlace(preHealth, before);
    }
  }
}
