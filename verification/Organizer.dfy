/** The battles of one turn: the player against a ghost and, while more than one ghost is left, the
    other two ghosts against each other. */
module Organizer {
  import opened Types
  import opened Rng
  import opened Battle
  import opened March

  datatype GhostState = Active(health: U8) | Retired(finalTurn: U8)

  /** The emo ids that the two marches of a turn start from; where the second one starts is left open. */
  datatype FirstIds = FirstIds(pvg: nat, gvg: nat)

  /** What a turn's battles draw from: the generators of the two marches, their first emo ids and the budget of steps. */
  datatype Dice = Dice(pvg: Tape, gvg: Tape, first: FirstIds, budget: nat)

  function Fighters(board: seq<GhostEmo>, first: nat, bases: Bases): Option<seq<Fighter>> {
    if board == [] then Some([])
    else
      var base :- Find(bases, board[0].baseId);
      var rest :- Fighters(board[1..], first + 1, bases);
      Some([Fighter(first % 0x1_0000, base.id, base.typ, board[0].attr, 0)] + rest)
  }

  /** The grades that a march leaves; None when it is an error or does not finish within the budget. */
  function Fight(zero: seq<GhostEmo>, one: seq<GhostEmo>, tape: Tape, first: nat, budget: nat, bases: Bases): Option<(U8, U8)> {
    var f0 :- Fighters(zero, first, bases);
    var f1 :- Fighters(one, first + |zero|, bases);
    match MarchResult(State(f0, f1, [], first + |zero| + |one|, tape), budget, bases)
    case Finished(a, b, _) => Some((a, b))
    case _ => None
  }

  function GhostBoard(board: Board): seq<GhostEmo> {
    seq(|board|, i requires 0 <= i < |board| => GhostEmo(board[i].baseId, board[i].attr))
  }

  const EMPTY_BOARD: GradeAndGhostBoard := GradeAndGhostBoard(1, [])

  /** Which board of its history a ghost brings; None when the index would be out of range. */
  function GhostBoardAt(history: Ghost, state: GhostState, turn: U8): Option<GradeAndGhostBoard> {
    var len := |history| % 0x100;
    if len == 0 then Some(EMPTY_BOARD)
    else
      var effective := if state.Retired? then Min(turn, state.finalTurn) else turn;
      if len >= effective then (if effective == 0 then None else Some(history[effective - 1])) else Some(history[len - 1])
  }

  /** None when the sum of the grades does not fit in a u8. */
  function DamageHealth(boardGrade: U8, grade: U8, health: U8): Option<U8> {
    if boardGrade == 0 then Some(health)
    else if boardGrade + grade > U8_MAX then None
    else Some(if health < boardGrade + grade then 0 else health - (boardGrade + grade))
  }

  function DamageGhost(boardGrade: U8, grade: U8, state: GhostState, turn: U8): Option<GhostState> {
    if state.Retired? then Some(state)
    else
      var health :- DamageHealth(boardGrade, grade, state.health);
      Some(if health == 0 then Retired(turn) else Active(health))
  }

  function BattlePvg(grade: U8, health: U8, board: seq<GhostEmo>, state: GhostState, history: Ghost, turn: U8, dice: Dice, bases: Bases)
    : Option<(U8, GhostState)>
  {
    var brought :- GhostBoardAt(history, state, turn);
    var grades :- Fight(board, brought.board, dice.pvg, dice.first.pvg, dice.budget, bases);
    var state' :- DamageGhost(grades.0, grade, state, turn);
    var health' :- DamageHealth(grades.1, brought.grade, health);
    Some((health', state'))
  }

  function BattleGvg(state0: GhostState, history0: Ghost, state1: GhostState, history1: Ghost, turn: U8, dice: Dice, bases: Bases)
    : Option<(GhostState, GhostState)>
  {
    var ghost0 :- GhostBoardAt(history0, state0, turn);
    var ghost1 :- GhostBoardAt(history1, state1, turn);
    var grades :- Fight(ghost0.board, ghost1.board, dice.gvg, dice.first.gvg, dice.budget, bases);
    var state0' :- DamageGhost(grades.1, ghost1.grade, state0, turn);
    var state1' :- DamageGhost(grades.0, ghost0.grade, state1, turn);
    Some((state0', state1'))
  }

  /** The `k`-th place once the places of 0 and `index` are swapped. */
  function Seat(k: nat, index: nat): nat { if k == 0 then index else if k == index then 0 else k }

  function BattlePvgAndGvg(board: seq<GhostEmo>, grade: U8, health: U8, ghosts: seq<Ghost>, states: seq<GhostState>, index: nat,
                           turn: U8, dice: Dice, bases: Bases): Option<(U8, seq<GhostState>)>
  {
    var sets := Min(|ghosts|, |states|);
    if sets < 3 || index >= sets then None
    else
      var i, j, k := Seat(0, index), Seat(1, index), Seat(2, index);
      var (health', first) :- BattlePvg(grade, health, board, states[i], ghosts[i], turn, dice, bases);
      var (second, third) :- BattleGvg(states[j], ghosts[j], states[k], ghosts[k], turn, dice, bases);
      Some((health', states[i := first][j := second][k := third]))
  }

  function FirstActive(states: seq<GhostState>): (r: Option<nat>)
    ensures r.Some? ==> r.value < |states| && states[r.value].Active?
    ensures r.None? ==> forall i :: 0 <= i < |states| ==> states[i].Retired?
  {
    if states == [] then None
    else if states[0].Active? then Some(0)
    else
      var i := FirstActive(states[1..]);
      if i.None? then (assert forall j :: 1 <= j < |states| ==> states[j] == states[1..][j - 1]; None) else Some(i.value + 1)
  }

  function ActiveIndexes(states: seq<GhostState>): (r: seq<nat>)
    ensures forall i :: i in r <==> 0 <= i < |states| && states[i].Active?
  {
    if states == [] then []
    else
      ActiveIndexes(states[..|states| - 1]) + if states[|states| - 1].Active? then [|states| - 1] else []
  }

  predicate AllRetired(states: seq<GhostState>) { forall i :: 0 <= i < |states| ==> states[i].Retired? }

  /** One for each ghost still active or beaten only now with more health than the player had. */
  function Ahead(states: seq<GhostState>, before: seq<GhostState>, preHealth: U8): nat
    requires |states| == |before|
  {
    if states == [] then 0
    else
      (if states[0].Active? || (before[0].Active? && before[0].health > preHealth) then 1 else 0)
      + Ahead(states[1..], before[1..], preHealth)
  }

  function FinalPlace(health: U8, preHealth: U8, states: seq<GhostState>, before: seq<GhostState>): Option<nat>
    requires |states| == |before|
  {
    if AllRetired(states) then Some(1) else if health == 0 then Some(1 + Ahead(states, before, preHealth)) else None
  }

  /** What a turn's battles do to the player's health and the ghosts, and the place when the match is over. */
  function BattleAll(board: seq<GhostEmo>, health: U8, states: seq<GhostState>, grade: U8, ghosts: seq<Ghost>, index: nat, turn: U8,
                     dice: Dice, bases: Bases): (r: Option<(U8, seq<GhostState>, Option<nat>)>)
  {
    if |ActiveIndexes(states)| > 1 then
      var (health', states') :- BattlePvgAndGvg(board, grade, health, ghosts, states, index, turn, dice, bases);
      Some((health', states', FinalPlace(health', health, states', states)))
    else
      var i :- FirstActive(states);
      if i >= |ghosts| then None
      else
        var (health', state) :- BattlePvg(grade, health, board, states[i], ghosts[i], turn, dice, bases);
        var states' := states[i := state];
        Some((health', states', FinalPlace(health', health, states', states)))
  }

  function Except(indexes: seq<nat>, i: nat): seq<nat> {
    if indexes == [] then [] else (if indexes[0] == i then [] else [indexes[0]]) + Except(indexes[1..], i)
  }

  /** The ghost of the next turn: the only active one, or another active one than before. */
  function SelectGhost(states: seq<GhostState>, previous: nat, tape: Tape): Option<nat> {
    var live := ActiveIndexes(states);
    if live == [] then None
    else if |live| == 1 then Some(live[0])
    else
      var others := Except(live, previous);
      if others == [] then None else Some(others[Choice(tape, |others|)])
  }
}
