/** The march as the program runs it: a tick counter in a loop over boards that attacks change in place. */
module MarchEngine {
  import opened Types
  import opened Battle
  import opened March
  import opened BattleEngine

  class Tick {
    var num: nat
    const first: Player

    constructor (first: Player)
      ensures num == 1 && this.first == first
    {
      this.first := first;
      num := 1;
    }

    function AttackPlayer(): Player
      reads this
    {
      AttackerOf(num, first)
    }

    /** An error once the counter has reached the largest u8. */
    method Next() returns (ok: bool)
      requires num <= TICK_MAX
      modifies this
      ensures ok == (old(num) < TICK_MAX) && num == if ok then old(num) + 1 else old(num)
    {
      if num == TICK_MAX {
        return false;
      }
      num := num + 1;
      return true;
    }
  }

  /** The saturating sum of the grades; None when a base is unknown. */
  method SumGradesOf(emos: seq<Fighter>, bases: Bases) returns (r: Option<U8>)
    ensures r == SumGrades(emos, bases)
  {
    var sum: U8 := 0;
    for i := 0 to |emos|
      invariant SumGrades(emos[..i], bases) == Some(sum)
    {
      assert emos[..i + 1][..i] == emos[..i];
      if emos[i].baseId !in bases {
        NoSum(emos, i, bases);
        return None;
      }
      sum := Sat8(sum + bases[emos[i].baseId].grade);
    }
    assert emos[..|emos|] == emos;
    return Some(sum);
  }

  lemma {:induction false} NoSum(emos: seq<Fighter>, i: nat, bases: Bases)
    requires i < |emos| && emos[i].baseId !in bases
    ensures SumGrades(emos, bases).None?
  {
    if i < |emos| - 1 {
      NoSum(emos[..|emos| - 1], i, bases);
    }
  }

  method RemainingGrades(boards: BattleBoards) returns (r: Result)
    requires Over(boards.View())
    ensures r == Grades(boards.View(), boards.bases)
  {
    var grade0 := SumGradesOf(boards.zero, boards.bases);
    var grade1 := SumGradesOf(boards.one, boards.bases);
    if grade0.None? || grade1.None? {
      return MFailed;
    }
    return Finished(grade0.value, grade1.value, State(boards.zero, boards.one, boards.logs, boards.next, boards.tape));
  }

  /** The march gives what the specification says, for every budget that finishes it. */
  method RunMarch(boards: BattleBoards, ghost n: nat) returns (r: Result)
    requires MarchResult(boards.View(), n, boards.bases) != MRunning
    modifies boards
    ensures r == MarchResult(old(boards.View()), n, boards.bases)
  {
    hide Eval;
    hide SumGrades;
    hide AttackTasks;
    hide CallPre;
    ghost var s0, left, bases := boards.View(), n, boards.bases;
    var (first, s1) := FirstAttacker(State(boards.zero, boards.one, boards.logs, boards.next, boards.tape));
    boards.tape := s1.tape;
    var ok;
    ok, left := boards.CallPreAbilities(first, n);
    if !ok {
      return MFailed;
    }
    ok, left := boards.CallPreAbilities(Other(first), left);
    if !ok {
      return MFailed;
    }
    if boards.zero == [] || boards.one == [] {
      r := RemainingGrades(boards);
      return;
    }
    var tick := new Tick(first);
    while true
      invariant 1 <= tick.num <= TICK_MAX && tick.first == first
      invariant Loop(boards.View(), tick.num, first, left, bases) == MarchResult(s0, n, bases)
      decreases TICK_MAX - tick.num
    {
      label Before:
      assert AttackOnce(boards.View(), tick.num, first, left, bases) != Running;
      ghost var budget := left;
      ok, left := boards.Attack(tick.AttackPlayer(), left);
      assert AttackOnce(old@Before(boards.View()), tick.num, first, budget, bases)
          == if ok then Done(boards.View(), left) else Outcome.Failed;
      if !ok {
        return MFailed;
      }
      if boards.zero == [] || boards.one == [] {
        r := RemainingGrades(boards);
        return;
      }
      ok := tick.Next();
      if !ok {
        return MFailed;
      }
    }
  }
}
