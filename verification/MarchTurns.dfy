/** In a march the players take turns: told from its log alone. */
module MarchTurns {
  import opened Types
  import opened Battle
  import opened BattleLaws
  import opened BattleReactions
  import opened Listing
  import opened Rng
  import opened March

  /** Who attacked, in the order of the entries. */
  function Attackers(logs: seq<Log>): seq<Player> {
    if logs == [] then []
    else
      var last := logs[|logs| - 1];
      Attackers(logs[..|logs| - 1]) + (if last.Attack? then [last.attacker] else [])
  }

  /** The players attack by turns, `p` first. */
  ghost predicate ByTurns(attackers: seq<Player>, p: Player) {
    forall k :: 0 <= k < |attackers| ==> attackers[k] == if k % 2 == 0 then p else if p == Zero then One else Zero
  }

  // ----- no step of a cascade is an attack -----

  lemma AttackersMore(logs: seq<Log>, log: Log)
    ensures Attackers(logs + [log]) == Attackers(logs) + if log.Attack? then [log.attacker] else []
  {
    assert (logs + [log])[..|logs|] == logs;
  }

  lemma StepAttackers(s: State, t: Task, bases: Bases)
    ensures var r := Step(s, t, bases); r.Some? ==> Attackers(r.value.0.logs) == Attackers(s.logs)
  {
    hide Attackers;
    hide Spread;
    hide SpreadAct;
    hide React;
    hide RetireTasks;
    hide BoardAbilities;
    hide BattleOf;
    forall logs, log ensures Attackers(logs + [log]) == Attackers(logs) + if log.Attack? then [log.attacker] else [] {
      AttackersMore(logs, log);
    }
  }

  lemma CascadeAttackers(ts: seq<Task>, s: State, n: nat, bases: Bases)
    ensures var o := Eval(ts, s, n, bases); o.Done? ==> Attackers(o.s.logs) == Attackers(s.logs)
  {
    hide Battle.Step;
    hide Battle.Eval;
    hide Battle.Point;
    hide Attackers;
    var attackers := Attackers(s.logs);
    var inv := (s1: State, pending: seq<Task>) => Attackers(s1.logs) == attackers;
    forall s1, t, rest | inv(s1, [t] + rest) && Step(s1, t, bases).Some?
      ensures inv(Step(s1, t, bases).value.0, Step(s1, t, bases).value.1 + rest)
    {
      StepAttackers(s1, t, bases);
    }
    EndIsAPoint(ts, s, n, bases);
    var o := Eval(ts, s, n, bases);
    if o.Done? {
      EveryPoint(inv, ts, s, n - o.left, bases);
    }
  }

  // ----- the ticks -----

  lemma OpeningAttackers(s: State, n: nat, bases: Bases)
    ensures var o := Opening(s, n, bases).1; o.Done? ==> Attackers(o.s.logs) == Attackers(s.logs)
  {
    hide Attackers;
    hide Eval;
    hide PreTasks;
    var (first, s1) := FirstAttacker(s);
    CascadeAttackers(PreTasks(BoardAbilities(s1.At(first), 0), first), s1, n, bases);
    var o := CallPre(s1, first, n, bases);
    if o.Done? {
      CascadeAttackers(PreTasks(BoardAbilities(o.s.At(Other(first)), 0), Other(first)), o.s, o.left, bases);
    }
  }

  /** The attack of a tick is entered once, for the player whose turn it is. */
  lemma TickAttackers(s: State, num: nat, first: Player, n: nat, bases: Bases)
    ensures var o := AttackOnce(s, num, first, n, bases);
            var p := if num % 2 == 1 then first else if first == Zero then One else Zero;
            o.Done? ==> Attackers(o.s.logs) == Attackers(s.logs) + [p]
  {
    hide Attackers;
    hide Eval;
    hide AttackIndex;
    hide DefenseIndex;
    var p := AttackerOf(num, first);
    var r := AttackTasks(s, p);
    if r.Some? {
      CascadeAttackers(r.value.1, r.value.0, n, bases);
      AttackersMore(s.logs, r.value.0.logs[|s.logs|]);
    }
  }

  lemma OneMoreTurn(attackers: seq<Player>, first: Player)
    requires ByTurns(attackers, first)
    ensures var p := if |attackers| % 2 == 0 then first else if first == Zero then One else Zero; ByTurns(attackers + [p], first)
  {
  }

  /** When tick `num` begins there were `num - 1` attacks, by turns. */
  lemma {:induction false} TicksTakeTurns(s: State, num: nat, n: nat, bases: Bases)
    requires s.logs == [] && 1 <= num
    ensures var r := AtTick(s, num, n, bases);
            r.Some? ==> |Attackers(r.value.0.logs)| == num - 1 && ByTurns(Attackers(r.value.0.logs), Opening(s, n, bases).0)
    decreases num
  {
    hide Opening;
    hide AttackOnce;
    if num == 1 {
      OpeningAttackers(s, n, bases);
    } else {
      TicksTakeTurns(s, num - 1, n, bases);
      var r := AtTick(s, num - 1, n, bases);
      if r.Some? {
        var first := Opening(s, n, bases).0;
        TickAttackers(r.value.0, num - 1, first, r.value.1, bases);
        OneMoreTurn(Attackers(r.value.0.logs), first);
      }
    }
  }

  lemma LongerStarts(s: State, n: nat, bases: Bases)
    ensures |s.zero| > |s.one| ==> Opening(s, n, bases).0 == Zero
    ensures |s.zero| < |s.one| ==> Opening(s, n, bases).0 == One
  {
    hide CallPre;
  }

  /** Boards of equal length toss for the start, and either may win. */
  lemma EqualBoardsToss(s: State, p: Player, n: nat, bases: Bases) returns (tape: Tape)
    requires |s.zero| == |s.one|
    ensures Opening(s.(tape := tape), n, bases).0 == p
  {
    hide CallPre;
    tape := if p == Zero then [0] else [1];
  }

  /** Whoever starts also performs the abilities before the first attack first; then the other side does, on what is left. */
  lemma OpeningIs(s: State, n: nat, bases: Bases) returns (s1: State, ours: seq<Task>, theirs: seq<Task>)
    ensures s1 == s.(tape := s1.tape)
    ensures var first, o, middle := Opening(s, n, bases).0, Opening(s, n, bases).1, Eval(ours, s1, n, bases);
            var other := if first == Zero then One else Zero;
            && Collects(ours, AbilitiesOf(s.At(first)), BeforeFirstAttack(first))
            && if middle.Done?
               then Collects(theirs, AbilitiesOf(middle.s.At(other)), BeforeFirstAttack(other))
                    && o == Eval(theirs, middle.s, middle.left, bases)
               else o == middle
  {
    hide Eval;
    hide Collects;
    hide AbilitiesOf;
    hide CallPre;
    var first := FirstAttacker(s).0;
    s1 := FirstAttacker(s).1;
    ours := PreActions(s1, first, n, bases);
    theirs := [];
    var o := CallPre(s1, first, n, bases);
    if o.Done? {
      theirs := PreActions(o.s, Other(first), o.left, bases);
    }
  }

  /** The tick that is reached next, whether the march will finish or not: no player attacked twice in a row before it, and the
      longer board started. */
  lemma TicksAlternate(s: State, num: nat, n: nat, bases: Bases)
    requires s.logs == [] && 1 <= num
    ensures var r := AtTick(s, num, n, bases);
            r.Some? ==>
              var attackers := Attackers(r.value.0.logs);
              && |attackers| == num - 1 && (forall k :: 0 <= k < num - 2 ==> attackers[k] != attackers[k + 1])
              && (num > 1 && |s.zero| > |s.one| ==> attackers[0] == Zero)
              && (num > 1 && |s.zero| < |s.one| ==> attackers[0] == One)
  {
    hide AtTick;
    hide Attackers;
    TicksTakeTurns(s, num, n, bases);
    LongerStarts(s, n, bases);
    var r := AtTick(s, num, n, bases);
    if r.Some? {
      Alternating(Attackers(r.value.0.logs), Opening(s, n, bases).0);
    }
  }

  // ----- the whole march -----

  lemma {:induction false} LoopTakesTurns(s: State, num: nat, first: Player, n: nat, bases: Bases)
    requires 1 <= num <= TICK_MAX && |Attackers(s.logs)| == num - 1 && ByTurns(Attackers(s.logs), first)
    ensures var r := Loop(s, num, first, n, bases);
            r.Finished? ==> num <= |Attackers(r.s.logs)| <= TICK_MAX && ByTurns(Attackers(r.s.logs), first)
    decreases TICK_MAX - num
  {
    hide AttackOnce;
    hide Grades;
    hide Attackers;
    var o := AttackOnce(s, num, first, n, bases);
    if o.Done? {
      TickAttackers(s, num, first, n, bases);
      OneMoreTurn(Attackers(s.logs), first);
      GradesKeepState(o.s, bases);
      if !Over(o.s) && num < TICK_MAX {
        LoopTakesTurns(o.s, num + 1, first, o.left, bases);
      }
    }
  }

  /** The log of a finished march shows at most 255 attacks, no two in a row by the same player; the longer board starts. */
  lemma MarchTakesTurns(s: State, n: nat, bases: Bases)
    requires s.logs == []
    ensures var r := MarchResult(s, n, bases);
            r.Finished? ==>
              var attackers := Attackers(r.s.logs);
              && |attackers| <= 255 && (forall k :: 0 <= k < |attackers| - 1 ==> attackers[k] != attackers[k + 1])
              && (attackers != [] && |s.zero| > |s.one| ==> attackers[0] == Zero)
              && (attackers != [] && |s.zero| < |s.one| ==> attackers[0] == One)
  {
    hide CallPre;
    hide Loop;
    hide Grades;
    OpeningAttackers(s, n, bases);
    var (first, o) := Opening(s, n, bases);
    if o.Done? {
      GradesKeepState(o.s, bases);
      if !Over(o.s) {
        LoopTakesTurns(o.s, 1, first, o.left, bases);
        hide Attackers;
        var r := MarchResult(s, n, bases);
        if r.Finished? {
          Alternating(Attackers(r.s.logs), first);
        }
      }
    }
  }

  lemma Alternating(attackers: seq<Player>, p: Player)
    requires ByTurns(attackers, p)
    ensures forall k :: 0 <= k < |attackers| - 1 ==> attackers[k] != attackers[k + 1]
    ensures attackers != [] ==> attackers[0] == p
  {
  }
}
