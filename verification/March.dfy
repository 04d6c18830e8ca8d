/** A march: abilities before the first attack, then attacks by turns until a board is empty or
    the tick counter is used up. */
module March {
  import opened Types
  import opened Rng
  import opened Battle
  import opened BattleLaws
  import opened BattleLog
  import opened BattleTermination

  /** `MFailed` is an error of the source; `MRunning` means the budget of steps ran out. */
  datatype Result = Finished(grade0: U8, grade1: U8, s: State) | MFailed | MRunning

  const TICK_MAX: nat := 255

  /** Who attacks in a tick. */
  function AttackerOf(num: nat, first: Player): Player { if num % 2 == 1 then first else Other(first) }

  function FirstAttacker(s: State): (Player, State) {
    if |s.zero| > |s.one| then (Zero, s)
    else if |s.zero| < |s.one| then (One, s)
    else (if Choice(s.tape, 2) == 0 then Zero else One, s.(tape := After(s.tape, 1)))
  }

  function PreTasks(abilities: seq<(nat, BattleAbility)>, p: Player): seq<Task> {
    if abilities == [] then []
    else
      (if abilities[0].1.GeneralSelf? && abilities[0].1.trigger.AtPre?
       then [ActAsOneself(p, abilities[0].1.action, abilities[0].0, None)] else [])
      + PreTasks(abilities[1..], p)
  }

  function CallPre(s: State, p: Player, n: nat, bases: Bases): Outcome {
    Eval(PreTasks(BoardAbilities(s.At(p), 0), p), s, n, bases)
  }

  function SumGrades(board: seq<Fighter>, bases: Bases): Option<U8> {
    if board == [] then Some(0)
    else
      var sum :- SumGrades(board[..|board| - 1], bases);
      var base :- Find(bases, board[|board| - 1].baseId);
      Some(Sat8(sum + base.grade))
  }

  function Over(s: State): bool { s.zero == [] || s.one == [] }

  function Grades(s: State, bases: Bases): Result {
    var a, b := SumGrades(s.zero, bases), SumGrades(s.one, bases);
    if a.None? || b.None? then MFailed else Finished(a.value, b.value, s)
  }

  /** One attack; None when a board is empty. */
  function AttackOnce(s: State, num: nat, first: Player, n: nat, bases: Bases): Outcome {
    var r := AttackTasks(s, AttackerOf(num, first));
    if r.None? then Outcome.Failed else Eval(r.value.1, r.value.0, n, bases)
  }

  /** The attacks from tick `num` on. */
  function Loop(s: State, num: nat, first: Player, n: nat, bases: Bases): Result
    requires num <= TICK_MAX
    decreases TICK_MAX - num
  {
    match AttackOnce(s, num, first, n, bases)
    case Failed => MFailed
    case Running => MRunning
    case Done(s', left) =>
      if Over(s') then Grades(s', bases)
      else if num == TICK_MAX then MFailed
      else Loop(s', num + 1, first, left, bases)
  }

  /** Up to the first attack. */
  function Opening(s: State, n: nat, bases: Bases): (Player, Outcome) {
    var (first, s1) := FirstAttacker(s);
    match CallPre(s1, first, n, bases)
    case Done(s2, left) => (first, CallPre(s2, Other(first), left, bases))
    case o => (first, o)
  }

  function MarchResult(s: State, n: nat, bases: Bases): Result {
    var (first, o) := Opening(s, n, bases);
    match o
    case Failed => MFailed
    case Running => MRunning
    case Done(s', left) => if Over(s') then Grades(s', bases) else Loop(s', 1, first, left, bases)
  }

  /** The boards and the rest of the budget as tick `num` begins, when it is reached. */
  function AtTick(s: State, num: nat, n: nat, bases: Bases): Option<(State, nat)>
    requires 1 <= num
    decreases num
  {
    if num == 1 then
      var o := Opening(s, n, bases).1;
      if o.Done? && !Over(o.s) then Some((o.s, o.left)) else None
    else if num > TICK_MAX then None
    else
      var (s', left) :- AtTick(s, num - 1, n, bases);
      var o := AttackOnce(s', num - 1, Opening(s, n, bases).0, left, bases);
      if o.Done? && !Over(o.s) then Some((o.s, o.left)) else None
  }

  /** The march is the loop of the ticks: a tick that is reached continues it. */
  lemma {:induction false} TicksAreTheMarch(s: State, num: nat, n: nat, bases: Bases)
    requires 1 <= num
    ensures var r := AtTick(s, num, n, bases);
            r.Some? ==> num <= TICK_MAX && MarchResult(s, n, bases) == Loop(r.value.0, num, Opening(s, n, bases).0, r.value.1, bases)
    decreases num
  {
    hide AttackOnce;
    if num > 1 {
      hide Opening;
      TicksAreTheMarch(s, num - 1, n, bases);
    }
  }

  // ----- what holds whenever a tick begins -----

  ghost predicate Untired(s: State) { forall p: Player, i :: 0 <= i < |s.At(p)| ==> s.At(p)[i].survived == 0 }

  /** Boards as a march receives them: legal, and no emo has attacked yet. */
  ghost predicate Ready(s: State, bases: Bases) { WellFormed(bases) && Fit(s, bases) && Untired(s) && s.logs == [] }

  /** What a march keeps: `tick` bounds the attack counters. */
  ghost predicate Kept(v: Scene, s: State, tick: nat, bases: Bases) {
    Fit(s, bases) && Traces(v, s) && Counted(s, [], tick)
  }

  lemma {:induction false} PreCarriesNothing(abilities: seq<(nat, BattleAbility)>, p: Player)
    ensures Quiet(PreTasks(abilities, p))
  {
    if abilities != [] {
      PreCarriesNothing(abilities[1..], p);
      var first: seq<Task> := if abilities[0].1.GeneralSelf? && abilities[0].1.trigger.AtPre?
                              then [ActAsOneself(p, abilities[0].1.action, abilities[0].0, None)] else [];
      TokensAppend(first, PreTasks(abilities[1..], p));
    }
  }

  /** A cascade that starts from quiet tasks keeps the bound, one that counts one attack raises it by one. */
  lemma EvalKeeps(v: Scene, ts: seq<Task>, s: State, tick: nat, tick': nat, n: nat, bases: Bases)
    requires WellFormed(bases) && Kept(v, s, tick, bases) && tick + Tokens(ts) <= tick'
    requires forall t :: t in ts ==> Carried(t) == 0
    ensures var o := Eval(ts, s, n, bases); o.Done? ==> Kept(v, o.s, tick', bases)
  {
    hide Eval;
    hide Fit;
    hide Traces;
    hide Step;
    hide Point;
    EndsFit(ts, s, n, bases);
    EndsTraced(v, ts, s, n, bases);
    EndIsAPoint(ts, s, n, bases);
    var o := Eval(ts, s, n, bases);
    if o.Done? {
      assert Counted(s, ts, tick');
      AlwaysCounted(ts, s, n - o.left, bases, tick');
    }
  }

  lemma AttackStarts(v: Scene, s: State, p: Player, tick: nat, bases: Bases)
    requires Kept(v, s, tick, bases)
    ensures var r := AttackTasks(s, p);
            r.Some? ==> && Kept(v, r.value.0, tick, bases) && Tokens(r.value.1) == 1
                        && forall t :: t in r.value.1 ==> Carried(t) == 0
  {
    hide Fit;
    hide Traces;
    hide AttackIndex;
    hide DefenseIndex;
    var r := AttackTasks(s, p);
    if r.Some? {
      AttackTraced(v, s, p);
      FitIsOfBoards(s, r.value.0, bases);
      var ts := r.value.1;
      assert ts[1..] == [ts[1]] && ts[1..][1..] == [];
    }
  }

  lemma AttackKeeps(v: Scene, s: State, num: nat, first: Player, n: nat, bases: Bases)
    requires WellFormed(bases) && num >= 1 && Kept(v, s, num - 1, bases)
    ensures var o := AttackOnce(s, num, first, n, bases); o.Done? ==> Kept(v, o.s, num, bases)
  {
    hide AttackTasks;
    hide Eval;
    hide Kept;
    AttackStarts(v, s, AttackerOf(num, first), num - 1, bases);
    var r := AttackTasks(s, AttackerOf(num, first));
    if r.Some? {
      EvalKeeps(v, r.value.1, r.value.0, num - 1, num, n, bases);
    }
  }

  lemma OpeningKeeps(s: State, n: nat, bases: Bases)
    requires Ready(s, bases)
    ensures var o := Opening(s, n, bases).1; o.Done? ==> Kept(View(s), o.s, 0, bases)
  {
    hide Eval;
    var v := View(s);
    var (first, s1) := FirstAttacker(s);
    assert forall e :: e in s.At(Zero) || e in s.At(One) ==> e.survived == 0;
    assert Kept(v, s1, 0, bases);
    PreCarriesNothing(BoardAbilities(s1.At(first), 0), first);
    EvalKeeps(v, PreTasks(BoardAbilities(s1.At(first), 0), first), s1, 0, 0, n, bases);
    var o := CallPre(s1, first, n, bases);
    if o.Done? {
      PreCarriesNothing(BoardAbilities(o.s.At(Other(first)), 0), Other(first));
      EvalKeeps(v, PreTasks(BoardAbilities(o.s.At(Other(first)), 0), Other(first)), o.s, 0, 0, o.left, bases);
    }
  }

  /** There are at most 255 attacks. Each begins with emos on both boards, so picking attacker and defender
      cannot fail, and no emo has counted more attacks than there were ticks before. */
  lemma {:induction false} EveryTick(s: State, num: nat, n: nat, bases: Bases)
    requires Ready(s, bases) && 1 <= num
    ensures var r := AtTick(s, num, n, bases);
            r.Some? ==> && num <= TICK_MAX && Kept(View(s), r.value.0, num - 1, bases)
                        && r.value.0.zero != [] && r.value.0.one != []
                        && AttackTasks(r.value.0, AttackerOf(num, Opening(s, n, bases).0)).Some?
    decreases num
  {
    hide Opening;
    hide AttackOnce;
    hide Kept;
    assert WellFormed(bases);
    hide Ready;
    hide View;
    hide AttackIndex;
    hide DefenseIndex;
    if num == 1 {
      OpeningKeeps(s, n, bases);
    } else {
      EveryTick(s, num - 1, n, bases);
      var r := AtTick(s, num - 1, n, bases);
      if r.Some? {
        AttackKeeps(View(s), r.value.0, num - 1, Opening(s, n, bases).0, r.value.1, bases);
      }
    }
  }

  /** Inside a tick, at every point of its cascade, every attack counter is at most the tick's number:
      a counter in a u8 never overflows. */
  lemma CountersFit(s: State, num: nat, n: nat, k: nat, bases: Bases)
    requires Ready(s, bases) && 1 <= num && AtTick(s, num, n, bases).Some?
    ensures var s' := AtTick(s, num, n, bases).value.0;
            var a := AttackTasks(s', AttackerOf(num, Opening(s, n, bases).0));
            a.Some? && var r := Point(a.value.1, a.value.0, k, bases);
                       r.Some? ==> num <= 255 && Counted(r.value.0, r.value.1, num) && Fit(r.value.0, bases)
  {
    hide Opening;
    hide AtTick;
    hide Point;
    hide AttackTasks;
    hide Fit;
    hide Traces;
    EveryTick(s, num, n, bases);
    var s', p := AtTick(s, num, n, bases).value.0, AttackerOf(num, Opening(s, n, bases).0);
    AttackStarts(View(s), s', p, num - 1, bases);
    var a := AttackTasks(s', p).value;
    assert Counted(a.0, a.1, num);
    AlwaysCounted(a.1, a.0, k, bases, num);
    AlwaysFit(a.1, a.0, k, bases);
  }

  // ----- the result -----

  function GradeSum(board: seq<Fighter>, bases: Bases): nat {
    if board == [] then 0
    else
      GradeSum(board[..|board| - 1], bases)
      + (if board[|board| - 1].baseId in bases then bases[board[|board| - 1].baseId].grade else 0)
  }

  /** The saturating sum of at most seven grades is exact, is at most 42, and is zero only for an empty board. */
  lemma {:induction false} SumIsExact(board: seq<Fighter>, bases: Bases)
    requires WellFormed(bases) && |board| <= BOARD_EMO_MAX_COUNT && forall e :: e in board ==> e.baseId in bases
    ensures SumGrades(board, bases) == Some(GradeSum(board, bases))
    ensures |board| <= GradeSum(board, bases) <= 6 * |board|
  {
    if board != [] {
      assert board[|board| - 1] in board;
      SumIsExact(board[..|board| - 1], bases);
    }
  }

  lemma GradesOfFit(s: State, bases: Bases)
    requires WellFormed(bases) && Fit(s, bases) && Over(s)
    ensures Grades(s, bases).Finished?
    ensures var r := Grades(s, bases);
            r.grade0 == GradeSum(s.zero, bases) <= 42 && r.grade1 == GradeSum(s.one, bases) <= 42 && (r.grade0 == 0 || r.grade1 == 0)
  {
    SumIsExact(s.zero, bases);
    SumIsExact(s.one, bases);
  }

  /** A finished march: the log leads from the starting boards to the final ones, one of them is empty,
      and the grades are the exact sums of what is left: at most 42, and not both positive. */
  ghost predicate Good(v: Scene, r: Result, bases: Bases) {
    r.Finished? ==>
      && Fit(r.s, bases) && Traces(v, r.s) && Over(r.s)
      && r.grade0 == GradeSum(r.s.zero, bases) <= 42 && r.grade1 == GradeSum(r.s.one, bases) <= 42
      && (r.grade0 == 0 || r.grade1 == 0)
  }

  lemma {:induction false} LoopIsGood(v: Scene, s: State, num: nat, first: Player, n: nat, bases: Bases)
    requires WellFormed(bases) && 1 <= num <= TICK_MAX && Kept(v, s, num - 1, bases)
    ensures Good(v, Loop(s, num, first, n, bases), bases)
    decreases TICK_MAX - num
  {
    hide AttackOnce;
    hide Grades;
    AttackKeeps(v, s, num, first, n, bases);
    var o := AttackOnce(s, num, first, n, bases);
    if o.Done? {
      if Over(o.s) {
        GradesOfFit(o.s, bases);
        GradesKeepState(o.s, bases);
      } else if num < TICK_MAX {
        LoopIsGood(v, o.s, num + 1, first, o.left, bases);
      }
    }
  }

  lemma GradesKeepState(s: State, bases: Bases)
    ensures var r := Grades(s, bases); r.Finished? ==> r.s == s
  {
  }

  lemma MarchIsGood(s: State, n: nat, bases: Bases)
    requires Ready(s, bases)
    ensures Good(View(s), MarchResult(s, n, bases), bases)
  {
    hide Opening;
    hide Grades;
    hide Loop;
    OpeningKeeps(s, n, bases);
    var (first, o) := Opening(s, n, bases);
    if o.Done? {
      if Over(o.s) {
        GradesOfFit(o.s, bases);
        GradesKeepState(o.s, bases);
      } else {
        LoopIsGood(View(s), o.s, 1, first, o.left, bases);
      }
    }
  }

  lemma {:induction false} LoopLeavesOneEmpty(s: State, num: nat, first: Player, n: nat, bases: Bases)
    requires num <= TICK_MAX
    ensures var r := Loop(s, num, first, n, bases); r.Finished? ==> Over(r.s) && (r.grade0 == 0 || r.grade1 == 0)
    decreases TICK_MAX - num
  {
    hide AttackOnce;
    var o := AttackOnce(s, num, first, n, bases);
    if o.Done? && !Over(o.s) && num < TICK_MAX {
      LoopLeavesOneEmpty(o.s, num + 1, first, o.left, bases);
    }
  }

  /** Whatever the boards and the table, a finished march leaves a board empty, so a grade is zero. */
  lemma OneGradeIsZero(s: State, n: nat, bases: Bases)
    ensures var r := MarchResult(s, n, bases); r.Finished? ==> Over(r.s) && (r.grade0 == 0 || r.grade1 == 0)
  {
    hide Opening;
    hide Loop;
    var (first, o) := Opening(s, n, bases);
    if o.Done? && !Over(o.s) {
      LoopLeavesOneEmpty(o.s, 1, first, o.left, bases);
    }
  }

  // ----- marches end -----

  /** A cascade from tame boards, with a budget that finishes it and tame boards after it. */
  lemma RootsEnd(ts: seq<Task>, s: State, bases: Bases, ranks: Ranks, a: nat) returns (n: nat)
    requires Stratified(bases, ranks, a) && TameState(s, a) && forall t :: t in ts ==> Root(t)
    ensures Eval(ts, s, n, bases) != Running
    ensures var o := Eval(ts, s, n, bases); o.Done? ==> TameState(o.s, a)
  {
    n := Weight(s, ts, ranks, Width(a));
    CascadesEnd(ts, s, n, bases, ranks, a);
  }

  lemma {:induction false} PreRoots(abilities: seq<(nat, BattleAbility)>, p: Player)
    requires forall x :: x in abilities ==> Tame(x.1)
    ensures forall t :: t in PreTasks(abilities, p) ==> Root(t)
  {
    if abilities != [] {
      assert abilities[0] in abilities;
      PreRoots(abilities[1..], p);
    }
  }

  lemma AttackEnds(s: State, num: nat, first: Player, bases: Bases, ranks: Ranks, a: nat) returns (n: nat)
    requires Stratified(bases, ranks, a) && TameState(s, a)
    ensures AttackOnce(s, num, first, n, bases) != Running
    ensures var o := AttackOnce(s, num, first, n, bases); o.Done? ==> TameState(o.s, a)
  {
    hide Eval;
    var r := AttackTasks(s, AttackerOf(num, first));
    n := 0;
    if r.Some? {
      n := RootsEnd(r.value.1, r.value.0, bases, ranks, a);
    }
  }

  lemma AttackMore(s: State, num: nat, first: Player, n: nat, k: nat, bases: Bases)
    ensures match AttackOnce(s, num, first, n, bases)
            case Done(s', left) => AttackOnce(s, num, first, n + k, bases) == Done(s', left + k)
            case Failed => AttackOnce(s, num, first, n + k, bases) == Outcome.Failed
            case Running => true
  {
    hide AttackTasks;
    var r := AttackTasks(s, AttackerOf(num, first));
    if r.Some? {
      MoreBudget(r.value.1, r.value.0, n, k, bases);
    }
  }

  lemma {:induction false} LoopEnds(s: State, num: nat, first: Player, bases: Bases, ranks: Ranks, a: nat) returns (n: nat)
    requires Stratified(bases, ranks, a) && TameState(s, a) && num <= TICK_MAX
    ensures forall m :: n <= m ==> Loop(s, num, first, m, bases) != MRunning
    decreases TICK_MAX - num
  {
    hide AttackOnce;
    hide Stratified;
    hide TameState;
    var n1 := AttackEnds(s, num, first, bases, ranks, a);
    var o := AttackOnce(s, num, first, n1, bases);
    var n2 := 0;
    if o.Done? && !Over(o.s) && num < TICK_MAX {
      n2 := LoopEnds(o.s, num + 1, first, bases, ranks, a);
    }
    n := n1 + n2;
    forall m | n <= m ensures Loop(s, num, first, m, bases) != MRunning {
      AttackMore(s, num, first, n1, m - n1, bases);
    }
  }

  lemma PreEnds(s: State, p: Player, bases: Bases, ranks: Ranks, a: nat) returns (n: nat)
    requires Stratified(bases, ranks, a) && TameState(s, a)
    ensures CallPre(s, p, n, bases) != Running
    ensures var o := CallPre(s, p, n, bases); o.Done? ==> TameState(o.s, a)
  {
    BoardAbilitiesTame(s.At(p), 0, a);
    PreRoots(BoardAbilities(s.At(p), 0), p);
    n := RootsEnd(PreTasks(BoardAbilities(s.At(p), 0), p), s, bases, ranks, a);
  }

  lemma PreMore(s: State, p: Player, n: nat, k: nat, bases: Bases)
    ensures match CallPre(s, p, n, bases)
            case Done(s', left) => CallPre(s, p, n + k, bases) == Done(s', left + k)
            case Failed => CallPre(s, p, n + k, bases) == Outcome.Failed
            case Running => true
  {
    MoreBudget(PreTasks(BoardAbilities(s.At(p), 0), p), s, n, k, bases);
  }

  lemma {:induction false} LoopMore(s: State, num: nat, first: Player, n: nat, k: nat, bases: Bases)
    requires num <= TICK_MAX
    ensures Loop(s, num, first, n, bases) != MRunning ==> Loop(s, num, first, n + k, bases) == Loop(s, num, first, n, bases)
    decreases TICK_MAX - num
  {
    hide AttackOnce;
    AttackMore(s, num, first, n, k, bases);
    var o := AttackOnce(s, num, first, n, bases);
    if o.Done? && !Over(o.s) && num < TICK_MAX {
      LoopMore(o.s, num + 1, first, o.left, k, bases);
    }
  }

  /** A march that ends ends the same with every larger budget. */
  lemma MarchMore(s: State, n: nat, k: nat, bases: Bases)
    ensures MarchResult(s, n, bases) != MRunning ==> MarchResult(s, n + k, bases) == MarchResult(s, n, bases)
  {
    hide CallPre;
    hide Loop;
    hide Grades;
    var (first, s1) := FirstAttacker(s);
    PreMore(s1, first, n, k, bases);
    var o1 := CallPre(s1, first, n, bases);
    if o1.Done? {
      PreMore(o1.s, Other(first), o1.left, k, bases);
      var o2 := CallPre(o1.s, Other(first), o1.left, bases);
      if o2.Done? && !Over(o2.s) {
        LoopMore(o2.s, 1, first, o2.left, k, bases);
      }
    }
  }

  /** Over a stratified table every march comes to an end: some budget is enough, and so is every larger one. */
  lemma MarchesEnd(s: State, bases: Bases, ranks: Ranks) returns (n: nat)
    requires Ranked(bases, ranks) && MildBoard(s.zero) && MildBoard(s.one)
    ensures forall m :: n <= m ==> MarchResult(s, m, bases) != MRunning
  {
    hide CallPre;
    hide Loop;
    hide Ranked;
    hide MildBoard;
    var a := TameBound(s, bases, ranks);
    var (first, s1) := FirstAttacker(s);
    var n1 := PreEnds(s1, first, bases, ranks, a);
    var o1 := CallPre(s1, first, n1, bases);
    var n2, n3 := 0, 0;
    if o1.Done? {
      n2 := PreEnds(o1.s, Other(first), bases, ranks, a);
      var o2 := CallPre(o1.s, Other(first), n2, bases);
      if o2.Done? && !Over(o2.s) {
        n3 := LoopEnds(o2.s, 1, first, bases, ranks, a);
      }
    }
    n := n1 + n2 + n3;
    forall m | n <= m ensures MarchResult(s, m, bases) != MRunning {
      PreMore(s1, first, n1, m - n1, bases);
      if o1.Done? {
        PreMore(o1.s, Other(first), n2, o1.left + (m - n1) - n2, bases);
      }
    }
  }
}
