/** Termination of the shop cascade, for any ability data: every task list runs to an end,
    and one operation makes at most 32 emos. */
module ShopRun {
  import opened Types
  import opened Shop

  // ----- sums over a board -----

  lemma {:induction false} SumAppend(unit: ShopEmo -> nat, a: seq<ShopEmo>, b: seq<ShopEmo>)
    ensures Sum(unit, a + b) == Sum(unit, a) + Sum(unit, b)
  {
    if a == [] {
      assert a + b == b;
    } else {
      assert (a + b)[1..] == a[1..] + b;
      SumAppend(unit, a[1..], b);
    }
  }

  lemma SumInsert(unit: ShopEmo -> nat, board: seq<ShopEmo>, e: ShopEmo, i: nat)
    requires i <= |board|
    ensures Sum(unit, board[..i] + [e] + board[i..]) == Sum(unit, board) + unit(e)
  {
    SumAppend(unit, board[..i] + [e], board[i..]);
    SumAppend(unit, board[..i], [e]);
    SumAppend(unit, board[..i], board[i..]);
    assert board == board[..i] + board[i..];
    assert [e][1..] == [];
  }

  lemma SumUpdate(unit: ShopEmo -> nat, board: seq<ShopEmo>, e: ShopEmo, i: nat)
    requires i < |board|
    ensures Sum(unit, board[i := e]) + unit(board[i]) == Sum(unit, board) + unit(e)
  {
    SumInsert(unit, board[..i] + board[i + 1..], e, i);
    SumInsert(unit, board[..i] + board[i + 1..], board[i], i);
    var rest := board[..i] + board[i + 1..];
    assert rest[..i] + [e] + rest[i..] == board[i := e];
    assert rest[..i] + [board[i]] + rest[i..] == board;
  }

  lemma {:induction false} SumSplit(unit: ShopEmo -> nat, board: seq<ShopEmo>, baseId: U16)
    ensures Sum(unit, Copies(board, baseId)) + Sum(unit, WithoutCopies(board, baseId)) == Sum(unit, board)
  {
    if board != [] {
      SumSplit(unit, board[1..], baseId);
      SumAppend(unit, if IsCopy(board[0], baseId) then [board[0]] else [], Copies(board[1..], baseId));
      SumAppend(unit, if IsCopy(board[0], baseId) then [] else [board[0]], WithoutCopies(board[1..], baseId));
    }
  }

  /** Every emo is either a copy of `baseId` or one of the others. */
  lemma {:induction false} CopiesPartition(board: seq<ShopEmo>, baseId: U16)
    ensures forall e :: e in Copies(board, baseId) <==> e in board && IsCopy(e, baseId)
    ensures forall e :: e in WithoutCopies(board, baseId) <==> e in board && !IsCopy(e, baseId)
    ensures |Copies(board, baseId)| + |WithoutCopies(board, baseId)| == |board|
    ensures |CopyIndexes(board, baseId, 0)| == |Copies(board, baseId)|
  {
    if board != [] {
      CopiesPartition(board[1..], baseId);
      CopyIndexesLength(board, baseId, 0);
      assert board == [board[0]] + board[1..];
    }
  }

  lemma CopyIndexesLength(board: seq<ShopEmo>, baseId: U16, from: nat)
    ensures |CopyIndexes(board, baseId, from)| == |Copies(board, baseId)|
  {
  }

  lemma {:induction false} TriplesAtMostAll(board: seq<ShopEmo>)
    ensures Triples(board) <= |board|
  {
    if board != [] {
      TriplesAtMostAll(board[1..]);
    }
  }

  lemma {:induction false} NoTriples(board: seq<ShopEmo>)
    requires forall e :: e in board ==> !e.attr.isTriple
    ensures Triples(board) == 0
  {
    if board != [] {
      NoTriples(board[1..]);
    }
  }

  // ----- the potential -----

  /** A merge spends its copies and a set spends a free place; either way the potential falls. */
  lemma CapacitySteps(triples: nat)
    ensures triples < 7 ==> Capacity(triples + 1) < Capacity(triples)
    ensures triples <= 4 ==> Capacity(triples) == (7 - triples) + 1 + Capacity(triples + 1)
    ensures triples <= 7 ==> 7 - triples <= Capacity(triples) <= 32
    decreases 7 - Min(triples, 7)
  {
    if triples <= 4 {
      CapacitySteps(triples + 1);
    }
  }

  lemma PotentialInRange(board: seq<ShopEmo>)
    ensures Triples(board) <= |board|
    ensures |board| <= 7 ==> Potential(board) == Capacity(Triples(board)) - (|board| - Triples(board)) <= 32
    ensures |board| > 7 ==> Potential(board) > 32
  {
    TriplesAtMostAll(board);
    CapacitySteps(Triples(board));
  }

  lemma InsertLowersPotential(board: seq<ShopEmo>, e: ShopEmo, i: nat)
    requires |board| < 7 && i <= |board|
    ensures Potential(board[..i] + [e] + board[i..]) < Potential(board)
  {
    SumInsert(TripleUnit, board, e, i);
    PotentialInRange(board);
    PotentialInRange(board[..i] + [e] + board[i..]);
    CapacitySteps(Triples(board));
  }

  lemma UpdateKeepsPotential(board: seq<ShopEmo>, e: ShopEmo, i: nat)
    requires i < |board| && e.attr.isTriple == board[i].attr.isTriple
    ensures Potential(board[i := e]) == Potential(board)
  {
    SumUpdate(TripleUnit, board, e, i);
  }

  lemma CopiesAreNoTriples(board: seq<ShopEmo>, baseId: U16)
    ensures Triples(WithoutCopies(board, baseId)) == Triples(board)
    ensures Triples(board) + |Copies(board, baseId)| <= |board|
  {
    CopiesPartition(board, baseId);
    SumSplit(TripleUnit, board, baseId);
    NoTriples(Copies(board, baseId));
    TriplesAtMostAll(WithoutCopies(board, baseId));
  }

  lemma MergeLowersPotential(board: seq<ShopEmo>, baseId: U16, triple: ShopEmo, i: nat)
    requires |Copies(board, baseId)| >= 3 && triple.attr.isTriple
    requires |WithoutCopies(board, baseId)| < 7 && i <= |WithoutCopies(board, baseId)|
    ensures var rest := WithoutCopies(board, baseId);
            Potential(rest[..i] + [triple] + rest[i..]) < Potential(board)
  {
    var rest := WithoutCopies(board, baseId);
    var merged := rest[..i] + [triple] + rest[i..];
    CopiesPartition(board, baseId);
    CopiesAreNoTriples(board, baseId);
    SumInsert(TripleUnit, rest, triple, i);
    PotentialInRange(board);
    PotentialInRange(merged);
    CapacitySteps(Triples(board));
    assert Triples(merged) == Triples(board) + 1;
    assert |merged| == |board| - |Copies(board, baseId)| + 1;
  }

  // ----- the class of the tasks a task spreads into -----

  lemma MaxClassAtMost(ts: seq<Task>, k: nat)
    requires forall t :: t in ts ==> Class(t) <= k
    ensures MaxClass(ts) <= k
  {
  }

  lemma RaiseTasksClass()
    ensures forall ids, attack, health :: MaxClass(RaiseTasks(ids, attack, health)) == 0
  {
    forall ids, attack, health ensures MaxClass(RaiseTasks(ids, attack, health)) == 0 {
      RaiseTasksClassOf(ids, attack, health);
    }
  }

  lemma RaiseTasksClassOf(ids: seq<nat>, attack: U16, health: U16)
    ensures MaxClass(RaiseTasks(ids, attack, health)) == 0
  {
  }

  lemma GrantTasksClass(ids: seq<nat>, ability: Ability)
    ensures MaxClass(GrantTasks(ids, ability)) == 0
  {
  }

  lemma SetActionTasksClass(peris: seq<Peri>, ptr: Pointer, isTriple: bool, twice: bool)
    ensures forall t :: t in SetActionTasks(peris, ptr, isTriple, twice) ==> Class(t) == 1
  {
  }

  lemma SweepTasksClass(peris: seq<(nat, Peri)>, newId: nat, typ: Typ, isNewTriple: bool)
    ensures forall t :: t in SweepTasks(peris, newId, typ, isNewTriple) ==> Class(t) == 2
  {
  }

  lemma SpreadLowersClass(board: seq<ShopEmo>, t: Task, bases: Bases)
    requires t.ActAsOneself? || t.ActAsAlly? || t.AllySweep?
    ensures var ts := Spread(board, t, bases); ts.Some? ==> MaxClass(ts.value) < Class(t)
  {
    var ts := Spread(board, t, bases);
    if ts.Some? {
      match t
      case ActAsOneself(_, _) =>
      case ActAsAlly(allyAction, onesId, ptr) =>
        if allyAction.TriggerSetActions? {
          var ally, ones := PointedEmo(board, ptr).value, FindEmo(board, onesId).value;
          SetActionTasksClass(PeriOf(ally.attr.abilities), ptr, ally.attr.isTriple, ones.attr.isTriple);
          MaxClassAtMost(ts.value, 1);
        }
      case AllySweep(newId, typ, isNewTriple) =>
        SweepTasksClass(BoardPeris(board), newId, typ, isNewTriple);
        MaxClassAtMost(ts.value, 2);
    }
  }

  lemma SpreadActionClass(board: seq<ShopEmo>, action: ShopAction, ptr: Pointer, isTriple: bool, bases: Bases)
    requires !action.SetEmo? && !action.GetCoin? && !action.GetCoinByEmoCountDiv?
    ensures var ts := SpreadAction(board, action, ptr, isTriple, bases); ts.Some? ==> MaxClass(ts.value) == 0
  {
    var ts := SpreadAction(board, action, ptr, isTriple, bases);
    if ts.Some? {
      RaiseTasksClass();
      match action
      case IncreaseStats(_, _, _) =>
      case IncreaseStatsByGrade(_, _, _) =>
      case IncreaseStatsByEmoCount(_, _, _, _) =>
      case IncreaseStatsOfAdjacentMenagerie(_, _) =>
      case AddAbility(target, ability) => GrantTasksClass(TargetIds(board, ptr, target, bases).value, ability);
    }
  }

  // ----- one step shrinks the measure -----

  /** Each emo made is paid for by the potential; a task that makes none leaves only smaller tasks. */
  ghost predicate Shrinks(s: State, t: Task, s': State, ts: seq<Task>) {
    && s'.next + Potential(s'.board) <= s.next + Potential(s.board)
    && s.next <= s'.next
    && (Potential(s'.board) < Potential(s.board)
        || (Potential(s'.board) == Potential(s.board) && (ts == [] || MaxClass(ts) < Class(t))))
  }

  lemma MergeShrinks(s: State, newId: nat, bases: Bases)
    ensures var r := MergeCopies(s, newId, bases); r.Some? ==> Shrinks(s, Merge(newId), r.value.0, r.value.1)
  {
    var r := MergeCopies(s, newId, bases);
    if r.Some? {
      var i := FindIndex(s.board, newId).value;
      var baseId := s.board[i].baseId;
      if |Copies(s.board, baseId)| >= 3 {
        var triple := BuildTriple(Copies(s.board, baseId), Find(bases, baseId).value, s.next).value;
        MergeLowersPotential(s.board, baseId, triple, |WithoutCopies(s.board[..i], baseId)|);
      }
    }
  }

  lemma SpawnShrinks(s: State, baseId: U16, ptr: Pointer, isTriple: bool, bases: Bases)
    ensures var r := SpawnEmo(s, baseId, ptr, isTriple, bases);
            r.Some? ==> Shrinks(s, Act(SetEmo(baseId), ptr, isTriple), r.value.0, r.value.1)
  {
    var r := SpawnEmo(s, baseId, ptr, isTriple, bases);
    if r.Some? && |s.board| < BOARD_EMO_MAX_COUNT {
      var base := Find(bases, baseId).value;
      InsertLowersPotential(s.board, ShopEmo(s.next, [], base.id, BuildAttributes(base, isTriple)),
                            NextIndex(s.board, ptr).value);
    }
  }

  lemma StepShrinks(s: State, t: Task, bases: Bases)
    ensures var r := Step(s, t, bases); r.Some? ==> Shrinks(s, t, r.value.0, r.value.1)
  {
    hide Potential;
    hide SpawnEmo;
    hide MergeCopies;
    hide SpreadAction;
    hide Spread;
    hide MenagerieIds;
    var r := Step(s, t, bases);
    if r.Some? {
      match t
      case RaiseById(id, a, h) =>
        var i := FindIndex(s.board, id).value;
        UpdateKeepsPotential(s.board, r.value.0.board[i], i);
      case GrantById(id, ability) =>
        var i := FindIndex(s.board, id).value;
        if r.value.0 != s {
          UpdateKeepsPotential(s.board, r.value.0.board[i], i);
        }
      case Merge(newId) => MergeShrinks(s, newId, bases);
      case Act(action, ptr, isTriple) =>
        match action {
          case SetEmo(baseId) => SpawnShrinks(s, baseId, ptr, isTriple, bases);
          case GetCoin(_) =>
          case GetCoinByEmoCountDiv(_, _) =>
          case _ => SpreadActionClass(s.board, action, ptr, isTriple, bases);
        }
      case Menagerie(actionId, typCount, a, h) =>
        RaiseTasksClass();
      case _ => SpreadLowersClass(s.board, t, bases);
    }
  }

  // ----- runs -----

  /** Performs every task of `ts`, each with all it triggers before the next. Total for any ability data. */
  function Run(ts: seq<Task>, s: State, bases: Bases): (r: Option<State>)
    ensures r.Some? ==> s.next <= r.value.next
    ensures r.Some? ==> r.value.next + Potential(r.value.board) <= s.next + Potential(s.board)
    ensures r.Some? ==> Potential(r.value.board) <= Potential(s.board)
    decreases Potential(s.board), MaxClass(ts), |ts|
  {
    if ts == [] then Some(s)
    else
      var (s1, more) :- (StepShrinks(s, ts[0], bases); Step(s, ts[0], bases));
      var s2 :- Run(more, s1, bases);
      Run(ts[1..], s2, bases)
  }

  /** What every step keeps, every run keeps. */
  lemma {:induction false} RunKeeps(inv: State -> bool, ts: seq<Task>, s: State, bases: Bases)
    requires inv(s)
    requires forall s1, t :: inv(s1) && Step(s1, t, bases).Some? ==> inv(Step(s1, t, bases).value.0)
    ensures var r := Run(ts, s, bases); r.Some? ==> inv(r.value)
    decreases Potential(s.board), MaxClass(ts), |ts|
  {
    if ts != [] && Run(ts, s, bases).Some? {
      StepShrinks(s, ts[0], bases);
      var (s1, more) := Step(s, ts[0], bases).value;
      RunKeeps(inv, more, s1, bases);
      RunKeeps(inv, ts[1..], Run(more, s1, bases).value, bases);
    }
  }

  lemma {:induction false} RunAppend(a: seq<Task>, b: seq<Task>, s: State, bases: Bases)
    ensures Run(a + b, s, bases) == (var r := Run(a, s, bases); if r.None? then None else Run(b, r.value, bases))
    decreases Potential(s.board), MaxClass(a), |a|
  {
    if a == [] {
      assert a + b == b;
    } else {
      assert (a + b)[0] == a[0] && (a + b)[1..] == a[1..] + b;
      StepShrinks(s, a[0], bases);
      var r := Step(s, a[0], bases);
      if r.Some? {
        var s2 := Run(r.value.1, r.value.0, bases);
        if s2.Some? {
          RunAppend(a[1..], b, s2.value, bases);
        }
      }
    }
  }

  /** The first task to its end, then the others. */
  lemma RunFirst(ts: seq<Task>, s: State, bases: Bases)
    requires ts != []
    ensures Run(ts, s, bases)
         == (var r := Run([ts[0]], s, bases); if r.None? then None else Run(ts[1..], r.value, bases))
  {
    assert ts == [ts[0]] + ts[1..];
    RunAppend([ts[0]], ts[1..], s, bases);
  }

  lemma RunOne(t: Task, s: State, bases: Bases)
    ensures Run([t], s, bases)
         == (var r := Step(s, t, bases); if r.None? then None else Run(r.value.1, r.value.0, bases))
  {
    assert [t][1..] == [];
    StepShrinks(s, t, bases);
  }

  // ----- the operations -----

  function AddEmo(s: State, cards: seq<U16>, baseId: U16, isTriple: bool, index: nat, bases: Bases): Option<State> {
    var (s1, ts) :- InsertNew(s, cards, baseId, isTriple, index, bases);
    Run(ts, s1, bases)
  }

  function RemoveAt(s: State, index: nat): State
    requires index < |s.board|
  {
    s.(board := s.board[..index] + s.board[index + 1..], logs := s.logs + [Remove(index)], earned := s.earned + SELL_COIN)
  }

  function SellEmo(s: State, index: nat, bases: Bases): Option<State> {
    if index >= |s.board| then None
    else
      var sold := s.board[index];
      Run(SelfTasks(PeriOf(sold.attr.abilities), OnSell, Removed(sold, index)), RemoveAt(s, index), bases)
  }

  function StartShop(s: State, bases: Bases): Option<State> { Run(PreTasks(BoardPres(s.board)), s, bases) }

  function MoveEmo(s: State, index: nat, isRight: bool): Option<State> {
    if index >= |s.board| || (index == 0 && !isRight) || (index + 1 == |s.board| && isRight) then None
    else
      var to := if isRight then index + 1 else index - 1;
      Some(s.(board := s.board[index := s.board[to]][to := s.board[index]], logs := s.logs + [Move(index, to)]))
  }

  /** One operation on a board of at most seven makes at most 32 emos and leaves at most seven. */
  lemma AtMost32Emos(s: State, bases: Bases, cards: seq<U16>, baseId: U16, isTriple: bool, index: nat)
    requires |s.board| <= 7
    ensures var r := AddEmo(s, cards, baseId, isTriple, index, bases);
            r.Some? ==> s.next <= r.value.next <= s.next + 32 && |r.value.board| <= 7
    ensures var r := SellEmo(s, index, bases);
            r.Some? ==> s.next <= r.value.next <= s.next + 32 && |r.value.board| <= 7
    ensures var r := StartShop(s, bases); r.Some? ==> s.next <= r.value.next <= s.next + 32 && |r.value.board| <= 7
  {
    PotentialInRange(s.board);
    if AddEmo(s, cards, baseId, isTriple, index, bases).Some? {
      var base := Find(bases, baseId).value;
      InsertLowersPotential(s.board, ShopEmo(s.next, cards, base.id, BuildAttributes(base, isTriple)), index);
      PotentialInRange(AddEmo(s, cards, baseId, isTriple, index, bases).value.board);
    }
    if SellEmo(s, index, bases).Some? {
      PotentialInRange(RemoveAt(s, index).board);
      PotentialInRange(SellEmo(s, index, bases).value.board);
    }
    if StartShop(s, bases).Some? {
      PotentialInRange(StartShop(s, bases).value.board);
    }
  }
}
