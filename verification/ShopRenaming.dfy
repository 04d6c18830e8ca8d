/** Emo ids only tell emos apart: the shop computes the same on any injectively renamed board. */
module ShopRenaming {
  import opened Types
  import opened Rng
  import opened Shop
  import opened ShopRun
  import opened ShopLaws
  import opened ShopLog

  /** A renaming of ids; `back` undoes it, so it is injective. */
  datatype Renaming = Renaming(to: nat -> nat, back: nat -> nat)

  ghost predicate Injective(f: Renaming) { forall n :: f.back(f.to(n)) == n }

  /** From `n` on, both id counters run in step. */
  ghost predicate InStep(f: Renaming, n: nat) { forall m :: m >= n ==> f.to(m) == f.to(n) + (m - n) }

  function Ren(f: Renaming, e: ShopEmo): ShopEmo { e.(id := f.to(e.id)) }

  function RenBoard(f: Renaming, board: seq<ShopEmo>): seq<ShopEmo> {
    seq(|board|, i requires 0 <= i < |board| => Ren(f, board[i]))
  }

  function RenIds(f: Renaming, ids: seq<nat>): seq<nat> {
    seq<nat>(|ids|, i requires 0 <= i < |ids| => f.to(ids[i]))
  }

  function RenPtr(f: Renaming, ptr: Pointer): Pointer {
    match ptr
    case OnBoard(id) => OnBoard(f.to(id))
    case Removed(e, i) => Removed(Ren(f, e), i)
  }

  function RenTask(f: Renaming, t: Task): Task {
    match t
    case Act(action, ptr, isTriple) => Act(action, RenPtr(f, ptr), isTriple)
    case ActAsOneself(action, ptr) => ActAsOneself(action, RenPtr(f, ptr))
    case ActAsAlly(action, onesId, ptr) => ActAsAlly(action, f.to(onesId), RenPtr(f, ptr))
    case AllySweep(newId, typ, isNewTriple) => AllySweep(f.to(newId), typ, isNewTriple)
    case Menagerie(actionId, c, a, h) => Menagerie(f.to(actionId), c, a, h)
    case RaiseById(id, a, h) => RaiseById(f.to(id), a, h)
    case GrantById(id, ability) => GrantById(f.to(id), ability)
    case Merge(newId) => Merge(f.to(newId))
  }

  function RenTasks(f: Renaming, ts: seq<Task>): seq<Task> {
    seq(|ts|, i requires 0 <= i < |ts| => RenTask(f, ts[i]))
  }

  lemma RenIdsAppend(f: Renaming, a: seq<nat>, b: seq<nat>)
    ensures RenIds(f, a + b) == RenIds(f, a) + RenIds(f, b)
    ensures RenIds(f, []) == []
  {
  }

  lemma RenIdsOne(f: Renaming, id: nat)
    ensures RenIds(f, [id]) == [f.to(id)]
  {
  }

  lemma RenTasksAppend(f: Renaming, a: seq<Task>, b: seq<Task>)
    ensures RenTasks(f, a + b) == RenTasks(f, a) + RenTasks(f, b)
    ensures RenTasks(f, []) == []
  {
  }

  lemma RenTasksOne(f: Renaming, t: Task)
    ensures RenTasks(f, [t]) == [RenTask(f, t)]
    ensures RenTasks(f, [t, t]) == [RenTask(f, t), RenTask(f, t)]
  {
  }

  lemma RenBoardAppend(f: Renaming, a: seq<ShopEmo>, b: seq<ShopEmo>)
    ensures RenBoard(f, a + b) == RenBoard(f, a) + RenBoard(f, b)
    ensures RenBoard(f, []) == []
  {
  }

  lemma RenBoardOne(f: Renaming, e: ShopEmo)
    ensures RenBoard(f, [e]) == [Ren(f, e)]
  {
  }

  function RenState(f: Renaming, s: State): State { s.(board := RenBoard(f, s.board), next := f.to(s.next)) }

  function RenStateOption(f: Renaming, r: Option<State>): Option<State> {
    if r.None? then None else Some(RenState(f, r.value))
  }

  function RenResult(f: Renaming, r: Option<(State, seq<Task>)>): Option<(State, seq<Task>)> {
    if r.None? then None else Some((RenState(f, r.value.0), RenTasks(f, r.value.1)))
  }

  // ----- lookups commute with renaming -----

  lemma {:induction false} RenFind(f: Renaming, board: seq<ShopEmo>, id: nat)
    requires Injective(f)
    ensures FindIndex(RenBoard(f, board), f.to(id)) == FindIndex(board, id)
  {
    if board != [] {
      RenFind(f, board[1..], id);
      assert RenBoard(f, board)[1..] == RenBoard(f, board[1..]);
    }
  }

  lemma RenFindEmo(f: Renaming, board: seq<ShopEmo>, id: nat)
    requires Injective(f)
    ensures var r := FindEmo(board, id);
            FindEmo(RenBoard(f, board), f.to(id)) == if r.None? then None else Some(Ren(f, r.value))
  {
    RenFind(f, board, id);
  }

  lemma RenPointers(f: Renaming, board: seq<ShopEmo>, ptr: Pointer)
    requires Injective(f)
    ensures var r := PointedEmo(board, ptr);
            PointedEmo(RenBoard(f, board), RenPtr(f, ptr)) == if r.None? then None else Some(Ren(f, r.value))
    ensures PointedId(RenPtr(f, ptr)) == f.to(PointedId(ptr))
    ensures PointedIndex(RenBoard(f, board), RenPtr(f, ptr)) == PointedIndex(board, ptr)
    ensures NextIndex(RenBoard(f, board), RenPtr(f, ptr)) == NextIndex(board, ptr)
  {
    if ptr.OnBoard? {
      RenFindEmo(f, board, ptr.id);
      RenFind(f, board, ptr.id);
    }
  }

  function RenOption(f: Renaming, o: Option<nat>): Option<nat> { if o.None? then None else Some(f.to(o.value)) }

  lemma RenNeighbours(f: Renaming, board: seq<ShopEmo>, ptr: Pointer)
    requires Injective(f)
    ensures var r := RightId(board, ptr);
            RightId(RenBoard(f, board), RenPtr(f, ptr)) == if r.None? then None else Some(RenOption(f, r.value))
    ensures var r := LeftId(board, ptr);
            LeftId(RenBoard(f, board), RenPtr(f, ptr)) == if r.None? then None else Some(RenOption(f, r.value))
  {
    RenPointers(f, board, ptr);
  }

  lemma RenSingle(f: Renaming, o: Option<nat>)
    ensures RenIds(f, OptionToSeq(o)) == OptionToSeq(RenOption(f, o))
  {
  }

  function RenIdsOption(f: Renaming, r: Option<seq<nat>>): Option<seq<nat>> {
    if r.None? then None else Some(RenIds(f, r.value))
  }

  lemma {:induction false} RenMatchedIds(f: Renaming, board: seq<ShopEmo>, ids: seq<nat>, cond: Cond, bases: Bases)
    requires Injective(f)
    ensures MatchedIds(RenBoard(f, board), RenIds(f, ids), cond, bases) == RenIdsOption(f, MatchedIds(board, ids, cond, bases))
  {
    hide Injective;
    hide FindEmo;
    hide RenBoard;
    RenIdsAppend(f, [], []);
    if ids != [] {
      RenFindEmo(f, board, ids[0]);
      RenMatchedIds(f, board, ids[1..], cond, bases);
      assert RenIds(f, ids)[1..] == RenIds(f, ids[1..]);
      var rest := MatchedIds(board, ids[1..], cond, bases);
      if rest.Some? {
        RenIdsOne(f, ids[0]);
        RenIdsAppend(f, [ids[0]], rest.value);
        RenIdsAppend(f, [], rest.value);
      }
    }
  }

  lemma {:induction false} RenOtherIds(f: Renaming, board: seq<ShopEmo>, id: nat)
    requires Injective(f)
    ensures OtherIds(RenBoard(f, board), f.to(id)) == RenIds(f, OtherIds(board, id))
  {
    RenIdsAppend(f, [], []);
    if board != [] {
      RenOtherIds(f, board[1..], id);
      RenIdsOne(f, board[0].id);
      RenIdsAppend(f, if board[0].id == id then [] else [board[0].id], OtherIds(board[1..], id));
      assert RenBoard(f, board)[1..] == RenBoard(f, board[1..]);
    }
  }

  lemma {:induction false} RenCountOthers(f: Renaming, board: seq<ShopEmo>, id: nat, cond: Cond, bases: Bases)
    requires Injective(f)
    ensures CountOthers(RenBoard(f, board), f.to(id), cond, bases) == CountOthers(board, id, cond, bases)
  {
    if board != [] {
      RenCountOthers(f, board[1..], id, cond, bases);
      assert RenBoard(f, board)[1..] == RenBoard(f, board[1..]);
    }
  }

  lemma RenTargetIds(f: Renaming, board: seq<ShopEmo>, ptr: Pointer, target: Target, bases: Bases)
    requires Injective(f)
    ensures TargetIds(RenBoard(f, board), RenPtr(f, ptr), target, bases) == RenIdsOption(f, TargetIds(board, ptr, target, bases))
  {
    RenIdsAppend(f, [], []);
    match target
    case Oneself =>
      if ptr.OnBoard? {
        RenIdsOne(f, ptr.id);
      }
    case Others(destination, cond) =>
      RenNeighbours(f, board, ptr);
      RenPointers(f, board, ptr);
      match destination {
        case Right =>
          var right := RightId(board, ptr);
          if right.Some? {
            RenSingle(f, right.value);
            RenMatchedIds(f, board, OptionToSeq(right.value), cond, bases);
          }
        case Left =>
          var left := LeftId(board, ptr);
          if left.Some? {
            RenSingle(f, left.value);
            RenMatchedIds(f, board, OptionToSeq(left.value), cond, bases);
          }
        case All =>
          RenOtherIds(f, board, PointedId(ptr));
          RenMatchedIds(f, board, OtherIds(board, PointedId(ptr)), cond, bases);
      }
  }

  // ----- the tasks a task spreads into -----

  lemma {:induction false} RenRaiseTasks(f: Renaming, ids: seq<nat>, attack: U16, health: U16)
    ensures RaiseTasks(RenIds(f, ids), attack, health) == RenTasks(f, RaiseTasks(ids, attack, health))
  {
    RenTasksAppend(f, [], []);
    if ids != [] {
      RenRaiseTasks(f, ids[1..], attack, health);
      RenTasksOne(f, RaiseById(ids[0], attack, health));
      RenTasksAppend(f, [RaiseById(ids[0], attack, health)], RaiseTasks(ids[1..], attack, health));
      assert RenIds(f, ids)[1..] == RenIds(f, ids[1..]);
    }
  }

  lemma {:induction false} RenGrantTasks(f: Renaming, ids: seq<nat>, ability: Ability)
    ensures GrantTasks(RenIds(f, ids), ability) == RenTasks(f, GrantTasks(ids, ability))
  {
    RenTasksAppend(f, [], []);
    if ids != [] {
      RenGrantTasks(f, ids[1..], ability);
      RenTasksOne(f, GrantById(ids[0], ability));
      RenTasksAppend(f, [GrantById(ids[0], ability)], GrantTasks(ids[1..], ability));
      assert RenIds(f, ids)[1..] == RenIds(f, ids[1..]);
    }
  }

  lemma {:induction false} RenSelfTasks(f: Renaming, peris: seq<Peri>, trigger: SelfTrigger, ptr: Pointer)
    ensures SelfTasks(peris, trigger, RenPtr(f, ptr)) == RenTasks(f, SelfTasks(peris, trigger, ptr))
  {
    RenTasksAppend(f, [], []);
    if peris != [] {
      RenSelfTasks(f, peris[1..], trigger, ptr);
      if peris[0].AsOneself? {
        RenTasksOne(f, ActAsOneself(peris[0].action, ptr));
      }
      RenTasksAppend(f, if peris[0].AsOneself? && peris[0].trigger == trigger then [ActAsOneself(peris[0].action, ptr)] else [],
                     SelfTasks(peris[1..], trigger, ptr));
    }
  }

  lemma {:induction false} RenSetActionTasks(f: Renaming, peris: seq<Peri>, ptr: Pointer, isTriple: bool, twice: bool)
    ensures SetActionTasks(peris, RenPtr(f, ptr), isTriple, twice) == RenTasks(f, SetActionTasks(peris, ptr, isTriple, twice))
  {
    RenTasksAppend(f, [], []);
    if peris != [] {
      RenSetActionTasks(f, peris[1..], ptr, isTriple, twice);
      if peris[0].AsOneself? {
        RenTasksOne(f, Act(peris[0].action, ptr, isTriple));
      }
      RenTasksAppend(f, if peris[0].AsOneself? && peris[0].trigger.OnSet?
                     then var t := Act(peris[0].action, ptr, isTriple); if twice then [t, t] else [t] else [],
                     SetActionTasks(peris[1..], ptr, isTriple, twice));
    }
  }

  lemma RenSweepTask(f: Renaming, p: Peri, ownerId: nat, newId: nat, typ: Typ, isNewTriple: bool)
    ensures SweepTask(p, f.to(ownerId), f.to(newId), typ, isNewTriple) == RenTasks(f, SweepTask(p, ownerId, newId, typ, isNewTriple))
  {
    RenTasksAppend(f, [], []);
    if p.AsOneself? {
      RenTasksOne(f, ActAsOneself(p.action, OnBoard(ownerId)));
    } else {
      RenTasksOne(f, ActAsAlly(p.allyAction, ownerId, OnBoard(newId)));
    }
  }

  function RenOwned<T>(f: Renaming, items: seq<(nat, T)>): seq<(nat, T)> {
    seq<(nat, T)>(|items|, i requires 0 <= i < |items| => (f.to(items[i].0), items[i].1))
  }

  lemma {:induction false} RenOwnedItems<T>(f: Renaming, items: seq<T>, id: nat)
    ensures Owned(items, f.to(id)) == RenOwned(f, Owned(items, id))
  {
    if items != [] {
      RenOwnedItems(f, items[1..], id);
    }
  }

  lemma RenOwnedAppend<T>(f: Renaming, a: seq<(nat, T)>, b: seq<(nat, T)>)
    ensures RenOwned(f, a + b) == RenOwned(f, a) + RenOwned(f, b)
  {
  }

  lemma {:induction false} RenBoardPeris(f: Renaming, board: seq<ShopEmo>)
    ensures BoardPeris(RenBoard(f, board)) == RenOwned(f, BoardPeris(board))
    ensures BoardPres(RenBoard(f, board)) == RenOwned(f, BoardPres(board))
  {
    if board != [] {
      RenBoardPeris(f, board[1..]);
      RenOwnedItems(f, PeriOf(board[0].attr.abilities), board[0].id);
      RenOwnedItems(f, PreOf(board[0].attr.abilities), board[0].id);
      assert RenBoard(f, board)[1..] == RenBoard(f, board[1..]);
      RenOwnedAppend(f, Owned(PeriOf(board[0].attr.abilities), board[0].id), BoardPeris(board[1..]));
      RenOwnedAppend(f, Owned(PreOf(board[0].attr.abilities), board[0].id), BoardPres(board[1..]));
    }
  }

  lemma {:induction false} RenSweepTasks(f: Renaming, peris: seq<(nat, Peri)>, newId: nat, typ: Typ, isNewTriple: bool)
    requires Injective(f)
    ensures SweepTasks(RenOwned(f, peris), f.to(newId), typ, isNewTriple) == RenTasks(f, SweepTasks(peris, newId, typ, isNewTriple))
  {
    hide RenTasks;
    RenTasksAppend(f, [], []);
    if peris != [] {
      RenSweepTasks(f, peris[1..], newId, typ, isNewTriple);
      RenSweepTask(f, peris[0].1, peris[0].0, newId, typ, isNewTriple);
      assert RenOwned(f, peris)[1..] == RenOwned(f, peris[1..]);
      RenTasksAppend(f, if peris[0].0 == newId then [] else SweepTask(peris[0].1, peris[0].0, newId, typ, isNewTriple),
                     SweepTasks(peris[1..], newId, typ, isNewTriple));
    }
  }

  function RenTasksOption(f: Renaming, r: Option<seq<Task>>): Option<seq<Task>> {
    if r.None? then None else Some(RenTasks(f, r.value))
  }

  lemma RenAdjacentIds(f: Renaming, board: seq<ShopEmo>, ptr: Pointer, bases: Bases)
    requires Injective(f)
    ensures AdjacentIds(RenBoard(f, board), RenPtr(f, ptr), bases) == RenIdsOption(f, AdjacentIds(board, ptr, bases))
  {
    hide Injective;
    hide LeftId;
    hide RightId;
    hide LeftTyp;
    hide RightRaised;
    hide RenBoard;
    RenNeighbours(f, board, ptr);
    var left, right := LeftId(board, ptr), RightId(board, ptr);
    if left.Some? && right.Some? {
      var leftTyp := LeftTyp(board, left.value, bases);
      RenTyps(f, board, left.value, right.value, if leftTyp.Some? then leftTyp.value else None, bases);
      RenSingle(f, left.value);
      RenSingle(f, right.value);
      RenSingle(f, None);
      RenIdsAppend(f, OptionToSeq(left.value), OptionToSeq(right.value));
      RenIdsAppend(f, OptionToSeq(left.value), OptionToSeq(None));
    }
  }

  lemma RenTyps(f: Renaming, board: seq<ShopEmo>, left: Option<nat>, right: Option<nat>, leftTyp: Option<Typ>, bases: Bases)
    requires Injective(f)
    ensures LeftTyp(RenBoard(f, board), RenOption(f, left), bases) == LeftTyp(board, left, bases)
    ensures RightRaised(RenBoard(f, board), RenOption(f, right), leftTyp, bases) == RightRaised(board, right, leftTyp, bases)
  {
    if left.Some? {
      RenFindEmo(f, board, left.value);
    }
    if right.Some? {
      RenFindEmo(f, board, right.value);
    }
  }

  lemma RenScaledTasks(f: Renaming, board: seq<ShopEmo>, ptr: Pointer, target: Target, isTriple: bool,
                       attack: U16, health: U16, factor: nat, bases: Bases)
    requires Injective(f)
    ensures ScaledTasks(RenBoard(f, board), RenPtr(f, ptr), target, isTriple, attack, health, factor, bases)
         == RenTasksOption(f, ScaledTasks(board, ptr, target, isTriple, attack, health, factor, bases))
  {
    hide Injective;
    hide TargetIds;
    hide RaiseTasks;
    hide RenBoard;
    hide Sat16;
    hide DoubleIf;
    RenTargetIds(f, board, ptr, target, bases);
    var ids := TargetIds(board, ptr, target, bases);
    if ids.Some? {
      RenRaiseTasks(f, ids.value, Sat16(DoubleIf(isTriple, attack) * factor), Sat16(DoubleIf(isTriple, health) * factor));
    }
  }

  lemma RenSpreadAction(f: Renaming, board: seq<ShopEmo>, action: ShopAction, ptr: Pointer, isTriple: bool, bases: Bases)
    requires Injective(f)
    requires !action.SetEmo? && !action.GetCoin? && !action.GetCoinByEmoCountDiv?
    ensures SpreadAction(RenBoard(f, board), action, RenPtr(f, ptr), isTriple, bases)
         == RenTasksOption(f, SpreadAction(board, action, ptr, isTriple, bases))
  {
    match action
    case IncreaseStats(target, a, h) =>
      RenTargetIds(f, board, ptr, target, bases);
      var ids := TargetIds(board, ptr, target, bases);
      if ids.Some? {
        RenRaiseTasks(f, ids.value, DoubleIf(isTriple, a), DoubleIf(isTriple, h));
      }
    case IncreaseStatsOfAdjacentMenagerie(a, h) =>
      RenAdjacentIds(f, board, ptr, bases);
      var ids := AdjacentIds(board, ptr, bases);
      if ids.Some? {
        RenRaiseTasks(f, ids.value, DoubleIf(isTriple, a), DoubleIf(isTriple, h));
      }
    case IncreaseStatsByGrade(target, a, h) =>
      RenPointers(f, board, ptr);
      var e := PointedEmo(board, ptr);
      if e.Some? && e.value.baseId in bases {
        RenScaledTasks(f, board, ptr, target, isTriple, a, h, bases[e.value.baseId].grade, bases);
      }
    case IncreaseStatsByEmoCount(target, cond, a, h) =>
      RenPointers(f, board, ptr);
      RenCountOthers(f, board, PointedId(ptr), cond, bases);
      var count := CountOthers(board, PointedId(ptr), cond, bases);
      if count.Some? {
        RenScaledTasks(f, board, ptr, target, isTriple, a, h, count.value, bases);
      }
    case AddAbility(target, ability) =>
      RenTargetIds(f, board, ptr, target, bases);
      var ids := TargetIds(board, ptr, target, bases);
      if ids.Some? {
        RenGrantTasks(f, ids.value, ability);
      }
  }

  lemma RenSpread(f: Renaming, board: seq<ShopEmo>, t: Task, bases: Bases)
    requires Injective(f)
    requires t.ActAsOneself? || t.ActAsAlly? || t.AllySweep?
    ensures Spread(RenBoard(f, board), RenTask(f, t), bases) == RenTasksOption(f, Spread(board, t, bases))
  {
    RenTasksAppend(f, [], []);
    match t
    case ActAsOneself(action, ptr) =>
      RenPointers(f, board, ptr);
      var e := PointedEmo(board, ptr);
      if e.Some? {
        RenTasksOne(f, Act(action, ptr, e.value.attr.isTriple));
      }
    case ActAsAlly(allyAction, onesId, ptr) =>
      RenFindEmo(f, board, onesId);
      RenPointers(f, board, ptr);
      var ones, ally := FindEmo(board, onesId), PointedEmo(board, ptr);
      if allyAction.OneselfTripleNormal? && ones.Some? {
        RenTasksOne(f, Act(allyAction.action, ptr, ones.value.attr.isTriple));
      }
      if allyAction.TriggerSetActions? && ones.Some? && ally.Some? {
        RenSetActionTasks(f, PeriOf(ally.value.attr.abilities), ptr, ally.value.attr.isTriple, ones.value.attr.isTriple);
      }
    case AllySweep(newId, typ, isNewTriple) =>
      RenBoardPeris(f, board);
      RenSweepTasks(f, BoardPeris(board), newId, typ, isNewTriple);
  }

  // ----- the random order -----

  lemma {:induction false} RenDraw(f: Renaming, ids: seq<nat>, k: nat, tape: Tape)
    ensures Draw(RenIds(f, ids), k, tape) == RenIds(f, Draw(ids, k, tape))
    decreases k
  {
    RenIdsAppend(f, [], []);
    if k != 0 && ids != [] {
      var i := Choice(tape, |ids|);
      var rest := ids[..i] + ids[i + 1..];
      RenDraw(f, rest, k - 1, After(tape, 1));
      RenIdsOne(f, ids[i]);
      RenIdsAppend(f, [ids[i]], Draw(rest, k - 1, After(tape, 1)));
      assert RenIds(f, ids)[..i] + RenIds(f, ids)[i + 1..] == RenIds(f, rest);
    }
  }

  lemma RenShuffle(f: Renaming, board: seq<ShopEmo>, tape: Tape)
    ensures Shuffle(Ids(RenBoard(f, board)), tape) == RenIds(f, Shuffle(Ids(board), tape))
  {
    assert Ids(RenBoard(f, board)) == RenIds(f, Ids(board));
    RenDraw(f, Ids(board), |board|, tape);
  }

  lemma {:induction false} RenMenagerieIds(f: Renaming, board: seq<ShopEmo>, order: seq<nat>, actionId: nat,
                                           seen: seq<Typ>, limit: nat, bases: Bases)
    requires Injective(f)
    ensures MenagerieIds(RenBoard(f, board), RenIds(f, order), f.to(actionId), seen, limit, bases)
         == RenIdsOption(f, MenagerieIds(board, order, actionId, seen, limit, bases))
    decreases |order|
  {
    RenIdsAppend(f, [], []);
    if order != [] {
      RenIdsOne(f, order[0]);
      assert RenIds(f, order)[1..] == RenIds(f, order[1..]);
      RenFindEmo(f, board, order[0]);
      RenMenagerieIds(f, board, order[1..], actionId, seen, limit, bases);
      var e := FindEmo(board, order[0]);
      if e.Some? && e.value.baseId in bases {
        var seen' := seen + [bases[e.value.baseId].typ];
        RenMenagerieIds(f, board, order[1..], actionId, seen', limit, bases);
        var rest := MenagerieIds(board, order[1..], actionId, seen', limit, bases);
        if rest.Some? {
          RenIdsAppend(f, [order[0]], rest.value);
        }
      }
    }
  }

  lemma RenMenagerie(f: Renaming, s: State, actionId: nat, typCount: U8, attack: U16, health: U16, bases: Bases)
    requires Injective(f)
    ensures ServeMenagerie(RenState(f, s), f.to(actionId), typCount, attack, health, bases)
         == RenResult(f, ServeMenagerie(s, actionId, typCount, attack, health, bases))
  {
    RenShuffle(f, s.board, s.tape);
    RenFindEmo(f, s.board, actionId);
    var order, e := Shuffle(Ids(s.board), s.tape), FindEmo(s.board, actionId);
    RenMenagerieIds(f, s.board, order, actionId, [], typCount, bases);
    var ids := MenagerieIds(s.board, order, actionId, [], typCount, bases);
    if e.Some? && ids.Some? {
      RenRaiseTasks(f, ids.value, DoubleIf(e.value.attr.isTriple, attack), DoubleIf(e.value.attr.isTriple, health));
    }
  }

  // ----- rewriting the board -----

  lemma RenArrival(f: Renaming, board: seq<ShopEmo>, emo: ShopEmo, bases: Bases)
    requires Injective(f)
    ensures ArrivalTasks(RenBoard(f, board), Ren(f, emo), bases) == RenTasksOption(f, ArrivalTasks(board, emo, bases))
  {
    RenFindEmo(f, board, emo.id);
    var added := FindEmo(board, emo.id);
    if added.Some? && added.value.baseId in bases {
      var e, base := added.value, bases[added.value.baseId];
      RenSelfTasks(f, PeriOf(e.attr.abilities), OnSet, OnBoard(emo.id));
      var own := SelfTasks(PeriOf(e.attr.abilities), OnSet, OnBoard(emo.id));
      var sweep := AllySweep(emo.id, base.typ, e.attr.isTriple);
      RenTasksOne(f, sweep);
      RenTasksOne(f, Merge(emo.id));
      RenTasksAppend(f, own + [sweep], if emo.attr.isTriple then [] else [Merge(emo.id)]);
      RenTasksAppend(f, own, [sweep]);
    }
  }

  lemma RenInsert(f: Renaming, s: State, emo: ShopEmo, index: nat, bases: Bases)
    requires Injective(f)
    ensures InsertEmo(RenState(f, s), Ren(f, emo), index, bases) == RenResult(f, InsertEmo(s, emo, index, bases))
  {
    if |s.board| < BOARD_EMO_MAX_COUNT && index <= |s.board| {
      var board := s.board[..index] + [emo] + s.board[index..];
      var board' := RenBoard(f, s.board);
      assert RenBoard(f, board) == board'[..index] + [Ren(f, emo)] + board'[index..];
      RenArrival(f, board, emo, bases);
    }
  }

  lemma RenInsertNew(f: Renaming, s: State, cards: seq<U16>, baseId: U16, isTriple: bool, index: nat, bases: Bases)
    requires Injective(f) && InStep(f, s.next)
    ensures InsertNew(RenState(f, s), cards, baseId, isTriple, index, bases)
         == RenResult(f, InsertNew(s, cards, baseId, isTriple, index, bases))
  {
    hide Shop.InsertEmo;
    if baseId in bases {
      assert f.to(s.next + 1) == f.to(s.next) + 1;
      RenInsert(f, s.(next := s.next + 1),
                ShopEmo(s.next, cards, bases[baseId].id, BuildAttributes(bases[baseId], isTriple)), index, bases);
    }
  }

  lemma {:induction false} RenCopies(f: Renaming, board: seq<ShopEmo>, baseId: U16)
    ensures Copies(RenBoard(f, board), baseId) == RenBoard(f, Copies(board, baseId))
    ensures WithoutCopies(RenBoard(f, board), baseId) == RenBoard(f, WithoutCopies(board, baseId))
  {
    RenBoardAppend(f, [], []);
    if board != [] {
      RenCopies(f, board[1..], baseId);
      RenBoardOne(f, board[0]);
      RenBoardAppend(f, if IsCopy(board[0], baseId) then [board[0]] else [], Copies(board[1..], baseId));
      RenBoardAppend(f, if IsCopy(board[0], baseId) then [] else [board[0]], WithoutCopies(board[1..], baseId));
      assert RenBoard(f, board)[1..] == RenBoard(f, board[1..]);
    }
  }

  lemma {:induction false} RenCopyIndexes(f: Renaming, board: seq<ShopEmo>, baseId: U16, from: nat)
    ensures CopyIndexes(RenBoard(f, board), baseId, from) == CopyIndexes(board, baseId, from)
  {
    if board != [] {
      RenCopyIndexes(f, board[1..], baseId, from + 1);
      assert RenBoard(f, board)[1..] == RenBoard(f, board[1..]);
    }
  }

  lemma {:induction false} RenSources(f: Renaming, sources: seq<ShopEmo>, base: Base)
    ensures AttackBonus(RenBoard(f, sources), base) == AttackBonus(sources, base)
    ensures HealthBonus(RenBoard(f, sources), base) == HealthBonus(sources, base)
    ensures CardSeq(RenBoard(f, sources)) == CardSeq(sources)
    ensures ExtraAbilities(RenBoard(f, sources), base.abilities) == ExtraAbilities(sources, base.abilities)
  {
    if sources != [] {
      RenSources(f, sources[1..], base);
      assert RenBoard(f, sources)[1..] == RenBoard(f, sources[1..]);
    }
  }

  lemma RenTriple(f: Renaming, sources: seq<ShopEmo>, base: Base, id: nat)
    ensures BuildTriple(RenBoard(f, sources), base, f.to(id))
         == if BuildTriple(sources, base, id).None? then None else Some(Ren(f, BuildTriple(sources, base, id).value))
  {
    RenSources(f, sources, base);
  }

  lemma RenMergeCopies(f: Renaming, s: State, newId: nat, bases: Bases)
    requires Injective(f) && InStep(f, s.next)
    ensures MergeCopies(RenState(f, s), f.to(newId), bases) == RenResult(f, MergeCopies(s, newId, bases))
  {
    hide BuildTriple;
    hide InsertEmo;
    hide Copies;
    hide WithoutCopies;
    hide CopyIndexes;
    hide FindIndex;
    hide Injective;
    RenTasksAppend(f, [], []);
    RenFind(f, s.board, newId);
    var i := FindIndex(s.board, newId);
    if i.Some? {
      var baseId := s.board[i.value].baseId;
      RenCopies(f, s.board, baseId);
      if |Copies(s.board, baseId)| >= 3 && baseId in bases {
        var base, sources := bases[baseId], Copies(s.board, baseId);
        RenCopyIndexes(f, s.board, baseId, 0);
        var triple := BuildTriple(sources, base, s.next);
        RenTriple(f, sources, base, s.next);
        if triple.Some? {
          assert f.to(s.next + 1) == f.to(s.next) + 1;
          assert RenBoard(f, s.board)[..i.value] == RenBoard(f, s.board[..i.value]);
          RenCopies(f, s.board[..i.value], baseId);
          RenInsert(f, s.(board := WithoutCopies(s.board, baseId), next := s.next + 1, earned := s.earned + TRIPLE_REWARD_COIN,
                          logs := s.logs + [Triple(CopyIndexes(s.board, baseId, 0))]),
                    triple.value, |WithoutCopies(s.board[..i.value], baseId)|, bases);
        }
      }
    }
  }

  lemma RenRaiseEmo(f: Renaming, s: State, id: nat, attack: U16, health: U16)
    requires Injective(f)
    ensures RaiseEmo(RenState(f, s), f.to(id), attack, health)
         == RenStateOption(f, RaiseEmo(s, id, attack, health))
  {
    RenFind(f, s.board, id);
    var i := FindIndex(s.board, id);
    if i.Some? {
      var e' := RaiseEmo(s, id, attack, health).value.board[i.value];
      assert RenBoard(f, s.board)[i.value := Ren(f, e')] == RenBoard(f, s.board[i.value := e']);
    }
  }

  lemma RenGrantEmo(f: Renaming, s: State, id: nat, ability: Ability)
    requires Injective(f)
    ensures GrantEmo(RenState(f, s), f.to(id), ability)
         == RenStateOption(f, GrantEmo(s, id, ability))
  {
    RenFind(f, s.board, id);
    var i := FindIndex(s.board, id);
    if i.Some? {
      var e' := GrantEmo(s, id, ability).value.board[i.value];
      assert RenBoard(f, s.board)[i.value := Ren(f, e')] == RenBoard(f, s.board[i.value := e']);
    }
  }

  // ----- a step and a run commute with renaming -----

  lemma RenSpawn(f: Renaming, s: State, baseId: U16, ptr: Pointer, isTriple: bool, bases: Bases)
    requires Injective(f) && InStep(f, s.next)
    ensures SpawnEmo(RenState(f, s), baseId, RenPtr(f, ptr), isTriple, bases) == RenResult(f, SpawnEmo(s, baseId, ptr, isTriple, bases))
  {
    RenTasksAppend(f, [], []);
    RenPointers(f, s.board, ptr);
    var index := NextIndex(s.board, ptr);
    if index.Some? {
      RenInsertNew(f, s, [], baseId, isTriple, index.value, bases);
    }
  }

  lemma RenAct(f: Renaming, s: State, action: ShopAction, ptr: Pointer, isTriple: bool, bases: Bases)
    requires Injective(f) && InStep(f, s.next)
    ensures Perform(RenState(f, s), action, RenPtr(f, ptr), isTriple, bases)
         == RenResult(f, Perform(s, action, ptr, isTriple, bases))
  {
    hide SpawnEmo;
    hide SpreadAction;
    hide CountOthers;
    hide Injective;
    hide RenBoard;
    RenTasksAppend(f, [], []);
    match action {
      case SetEmo(baseId) => RenSpawn(f, s, baseId, ptr, isTriple, bases);
      case GetCoin(_) =>
      case GetCoinByEmoCountDiv(cond, _) =>
        RenPointers(f, s.board, ptr);
        RenCountOthers(f, s.board, PointedId(ptr), cond, bases);
      case _ => RenSpreadAction(f, s.board, action, ptr, isTriple, bases);
    }
  }

  lemma RenStep(f: Renaming, s: State, t: Task, bases: Bases)
    requires Injective(f) && InStep(f, s.next)
    ensures Step(RenState(f, s), RenTask(f, t), bases) == RenResult(f, Step(s, t, bases))
  {
    RenTasksAppend(f, [], []);
    match t
    case RaiseById(id, a, h) => RenRaiseEmo(f, s, id, a, h);
    case GrantById(id, ability) => RenGrantEmo(f, s, id, ability);
    case Merge(newId) => RenMergeCopies(f, s, newId, bases);
    case Act(action, ptr, isTriple) => RenAct(f, s, action, ptr, isTriple, bases);
    case Menagerie(actionId, c, a, h) => RenMenagerie(f, s, actionId, c, a, h, bases);
    case _ => RenSpread(f, s.board, t, bases);
  }

  lemma {:induction false} RenRun(f: Renaming, ts: seq<Task>, s: State, bases: Bases)
    requires Injective(f) && InStep(f, s.next)
    ensures Run(RenTasks(f, ts), RenState(f, s), bases)
         == RenStateOption(f, Run(ts, s, bases))
    decreases Potential(s.board), MaxClass(ts), |ts|
  {
    if ts != [] {
      assert RenTasks(f, ts)[1..] == RenTasks(f, ts[1..]);
      RenStep(f, s, ts[0], bases);
      StepShrinks(s, ts[0], bases);
      StepShrinks(RenState(f, s), RenTask(f, ts[0]), bases);
      var r := Step(s, ts[0], bases);
      if r.Some? {
        StaysInStep(f, s.next, r.value.0.next);
        RenRun(f, r.value.1, r.value.0, bases);
        var s2 := Run(r.value.1, r.value.0, bases);
        if s2.Some? {
          StaysInStep(f, s.next, s2.value.next);
          RenRun(f, ts[1..], s2.value, bases);
        }
      }
    }
  }

  lemma StaysInStep(f: Renaming, n: nat, m: nat)
    requires InStep(f, n) && n <= m
    ensures InStep(f, m)
  {
  }

  // ----- the operations do not depend on ids -----

  /** The board as the shop takes it in: ids counted up from `first`. */
  function FromBoard(board: Board, first: nat, tape: Tape): State {
    State(seq(|board|, i requires 0 <= i < |board| => ShopEmo(first + i, board[i].cards, board[i].baseId, board[i].attr)),
          [], first + |board|, 0, tape)
  }

  function Position(board: seq<ShopEmo>, next: nat, id: nat): nat {
    var i := FindIndex(board, id);
    if i.Some? then i.value else if id >= next then id - next + |board| else 0
  }

  function NthId(board: seq<ShopEmo>, next: nat, n: nat): nat {
    if n < |board| then board[n].id else next + (n - |board|)
  }

  /** From the numbering 0, 1, 2, ... to the ids of `s`. */
  function IdsOf(s: State): Renaming {
    Renaming((n: nat) => NthId(s.board, s.next, n), (id: nat) => Position(s.board, s.next, id))
  }

  /** Every state is a renaming of the plainly numbered one. */
  lemma IsRenamedPlain(s: State)
    requires Distinct(s) && s.logs == [] && s.earned == 0
    ensures var f := IdsOf(s);
            Injective(f) && InStep(f, |s.board|) && RenState(f, FromBoard(Strip(s.board), 0, s.tape)) == s
  {
    var f, plain := IdsOf(s), FromBoard(Strip(s.board), 0, s.tape);
    forall n: nat ensures f.back(f.to(n)) == n {
      var i := FindIndex(s.board, f.to(n));
      if n < |s.board| {
        assert s.board[n].id == f.to(n);
      }
    }
    assert RenBoard(f, plain.board) == s.board;
  }

  lemma RenStrip(f: Renaming, board: seq<ShopEmo>)
    ensures Strip(RenBoard(f, board)) == Strip(board)
  {
  }

  /** What a caller sees of a finished operation: board, coins and log, but no ids. */
  datatype Outcome = Outcome(board: Board, earned: nat, logs: seq<Log>, tape: Tape)

  function Seen(r: Option<State>): Option<Outcome> {
    if r.None? then None else Some(Outcome(Strip(r.value.board), r.value.earned, r.value.logs, r.value.tape))
  }

  lemma RenSeen(f: Renaming, r: Option<State>)
    ensures Seen(RenStateOption(f, r)) == Seen(r)
  {
    if r.Some? {
      RenStrip(f, r.value.board);
    }
  }

  lemma AddEmoRenamed(f: Renaming, s: State, cards: seq<U16>, baseId: U16, isTriple: bool, index: nat, bases: Bases)
    requires Injective(f) && InStep(f, s.next)
    ensures AddEmo(RenState(f, s), cards, baseId, isTriple, index, bases)
         == RenStateOption(f, AddEmo(s, cards, baseId, isTriple, index, bases))
  {
    RenInsertNew(f, s, cards, baseId, isTriple, index, bases);
    var r := InsertNew(s, cards, baseId, isTriple, index, bases);
    if r.Some? {
      StaysInStep(f, s.next, r.value.0.next);
      RenRun(f, r.value.1, r.value.0, bases);
    }
  }

  lemma SellEmoRenamed(f: Renaming, s: State, index: nat, bases: Bases)
    requires Injective(f) && InStep(f, s.next)
    ensures SellEmo(RenState(f, s), index, bases)
         == RenStateOption(f, SellEmo(s, index, bases))
  {
    if index < |s.board| {
      var sold := s.board[index];
      assert RenState(f, RemoveAt(s, index)).board == RemoveAt(RenState(f, s), index).board;
      assert RenState(f, RemoveAt(s, index)) == RemoveAt(RenState(f, s), index);
      RenSelfTasks(f, PeriOf(sold.attr.abilities), OnSell, Removed(sold, index));
      RenRun(f, SelfTasks(PeriOf(sold.attr.abilities), OnSell, Removed(sold, index)), RemoveAt(s, index), bases);
    }
  }

  lemma {:induction false} RenPreTasks(f: Renaming, pres: seq<(nat, Pre)>)
    ensures PreTasks(RenOwned(f, pres)) == RenTasks(f, PreTasks(pres))
  {
    RenTasksAppend(f, [], []);
    if pres != [] {
      RenPreTasks(f, pres[1..]);
      assert RenOwned(f, pres)[1..] == RenOwned(f, pres[1..]);
      var t := PreTask(pres[0].1, pres[0].0);
      RenTasksOne(f, t);
      RenTasksAppend(f, [t], PreTasks(pres[1..]));
    }
  }

  /** Two boards that differ only in ids meet the same fate under every operation. */
  lemma IdsDoNotMatter(s1: State, s2: State, bases: Bases, cards: seq<U16>, baseId: U16, isTriple: bool, index: nat)
    requires Distinct(s1) && s1.logs == [] && s1.earned == 0
    requires Distinct(s2) && s2.logs == [] && s2.earned == 0
    requires Strip(s1.board) == Strip(s2.board) && s1.tape == s2.tape
    ensures Seen(AddEmo(s1, cards, baseId, isTriple, index, bases)) == Seen(AddEmo(s2, cards, baseId, isTriple, index, bases))
    ensures Seen(SellEmo(s1, index, bases)) == Seen(SellEmo(s2, index, bases))
    ensures Seen(StartShop(s1, bases)) == Seen(StartShop(s2, bases))
    ensures forall isRight :: Seen(MoveEmo(s1, index, isRight)) == Seen(MoveEmo(s2, index, isRight))
  {
    SeenAsPlain(s1, bases, cards, baseId, isTriple, index);
    SeenAsPlain(s2, bases, cards, baseId, isTriple, index);
    forall isRight ensures Seen(MoveEmo(s1, index, isRight)) == Seen(MoveEmo(s2, index, isRight)) {
      SeenMove(s1, s2, index, isRight);
    }
  }

  lemma SeenMove(s1: State, s2: State, index: nat, isRight: bool)
    requires s1.logs == [] && s1.earned == 0 && s2.logs == [] && s2.earned == 0
    requires Strip(s1.board) == Strip(s2.board) && s1.tape == s2.tape
    ensures Seen(MoveEmo(s1, index, isRight)) == Seen(MoveEmo(s2, index, isRight))
  {
    assert |Strip(s1.board)| == |s1.board| && |Strip(s2.board)| == |s2.board|;
    var r1, r2 := MoveEmo(s1, index, isRight), MoveEmo(s2, index, isRight);
    if r1.Some? {
      forall k | 0 <= k < |s1.board| ensures Strip(r1.value.board)[k] == Strip(r2.value.board)[k] {
        assert Strip(s1.board)[k] == Strip(s2.board)[k];
        var to := if isRight then index + 1 else index - 1;
        assert Strip(s1.board)[index] == Strip(s2.board)[index] && Strip(s1.board)[to] == Strip(s2.board)[to];
      }
      assert Strip(r1.value.board) == Strip(r2.value.board);
    }
  }

  lemma SeenAsPlain(s: State, bases: Bases, cards: seq<U16>, baseId: U16, isTriple: bool, index: nat)
    requires Distinct(s) && s.logs == [] && s.earned == 0
    ensures var plain := FromBoard(Strip(s.board), 0, s.tape);
            Seen(AddEmo(s, cards, baseId, isTriple, index, bases)) == Seen(AddEmo(plain, cards, baseId, isTriple, index, bases))
    ensures var plain := FromBoard(Strip(s.board), 0, s.tape);
            Seen(SellEmo(s, index, bases)) == Seen(SellEmo(plain, index, bases))
    ensures var plain := FromBoard(Strip(s.board), 0, s.tape); Seen(StartShop(s, bases)) == Seen(StartShop(plain, bases))
  {
    var f, plain := IdsOf(s), FromBoard(Strip(s.board), 0, s.tape);
    IsRenamedPlain(s);
    AddEmoRenamed(f, plain, cards, baseId, isTriple, index, bases);
    RenSeen(f, AddEmo(plain, cards, baseId, isTriple, index, bases));
    SellEmoRenamed(f, plain, index, bases);
    RenSeen(f, SellEmo(plain, index, bases));
    StartShopRenamed(f, plain, bases);
    RenSeen(f, StartShop(plain, bases));
  }

  lemma StartShopRenamed(f: Renaming, s: State, bases: Bases)
    requires Injective(f) && InStep(f, s.next)
    ensures StartShop(RenState(f, s), bases)
         == RenStateOption(f, StartShop(s, bases))
  {
    RenBoardPeris(f, s.board);
    RenPreTasks(f, BoardPres(s.board));
    RenRun(f, PreTasks(BoardPres(s.board)), s, bases);
  }
}
