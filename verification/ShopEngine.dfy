/** The shop's board as the program keeps it, changed in place by mutually recursive methods.
    Each method is proved to do exactly what `Run` does with the task the method stands for. */
module ShopEngine {
  import opened Types
  import opened Rng
  import opened Shop
  import opened ShopRun
  import opened ShopRenaming
  import Moves

  /** `ts` was run from `before`: with success to `after`, earning what `coin'` has more than `coin`, or with failure. */
  ghost predicate Ran(ts: seq<Task>, before: State, after: State, ok: bool, coin: U8, coin': U8, bases: Bases) {
    && Run(ts, before, bases) == (if ok then Some(after) else None)
    && (ok ==> Earned(before, after, coin, coin'))
  }

  ghost predicate Earned(before: State, after: State, coin: U8, coin': U8) {
    before.earned <= after.earned && coin' == Sat8(coin + (after.earned - before.earned))
  }

  function InsertedPotential(board: seq<ShopEmo>, emo: ShopEmo): nat { Potential([emo] + board) }

  /** A bound for the recursion that also covers the call on a full board, which fails at once. */
  function AddMeasure(board: seq<ShopEmo>): nat {
    if |board| < BOARD_EMO_MAX_COUNT then Potential(board) else 200 + |board|
  }

  lemma InsertionPlace(board: seq<ShopEmo>, emo: ShopEmo, i: nat)
    requires i <= |board|
    ensures Potential(board[..i] + [emo] + board[i..]) == InsertedPotential(board, emo)
    ensures InsertedPotential(board, emo) < AddMeasure(board)
  {
    SumInsert(TripleUnit, board, emo, i);
    SumInsert(TripleUnit, board, emo, 0);
    assert board[..0] + [emo] + board[0..] == [emo] + board;
    if |board| < 7 {
      InsertLowersPotential(board, emo, i);
    } else {
      PotentialInRange([emo] + board);
    }
  }

  lemma MergeMeasure(board: seq<ShopEmo>, baseId: U16, triple: ShopEmo)
    requires |Copies(board, baseId)| >= 3 && triple.attr.isTriple
    ensures InsertedPotential(WithoutCopies(board, baseId), triple) < Potential(board)
  {
    var rest := WithoutCopies(board, baseId);
    CopiesPartition(board, baseId);
    PotentialInRange([triple] + rest);
    PotentialInRange(board);
    if |rest| < 7 {
      MergeLowersPotential(board, baseId, triple, 0);
      assert rest[..0] + [triple] + rest[0..] == [triple] + rest;
    }
  }

  /** `InsertEmo` and all that follows from it. */
  function PlaceEmo(s: State, emo: ShopEmo, index: nat, bases: Bases): Option<State> {
    var (s1, ts) :- InsertEmo(s, emo, index, bases);
    Run(ts, s1, bases)
  }

  /** `MergeCopies` on at least three copies, and all that follows from it. */
  function MergeAt(s: State, baseId: U16, index: nat, bases: Bases): Option<State> {
    var base :- Find(bases, baseId);
    var triple :- BuildTriple(Copies(s.board, baseId), base, s.next);
    PlaceEmo(s.(board := WithoutCopies(s.board, baseId), next := s.next + 1, earned := s.earned + TRIPLE_REWARD_COIN,
                logs := s.logs + [Triple(CopyIndexes(s.board, baseId, 0))]), triple, index, bases)
  }

  function CountBelow(indexes: seq<nat>, n: nat): nat {
    if indexes == [] then 0 else (if indexes[0] < n then 1 else 0) + CountBelow(indexes[1..], n)
  }

  lemma {:induction false} SplitAppend(a: seq<ShopEmo>, b: seq<ShopEmo>, baseId: U16)
    ensures Copies(a + b, baseId) == Copies(a, baseId) + Copies(b, baseId)
    ensures WithoutCopies(a + b, baseId) == WithoutCopies(a, baseId) + WithoutCopies(b, baseId)
  {
    if a == [] {
      assert a + b == b;
    } else {
      assert (a + b)[1..] == a[1..] + b;
      SplitAppend(a[1..], b, baseId);
      var copy, other := if IsCopy(a[0], baseId) then [a[0]] else [], if IsCopy(a[0], baseId) then [] else [a[0]];
      assert copy + (Copies(a[1..], baseId) + Copies(b, baseId)) == copy + Copies(a[1..], baseId) + Copies(b, baseId);
      assert other + (WithoutCopies(a[1..], baseId) + WithoutCopies(b, baseId))
          == other + WithoutCopies(a[1..], baseId) + WithoutCopies(b, baseId);
    }
  }

  lemma {:induction false} IndexesAppend(a: seq<ShopEmo>, b: seq<ShopEmo>, baseId: U16, from: nat)
    ensures CopyIndexes(a + b, baseId, from) == CopyIndexes(a, baseId, from) + CopyIndexes(b, baseId, from + |a|)
  {
    if a == [] {
      assert a + b == b;
    } else {
      assert (a + b)[1..] == a[1..] + b;
      IndexesAppend(a[1..], b, baseId, from + 1);
    }
  }

  lemma SplitOne(e: ShopEmo, baseId: U16, from: nat)
    ensures Copies([e], baseId) == if IsCopy(e, baseId) then [e] else []
    ensures WithoutCopies([e], baseId) == if IsCopy(e, baseId) then [] else [e]
    ensures CopyIndexes([e], baseId, from) == if IsCopy(e, baseId) then [from] else []
  {
    assert [e][1..] == [];
  }

  /** The last listed index, what lies before it and after it. */
  ghost predicate LastIs(board: seq<ShopEmo>, baseId: U16, i: nat, indexes: seq<nat>) {
    && i < |board| && CopyIndexes(board, baseId, 0) == indexes + [i] && indexes == CopyIndexes(board[..i], baseId, 0)
    && Copies(board[i..], baseId) == [board[i]] && WithoutCopies(board[i..], baseId) == board[i + 1..]
  }

  lemma LastIsLast(front: seq<ShopEmo>, last: ShopEmo, baseId: U16)
    requires IsCopy(last, baseId)
    ensures LastIs(front + [last], baseId, |front|, CopyIndexes(front, baseId, 0))
  {
    hide Shop.Copies;
    hide Shop.WithoutCopies;
    hide Shop.CopyIndexes;
    var board, n := front + [last], |front|;
    IndexesAppend(front, [last], baseId, 0);
    SplitOne(last, baseId, n);
    assert board[..n] == front && board[n..] == [last] && board[n + 1..] == [] && board[n] == last;
  }

  lemma LastIsBefore(front: seq<ShopEmo>, last: ShopEmo, baseId: U16, i: nat, indexes: seq<nat>)
    requires !IsCopy(last, baseId) && LastIs(front, baseId, i, indexes)
    ensures LastIs(front + [last], baseId, i, indexes)
  {
    hide Shop.Copies;
    hide Shop.WithoutCopies;
    hide Shop.CopyIndexes;
    IndexesAppend(front, [last], baseId, 0);
    SplitAppend(front, [last], baseId);
    SplitOne(last, baseId, |front|);
    SplitOne(last, baseId, 0);
    SplitAppend(front[i..], [last], baseId);
    assert (front + [last])[i..] == front[i..] + [last] && (front + [last])[..i] == front[..i];
    assert (front + [last])[i + 1..] == front[i + 1..] + [last];
  }

  lemma {:induction false} LastCopy(board: seq<ShopEmo>, baseId: U16)
    ensures var indexes := CopyIndexes(board, baseId, 0);
            if indexes == [] then Copies(board, baseId) == [] && WithoutCopies(board, baseId) == board
            else LastIs(board, baseId, indexes[|indexes| - 1], indexes[..|indexes| - 1])
    decreases |board|
  {
    if board != [] {
      var n := |board| - 1;
      var front, last := board[..n], board[n];
      assert board == front + [last];
      LastCopy(front, baseId);
      if IsCopy(last, baseId) {
        LastIsLast(front, last, baseId);
      } else {
        SplitAppend(front, [last], baseId);
        IndexesAppend(front, [last], baseId, 0);
        SplitOne(last, baseId, n);
        var indexes := CopyIndexes(front, baseId, 0);
        if indexes != [] {
          LastIsBefore(front, last, baseId, indexes[|indexes| - 1], indexes[..|indexes| - 1]);
        }
      }
    }
  }

  /** One removal from the back. */
  lemma RemoveLast(was: seq<ShopEmo>, end: nat, baseId: U16, i: nat, indexes: seq<nat>)
    requires end <= |was| && LastIs(was[..end], baseId, i, indexes)
    ensures i < end && indexes == CopyIndexes(was[..i], baseId, 0)
    ensures Copies(was[i..], baseId) == [was[i]] + Copies(was[end..], baseId)
    ensures var emos := was[..end] + WithoutCopies(was[end..], baseId);
            emos[i] == was[i] && emos[..i] + emos[i + 1..] == was[..i] + WithoutCopies(was[i..], baseId)
  {
    hide Shop.Copies;
    hide Shop.WithoutCopies;
    hide Shop.CopyIndexes;
    var front, kept := was[..end], WithoutCopies(was[end..], baseId);
    assert was[i..] == front[i..] + was[end..] && was[..i] == front[..i];
    SplitAppend(front[i..], was[end..], baseId);
    assert (front + kept)[i + 1..] == front[i + 1..] + kept;
  }

  lemma NothingThere(baseId: U16)
    ensures Copies([], baseId) == [] && WithoutCopies([], baseId) == []
  {
  }

  /** The last listed index is where the removal goes on. */
  lemma RemoveNext(was: seq<ShopEmo>, end: nat, baseId: U16, indexes: seq<nat>)
    requires end <= |was| && indexes != [] && indexes == CopyIndexes(was[..end], baseId, 0)
    ensures var i, emos := indexes[|indexes| - 1], was[..end] + WithoutCopies(was[end..], baseId);
            && i < end && indexes[..|indexes| - 1] == CopyIndexes(was[..i], baseId, 0)
            && Copies(was[i..], baseId) == [emos[i]] + Copies(was[end..], baseId)
            && emos[..i] + emos[i + 1..] == was[..i] + WithoutCopies(was[i..], baseId)
  {
    hide Shop.Copies;
    hide Shop.WithoutCopies;
    hide Shop.CopyIndexes;
    hide LastIs;
    LastCopy(was[..end], baseId);
    RemoveLast(was, end, baseId, indexes[|indexes| - 1], indexes[..|indexes| - 1]);
  }

  lemma RemoveDone(was: seq<ShopEmo>, end: nat, baseId: U16)
    requires end <= |was| && CopyIndexes(was[..end], baseId, 0) == []
    ensures Copies(was, baseId) == Copies(was[end..], baseId)
    ensures WithoutCopies(was, baseId) == was[..end] + WithoutCopies(was[end..], baseId)
  {
    hide Shop.Copies;
    hide Shop.WithoutCopies;
    hide Shop.CopyIndexes;
    LastCopy(was[..end], baseId);
    assert was == was[..end] + was[end..];
    SplitAppend(was[..end], was[end..], baseId);
  }

  lemma {:induction false} CountBelowAppend(a: seq<nat>, b: seq<nat>, n: nat)
    ensures CountBelow(a + b, n) == CountBelow(a, n) + CountBelow(b, n)
  {
    if a == [] {
      assert a + b == b;
    } else {
      assert (a + b)[1..] == a[1..] + b;
      CountBelowAppend(a[1..], b, n);
    }
  }

  lemma {:induction false} CountBelowBounds(board: seq<ShopEmo>, baseId: U16, from: nat, n: nat)
    ensures n >= from + |board| ==> CountBelow(CopyIndexes(board, baseId, from), n) == |Copies(board, baseId)|
    ensures n <= from ==> CountBelow(CopyIndexes(board, baseId, from), n) == 0
  {
    if board != [] {
      CountBelowBounds(board[1..], baseId, from + 1, n);
      CountBelowAppend(if IsCopy(board[0], baseId) then [from] else [], CopyIndexes(board[1..], baseId, from + 1), n);
      assert CountBelow([from], n) == if from < n then 1 else 0;
    }
  }

  /** The place left for the triple: the new emo's index less the copies before it. */
  lemma TriplePlace(board: seq<ShopEmo>, baseId: U16, n: nat)
    requires n <= |board|
    ensures |WithoutCopies(board[..n], baseId)| + CountBelow(CopyIndexes(board, baseId, 0), n) == n
  {
    hide Shop.Copies;
    hide Shop.WithoutCopies;
    hide Shop.CopyIndexes;
    assert board == board[..n] + board[n..];
    IndexesAppend(board[..n], board[n..], baseId, 0);
    SplitAppend(board[..n], board[n..], baseId);
    CountBelowAppend(CopyIndexes(board[..n], baseId, 0), CopyIndexes(board[n..], baseId, n), n);
    CountBelowBounds(board[..n], baseId, 0, n);
    CountBelowBounds(board[n..], baseId, n, n);
    CopiesPartition(board[..n], baseId);
  }

  function Prepended(a: seq<nat>, b: Option<seq<nat>>): Option<seq<nat>> {
    if b.None? then None else Some(a + b.value)
  }

  lemma RunMerge(s: State, newId: nat, bases: Bases)
    ensures FindIndex(s.board, newId).None? ==> Run([Merge(newId)], s, bases).None?
    ensures FindIndex(s.board, newId).Some? ==>
              var i := FindIndex(s.board, newId).value;
              var baseId := s.board[i].baseId;
              Run([Merge(newId)], s, bases) ==
              (if |Copies(s.board, baseId)| < 3 then Some(s)
               else MergeAt(s, baseId, |WithoutCopies(s.board[..i], baseId)|, bases))
  {
    RunOne(Merge(newId), s, bases);
    RunDone(s, bases);
  }

  lemma RunDone(s: State, bases: Bases)
    ensures Run([], s, bases) == Some(s)
  {
  }

  class ShopBoard {
    var emos: seq<ShopEmo>
    var logs: seq<Log>
    var next: nat
    var tape: Tape
    ghost var earned: nat

    ghost function View(): State
      reads this
    {
      State(emos, logs, next, earned, tape)
    }

    constructor FromBoard(board: Board, first: nat, tape: Tape)
      ensures View() == ShopRenaming.FromBoard(board, first, tape)
    {
      emos, logs, next, this.tape, earned := [], [], first, tape, 0;
      new;
      for i := 0 to |board|
        invariant next == first + i && |emos| == i && logs == [] && earned == 0 && this.tape == tape
        invariant forall j :: 0 <= j < i ==> emos[j] == ShopEmo(first + j, board[j].cards, board[j].baseId, board[j].attr)
      {
        emos := emos + [ShopEmo(next, board[i].cards, board[i].baseId, board[i].attr)];
        next := next + 1;
      }
      assert emos == ShopRenaming.FromBoard(board, first, tape).board;
    }

    // ----- stats and abilities -----

    method AddAttackAndHealthToEmo(id: nat, attack: U16, health: U16) returns (ok: bool)
      modifies this`emos, this`logs
      ensures RaiseEmo(old(View()), id, attack, health) == if ok then Some(View()) else None
    {
      var index := FindIndex(emos, id);
      if index.None? {
        return false;
      }
      var i := index.value;
      var attr := emos[i].attr;
      var calculatedAttack := Sat16(attr.attack + attack);
      var calculatedHealth := Sat16(attr.health + health);
      logs := logs + [RaiseStats(i, attack, health, calculatedAttack, calculatedHealth)];
      emos := emos[i := emos[i].(attr := attr.(attack := calculatedAttack, health := calculatedHealth))];
      return true;
    }

    method AddAttackAndHealthToEmos(ids: seq<nat>, attack: U16, health: U16, bases: Bases) returns (ok: bool)
      modifies this`emos, this`logs
      ensures Run(RaiseTasks(ids, attack, health), old(View()), bases) == if ok then Some(View()) else None
    {
      hide ShopRun.Run;
      ghost var before := View();
      for i := 0 to |ids|
        invariant Run(RaiseTasks(ids, attack, health), before, bases) == Run(RaiseTasks(ids[i..], attack, health), View(), bases)
        invariant earned == before.earned && next == before.next && tape == before.tape
      {
        ghost var ts, s := RaiseTasks(ids[i..], attack, health), View();
        assert ids[i..][1..] == ids[i + 1..] && ts[1..] == RaiseTasks(ids[i + 1..], attack, health);
        RunFirst(ts, s, bases);
        RunOne(ts[0], s, bases);
        ok := AddAttackAndHealthToEmo(ids[i], attack, health);
        if !ok {
          return;
        }
        RunDone(View(), bases);
      }
      ok := true;
      RunDone(View(), bases);
    }

    method AddAbilityToEmos(ids: seq<nat>, ability: Ability, bases: Bases) returns (ok: bool)
      modifies this`emos, this`logs
      ensures Run(GrantTasks(ids, ability), old(View()), bases) == if ok then Some(View()) else None
    {
      hide ShopRun.Run;
      ghost var before := View();
      for i := 0 to |ids|
        invariant Run(GrantTasks(ids, ability), before, bases) == Run(GrantTasks(ids[i..], ability), View(), bases)
        invariant earned == before.earned && next == before.next && tape == before.tape
      {
        ghost var ts, s := GrantTasks(ids[i..], ability), View();
        assert ids[i..][1..] == ids[i + 1..] && ts[1..] == GrantTasks(ids[i + 1..], ability);
        RunFirst(ts, s, bases);
        RunOne(ts[0], s, bases);
        var index := FindIndex(emos, ids[i]);
        if index.None? {
          return false;
        }
        var j := index.value;
        var attr := emos[j].attr;
        if !(IsBattleSpecial(ability) && ability in attr.abilities) {
          logs := logs + [AddAbilityTo(j, ability, attr.isTriple)];
          emos := emos[j := emos[j].(attr := attr.(abilities := attr.abilities + [ability]))];
        }
        RunDone(View(), bases);
      }
      ok := true;
      RunDone(View(), bases);
    }

    // ----- setting and merging -----

    method AddEmo(cards: seq<U16>, baseId: U16, isTriple: bool, index: nat, bases: Bases) returns (ok: bool, coin: U8)
      modifies this
      ensures ShopRun.AddEmo(old(View()), cards, baseId, isTriple, index, bases) == if ok then Some(View()) else None
      ensures ok ==> Earned(old(View()), View(), 0, coin)
      decreases AddMeasure(emos), 0
    {
      hide Shop.Potential;
      hide Shop.Sum;
      hide Shop.Capacity;
      hide ShopRun.Run;
      var base := Find(bases, baseId);
      if base.None? {
        return false, 0;
      }
      var emo := ShopEmo(next, cards, base.value.id, BuildAttributes(base.value, isTriple));
      next := next + 1;
      InsertionPlace(emos, emo, 0);
      ok, coin := AddEmoWithBoardEmo(emo, index, bases);
    }

    method AddEmoWithBoardEmo(newEmo: ShopEmo, index: nat, bases: Bases) returns (ok: bool, coin: U8)
      modifies this
      ensures PlaceEmo(old(View()), newEmo, index, bases) == if ok then Some(View()) else None
      ensures ok ==> Earned(old(View()), View(), 0, coin)
      decreases InsertedPotential(emos, newEmo), 9
    {
      hide Shop.Potential;
      hide Shop.Sum;
      hide Shop.Capacity;
      hide ShopRun.Run;
      if |emos| >= BOARD_EMO_MAX_COUNT || index > |emos| {
        return false, 0;
      }
      InsertionPlace(emos, newEmo, index);
      logs := logs + [Add(index, ToBoardEmo(newEmo))];
      emos := emos[..index] + [newEmo] + emos[index..];

      ghost var inserted := View();
      ghost var ts := AdditionTasks(emos, newEmo.id, bases);
      ok, coin := CallEmoAdditionAbilities(newEmo.id, 0, bases);
      if ts.Some? {
        RunAppend(ts.value, if newEmo.attr.isTriple then [] else [Merge(newEmo.id)], inserted, bases);
      }
      if !ok {
        return;
      }
      if !newEmo.attr.isTriple {
        ok, coin := ProcessTriple(newEmo.id, coin, bases);
      } else {
        RunDone(View(), bases);
      }
    }

    method CallEmoAdditionAbilities(newId: nat, coin: U8, bases: Bases) returns (ok: bool, coin': U8)
      modifies this
      ensures AdditionTasks(old(emos), newId, bases).None? ==> !ok
      ensures AdditionTasks(old(emos), newId, bases).Some? ==>
                Ran(AdditionTasks(old(emos), newId, bases).value, old(View()), View(), ok, coin, coin', bases)
      decreases Potential(emos), 8
    {
      hide ShopRun.Run;
      coin' := coin;
      var added := FindEmo(emos, newId);
      if added.None? {
        return false, coin;
      }
      var base := Find(bases, added.value.baseId);
      if base.None? {
        return false, coin;
      }
      var isNewTriple, peris := added.value.attr.isTriple, PeriOf(added.value.attr.abilities);
      ghost var before := View();
      ghost var own, sweep := SelfTasks(peris, OnSet, OnBoard(newId)), AllySweep(newId, base.value.typ, isNewTriple);
      RunAppend(own, [sweep], before, bases);

      ok, coin' := CallSelf(peris, OnSet, OnBoard(newId), coin, bases);
      if !ok {
        return;
      }
      RunOne(sweep, View(), bases);
      ok, coin' := CallAllies(BoardPeris(emos), newId, base.value.typ, isNewTriple, coin', bases);
    }

    /** The actions an emo performs for itself on `trigger`, in the order of its abilities. */
    method CallSelf(peris: seq<Peri>, trigger: SelfTrigger, ptr: Pointer, coin: U8, bases: Bases) returns (ok: bool, coin': U8)
      modifies this
      ensures Ran(SelfTasks(peris, trigger, ptr), old(View()), View(), ok, coin, coin', bases)
      decreases Potential(emos), 4
    {
      hide ShopRun.Run;
      coin' := coin;
      ghost var before := View();
      for i := 0 to |peris|
        invariant Run(SelfTasks(peris, trigger, ptr), before, bases) == Run(SelfTasks(peris[i..], trigger, ptr), View(), bases)
        invariant Earned(before, View(), coin, coin')
        invariant Potential(emos) <= Potential(before.board)
      {
        assert peris[i..][1..] == peris[i + 1..];
        if peris[i].AsOneself? && peris[i].trigger == trigger {
          ghost var ts := SelfTasks(peris[i..], trigger, ptr);
          assert ts[0] == ActAsOneself(peris[i].action, ptr) && ts[1..] == SelfTasks(peris[i + 1..], trigger, ptr);
          RunFirst(ts, View(), bases);
          ok, coin' := CallAbilityActionAsOneself(peris[i].action, ptr, coin', bases);
          if !ok {
            return;
          }
        } else {
          assert SelfTasks(peris[i..], trigger, ptr) == SelfTasks(peris[i + 1..], trigger, ptr);
        }
      }
      ok := true;
      RunDone(View(), bases);
    }

    /** The reactions of the allies, listed before the first of them acts. */
    method CallAllies(peris: seq<(nat, Peri)>, newId: nat, typ: Typ, isNewTriple: bool, coin: U8, bases: Bases)
      returns (ok: bool, coin': U8)
      modifies this
      ensures Ran(SweepTasks(peris, newId, typ, isNewTriple), old(View()), View(), ok, coin, coin', bases)
      decreases Potential(emos), 6
    {
      hide ShopRun.Run;
      hide Shop.Potential;
      hide MatchedTriple;
      hide MatchedTyp;
      coin' := coin;
      ghost var before := View();
      for i := 0 to |peris|
        invariant Run(SweepTasks(peris, newId, typ, isNewTriple), before, bases)
               == Run(SweepTasks(peris[i..], newId, typ, isNewTriple), View(), bases)
        invariant Earned(before, View(), coin, coin')
        invariant Potential(emos) <= Potential(before.board)
      {
        assert peris[i..][1..] == peris[i + 1..];
        var ownerId, peri := peris[i].0, peris[i].1;
        ghost var ts, rest := SweepTasks(peris[i..], newId, typ, isNewTriple), SweepTasks(peris[i + 1..], newId, typ, isNewTriple);
        if ownerId == newId || SweepTask(peri, ownerId, newId, typ, isNewTriple) == [] {
          assert ts == rest;
          continue;
        }
        assert ts[0] == SweepTask(peri, ownerId, newId, typ, isNewTriple)[0] && ts[1..] == rest;
        RunFirst(ts, View(), bases);
        if peri.AsAlly? {
          ok, coin' := CallAbilityActionAsAlly(peri.allyAction, ownerId, OnBoard(newId), coin', bases);
        } else {
          ok, coin' := CallAbilityActionAsOneself(peri.action, OnBoard(ownerId), coin', bases);
        }
        if !ok {
          return;
        }
      }
      ok := true;
      RunDone(View(), bases);
    }

    method CallAbilityActionAsAlly(action: AllyAction, onesId: nat, ptr: Pointer, coin: U8, bases: Bases)
      returns (ok: bool, coin': U8)
      modifies this
      ensures Ran([ActAsAlly(action, onesId, ptr)], old(View()), View(), ok, coin, coin', bases)
      decreases Potential(emos), 5
    {
      hide ShopRun.Run;
      RunOne(ActAsAlly(action, onesId, ptr), View(), bases);
      var ones := FindEmo(emos, onesId);
      if ones.None? {
        return false, coin;
      }
      match action
      case OneselfTripleNormal(normal) =>
        ok, coin' := CallAbilityAction(normal, ptr, ones.value.attr.isTriple, coin, bases);
      case TriggerSetActions =>
        ok, coin' := TriggerSetActions(ptr, ones.value.attr.isTriple, coin, bases);
    }

    method TriggerSetActions(ptr: Pointer, isOnesTriple: bool, coin: U8, bases: Bases) returns (ok: bool, coin': U8)
      modifies this
      ensures PointedEmo(old(emos), ptr).None? ==> !ok
      ensures var ally := PointedEmo(old(emos), ptr);
              ally.Some? ==> Ran(SetActionTasks(PeriOf(ally.value.attr.abilities), ptr, ally.value.attr.isTriple, isOnesTriple),
                                 old(View()), View(), ok, coin, coin', bases)
      decreases Potential(emos), 4
    {
      hide Shop.Potential;
      hide Shop.Sum;
      hide Shop.Capacity;
      hide ShopRun.Run;
      hide PeriOf;
      hide FindEmo;
      coin' := coin;
      var ally := PointedEmo(emos, ptr);
      if ally.None? {
        return false, coin;
      }
      var isAllyTriple, peris := ally.value.attr.isTriple, PeriOf(ally.value.attr.abilities);
      ghost var before := View();
      for i := 0 to |peris|
        invariant Run(SetActionTasks(peris, ptr, isAllyTriple, isOnesTriple), before, bases)
               == Run(SetActionTasks(peris[i..], ptr, isAllyTriple, isOnesTriple), View(), bases)
        invariant Earned(before, View(), coin, coin')
        invariant Potential(emos) <= Potential(before.board)
      {
        assert peris[i..][1..] == peris[i + 1..];
        ghost var rest := SetActionTasks(peris[i + 1..], ptr, isAllyTriple, isOnesTriple);
        if peris[i].AsOneself? && peris[i].trigger.OnSet? {
          ghost var t := Act(peris[i].action, ptr, isAllyTriple);
          RunAppend(if isOnesTriple then [t, t] else [t], rest, View(), bases);
          ok, coin' := CallOnceOrTwice(peris[i].action, ptr, isAllyTriple, isOnesTriple, coin', bases);
          if !ok {
            return;
          }
        } else {
          assert SetActionTasks(peris[i..], ptr, isAllyTriple, isOnesTriple) == rest;
        }
      }
      ok := true;
      RunDone(View(), bases);
    }

    method CallOnceOrTwice(action: ShopAction, ptr: Pointer, isTriple: bool, twice: bool, coin: U8, bases: Bases)
      returns (ok: bool, coin': U8)
      modifies this
      ensures var t := Act(action, ptr, isTriple);
              Ran(if twice then [t, t] else [t], old(View()), View(), ok, coin, coin', bases)
      decreases Potential(emos), 3
    {
      hide ShopRun.Run;
      ghost var t := Act(action, ptr, isTriple);
      assert [t, t][1..] == [t];
      RunFirst([t, t], View(), bases);
      ok, coin' := CallAbilityAction(action, ptr, isTriple, coin, bases);
      if ok && twice {
        ok, coin' := CallAbilityAction(action, ptr, isTriple, coin', bases);
      }
    }

    method CallAbilityActionAsOneself(action: ShopAction, ptr: Pointer, coin: U8, bases: Bases) returns (ok: bool, coin': U8)
      modifies this
      ensures Ran([ActAsOneself(action, ptr)], old(View()), View(), ok, coin, coin', bases)
      decreases Potential(emos), 3
    {
      hide ShopRun.Run;
      RunOne(ActAsOneself(action, ptr), View(), bases);
      var emo := PointedEmo(emos, ptr);
      if emo.None? {
        return false, coin;
      }
      ok, coin' := CallAbilityAction(action, ptr, emo.value.attr.isTriple, coin, bases);
    }

    method CallAbilityAction(action: ShopAction, ptr: Pointer, isTriple: bool, coin: U8, bases: Bases)
      returns (ok: bool, coin': U8)
      modifies this
      ensures Ran([Act(action, ptr, isTriple)], old(View()), View(), ok, coin, coin', bases)
      decreases Potential(emos), 2
    {
      hide Shop.Potential;
      hide Shop.Sum;
      hide Shop.Capacity;
      hide Shop.CountOthers;
      hide ShopRun.Run;
      RunOne(Act(action, ptr, isTriple), View(), bases);
      coin' := coin;
      match action
      case SetEmo(baseId) => ok, coin' := SetEmo(ptr, isTriple, baseId, coin, bases);
      case GetCoin(amount) =>
        var gotten := if isTriple then Sat8(2 * amount) else amount;
        coin' := Sat8(coin + gotten);
        earned := earned + gotten;
        ok := true;
        RunDone(View(), bases);
      case GetCoinByEmoCountDiv(cond, divisor) =>
        var count := CountOthers(emos, PointedId(ptr), cond, bases);
        if count.None? || divisor == 0 {
          return false, coin;
        }
        var gotten := Sat8(if isTriple then 2 * (count.value / divisor) else count.value / divisor);
        coin' := Sat8(coin + gotten);
        earned := earned + gotten;
        ok := true;
        RunDone(View(), bases);
      case _ => ok := ChangeEmos(action, ptr, isTriple, bases);
    }

    /** The actions on the stats and abilities of emos already on the board. */
    method ChangeEmos(action: ShopAction, ptr: Pointer, isTriple: bool, bases: Bases) returns (ok: bool)
      requires !action.SetEmo? && !action.GetCoin? && !action.GetCoinByEmoCountDiv?
      modifies this`emos, this`logs
      ensures SpreadAction(old(emos), action, ptr, isTriple, bases).None? ==> !ok
      ensures var ts := SpreadAction(old(emos), action, ptr, isTriple, bases);
              ts.Some? ==> Run(ts.value, old(View()), bases) == if ok then Some(View()) else None
    {
      hide Shop.TargetIds;
      hide Shop.AdjacentIds;
      hide Shop.CountOthers;
      hide Shop.RaiseTasks;
      hide Shop.GrantTasks;
      hide ShopRun.Run;
      match action
      case IncreaseStats(target, attack, health) =>
        ok := AddToTargets(ptr, target, DoubleIf(isTriple, attack), DoubleIf(isTriple, health), bases);
      case IncreaseStatsOfAdjacentMenagerie(attack, health) =>
        var ids := AdjacentIds(emos, ptr, bases);
        if ids.None? {
          return false;
        }
        ok := AddAttackAndHealthToEmos(ids.value, DoubleIf(isTriple, attack), DoubleIf(isTriple, health), bases);
      case IncreaseStatsByGrade(target, attack, health) =>
        var emo := PointedEmo(emos, ptr);
        if emo.None? || emo.value.baseId !in bases {
          return false;
        }
        var grade := bases[emo.value.baseId].grade;
        ok := AddToTargets(ptr, target, Sat16(DoubleIf(isTriple, attack) * grade), Sat16(DoubleIf(isTriple, health) * grade), bases);
      case IncreaseStatsByEmoCount(target, cond, attack, health) =>
        var count := CountOthers(emos, PointedId(ptr), cond, bases);
        if count.None? {
          return false;
        }
        ok := AddToTargets(ptr, target, Sat16(DoubleIf(isTriple, attack) * count.value),
                           Sat16(DoubleIf(isTriple, health) * count.value), bases);
      case AddAbility(target, ability) =>
        var ids := TargetIds(emos, ptr, target, bases);
        if ids.None? {
          return false;
        }
        ok := AddAbilityToEmos(ids.value, ability, bases);
    }

    method AddToTargets(ptr: Pointer, target: Target, attack: U16, health: U16, bases: Bases) returns (ok: bool)
      modifies this`emos, this`logs
      ensures TargetIds(old(emos), ptr, target, bases).None? ==> !ok
      ensures var ids := TargetIds(old(emos), ptr, target, bases);
              ids.Some? ==> Run(RaiseTasks(ids.value, attack, health), old(View()), bases) == if ok then Some(View()) else None
    {
      var ids := TargetIds(emos, ptr, target, bases);
      if ids.None? {
        return false;
      }
      ok := AddAttackAndHealthToEmos(ids.value, attack, health, bases);
    }

    method SetEmo(ptr: Pointer, isTriple: bool, baseId: U16, coin: U8, bases: Bases) returns (ok: bool, coin': U8)
      modifies this
      ensures Ran([Act(ShopAction.SetEmo(baseId), ptr, isTriple)], old(View()), View(), ok, coin, coin', bases)
      decreases Potential(emos), 1
    {
      hide ShopRun.Run;
      RunOne(Act(ShopAction.SetEmo(baseId), ptr, isTriple), View(), bases);
      if |emos| >= BOARD_EMO_MAX_COUNT {
        RunDone(View(), bases);
        return true, coin;
      }
      var index := NextIndex(emos, ptr);
      if index.None? {
        return false, coin;
      }
      var gotten;
      ok, gotten := AddEmo([], baseId, isTriple, index.value, bases);
      coin' := Sat8(coin + gotten);
    }

    method ProcessTriple(newId: nat, coin: U8, bases: Bases) returns (ok: bool, coin': U8)
      modifies this
      ensures Ran([Merge(newId)], old(View()), View(), ok, coin, coin', bases)
      decreases Potential(emos), 7
    {
      hide Shop.Potential;
      hide Shop.Sum;
      hide Shop.Capacity;
      hide ShopRun.Run;
      hide Shop.MergeCopies;
      hide MergeAt;
      RunMerge(View(), newId, bases);
      var found := FindIndex(emos, newId);
      if found.None? {
        return false, coin;
      }
      var newIndex := found.value;
      var baseId := emos[newIndex].baseId;
      var indexes := CopyIndexes(emos, baseId, 0);
      CopiesPartition(emos, baseId);
      if |indexes| < 3 {
        return true, coin;
      }
      TriplePlace(emos, baseId, newIndex);
      ok, coin' := Merge3(newIndex - CountBelow(indexes, newIndex), indexes, baseId, coin, bases);
    }

    /** Replaces the copies by their triple, set at `index`. */
    method Merge3(index: nat, indexes: seq<nat>, baseId: U16, coin: U8, bases: Bases) returns (ok: bool, coin': U8)
      requires indexes == CopyIndexes(emos, baseId, 0) && |Copies(emos, baseId)| >= 3
      modifies this
      ensures MergeAt(old(View()), baseId, index, bases) == if ok then Some(View()) else None
      ensures ok ==> Earned(old(View()), View(), coin, coin')
      decreases Potential(emos), 6
    {
      hide ShopRun.Run;
      hide Shop.Potential;
      coin' := coin;
      ghost var before := View();
      var removed := RemoveTripleEmos(indexes, baseId);
      var base := Find(bases, baseId);
      if base.None? {
        return false, coin;
      }
      var triple := BuildTriple(removed, base.value, next);
      next := next + 1;
      if triple.None? {
        return false, coin;
      }
      logs := logs + [Triple(indexes)];
      earned := earned + TRIPLE_REWARD_COIN;
      MergeMeasure(before.board, baseId, triple.value);
      var gotten;
      ok, gotten := AddEmoWithBoardEmo(triple.value, index, bases);
      coin' := Sat8(Sat8(coin + gotten) + TRIPLE_REWARD_COIN);
    }

    /** Takes the listed emos out from the last to the first, so that the other indexes stay true. */
    method RemoveTripleEmos(indexes: seq<nat>, ghost baseId: U16) returns (removed: seq<ShopEmo>)
      requires indexes == CopyIndexes(emos, baseId, 0)
      modifies this`emos
      ensures removed == Copies(old(emos), baseId) && emos == WithoutCopies(old(emos), baseId)
    {
      hide Shop.Copies;
      hide Shop.WithoutCopies;
      hide Shop.CopyIndexes;
      removed := [];
      ghost var was, end := emos, |emos|;
      assert was[..end] == was && was[end..] == [];
      NothingThere(baseId);
      for k := |indexes| downto 0
        invariant 0 <= end <= |was|
        invariant indexes[..k] == CopyIndexes(was[..end], baseId, 0)
        invariant removed == Copies(was[end..], baseId)
        invariant emos == was[..end] + WithoutCopies(was[end..], baseId)
      {
        ghost var i := indexes[k];
        RemoveNext(was, end, baseId, indexes[..k + 1]);
        assert indexes[..k + 1][..k] == indexes[..k];
        removed := [emos[indexes[k]]] + removed;
        emos := emos[..indexes[k]] + emos[indexes[k] + 1..];
        end := i;
      }
      RemoveDone(was, end, baseId);
    }

    // ----- the operations -----

    method StartShop(bases: Bases) returns (ok: bool, coin: U8)
      modifies this
      ensures ShopRun.StartShop(old(View()), bases) == if ok then Some(View()) else None
      ensures ok ==> Earned(old(View()), View(), 0, coin)
    {
      hide ShopRun.Run;
      coin := 0;
      var pres := BoardPres(emos);
      ghost var before := View();
      for i := 0 to |pres|
        invariant Run(PreTasks(pres), before, bases) == Run(PreTasks(pres[i..]), View(), bases)
        invariant Earned(before, View(), 0, coin)
      {
        assert pres[i..][1..] == pres[i + 1..];
        ghost var ts := PreTasks(pres[i..]);
        assert ts[0] == PreTask(pres[i].1, pres[i].0) && ts[1..] == PreTasks(pres[i + 1..]);
        RunFirst(ts, View(), bases);
        ok, coin := CallPreAbility(pres[i].1, pres[i].0, coin, bases);
        if !ok {
          return;
        }
      }
      ok := true;
      RunDone(View(), bases);
    }

    method CallPreAbility(pre: Pre, actionId: nat, coin: U8, bases: Bases) returns (ok: bool, coin': U8)
      modifies this
      ensures Ran([PreTask(pre, actionId)], old(View()), View(), ok, coin, coin', bases)
    {
      hide ShopRun.Run;
      coin' := coin;
      match pre
      case Normal(action) => ok, coin' := CallAbilityActionAsOneself(action, OnBoard(actionId), coin, bases);
      case IncreaseStatsOfMenagerie(typCount, attack, health) =>
        RunOne(PreTask(pre, actionId), View(), bases);
        ok := IncreaseStatsOfMenagerie(actionId, typCount, attack, health, bases);
    }

    method IncreaseStatsOfMenagerie(actionId: nat, typCount: U8, attack: U16, health: U16, bases: Bases) returns (ok: bool)
      modifies this`emos, this`logs, this`tape
      ensures var r := ServeMenagerie(old(View()), actionId, typCount, attack, health, bases);
              if r.None? then !ok else Run(r.value.1, r.value.0, bases) == if ok then Some(View()) else None
    {
      hide ShopRun.Run;
      var order := Shuffle(Ids(emos), tape);
      tape := After(tape, |emos|);
      var emo := FindEmo(emos, actionId);
      if emo.None? {
        return false;
      }
      var ids := ChooseMenagerie(order, actionId, typCount, bases);
      if ids.None? {
        return false;
      }
      ok := AddAttackAndHealthToEmos(ids.value, DoubleIf(emo.value.attr.isTriple, attack),
                                     DoubleIf(emo.value.attr.isTriple, health), bases);
    }

    /** Goes through the shuffled emos and keeps the first of each typ, up to `typCount` typs. */
    method ChooseMenagerie(order: seq<nat>, actionId: nat, typCount: U8, bases: Bases) returns (ids: Option<seq<nat>>)
      ensures ids == MenagerieIds(emos, order, actionId, [], typCount, bases)
    {
      var chosen, typs, i, served := [], [], 0, false;
      assert order[0..] == order;
      ghost var all := MenagerieIds(emos, order, actionId, [], typCount, bases);
      assert all.Some? ==> [] + all.value == all.value;
      while i < |order| && !served
        invariant 0 <= i <= |order|
        invariant served ==> all == Some(chosen)
        invariant !served ==> all == Prepended(chosen, MenagerieIds(emos, order[i..], actionId, typs, typCount, bases))
      {
        assert order[i..][1..] == order[i + 1..];
        if order[i] != actionId {
          var candidate := FindEmo(emos, order[i]);
          if candidate.None? || candidate.value.baseId !in bases {
            return None;
          }
          var typ := bases[candidate.value.baseId].typ;
          if typ !in typs {
            ghost var rest := MenagerieIds(emos, order[i + 1..], actionId, typs + [typ], typCount, bases);
            assert rest.Some? ==> chosen + ([order[i]] + rest.value) == chosen + [order[i]] + rest.value;
            chosen := chosen + [order[i]];
            served := |typs| + 1 >= typCount;
            typs := typs + [typ];
          }
        }
        i := i + 1;
      }
      ids := Some(chosen);
      assert chosen + [] == chosen;
    }

    method SellEmo(index: nat, bases: Bases) returns (ok: bool, coin: U8)
      modifies this
      ensures ShopRun.SellEmo(old(View()), index, bases) == if ok then Some(View()) else None
      ensures ok ==> Earned(old(View()), View(), 0, coin)
    {
      hide ShopRun.Run;
      if index >= |emos| {
        return false, 0;
      }
      var sold := emos[index];
      logs := logs + [Remove(index)];
      emos := emos[..index] + emos[index + 1..];
      earned := earned + SELL_COIN;
      ok, coin := CallSelf(PeriOf(sold.attr.abilities), OnSell, Removed(sold, index), SELL_COIN, bases);
    }

    method MoveEmo(index: nat, isRight: bool) returns (ok: bool)
      modifies this`emos, this`logs
      ensures ShopRun.MoveEmo(old(View()), index, isRight) == if ok then Some(View()) else None
    {
      if index >= |emos| || (index == 0 && !isRight) || (index + 1 == |emos| && isRight) {
        return false;
      }
      var to := if isRight then index + 1 else index - 1;
      logs := logs + [Move(index, to)];
      ghost var before := emos;
      SwapEmos(index, to);
      assert emos == Moves.Swap(before, index, to);
      return true;
    }

    method SwapEmos(i: nat, j: nat)
      requires i < |emos| && j < |emos|
      modifies this`emos
      ensures |emos| == |old(emos)| && emos[i] == old(emos)[j] && emos[j] == old(emos)[i]
      ensures forall k :: 0 <= k < |emos| && k != i && k != j ==> emos[k] == old(emos)[k]
    {
      emos := emos[i := emos[j]][j := emos[i]];
    }

    /** Puts at each place in turn the emo that the list wants there. */
    method Mov(wanted: seq<nat>) returns (ok: bool)
      modifies this`emos
      ensures Moves.Mov(old(emos), wanted) == if ok then Some(emos) else None
    {
      if |emos| != |wanted| {
        return false;
      }
      var current := Moves.Identity(|emos|);
      for i := 0 to |wanted|
        invariant |current| == |emos| == |wanted|
        invariant Moves.Mov(old(emos), wanted) == Moves.MovFrom(emos, current, wanted, i)
      {
        var j := Moves.IndexOf(current, wanted[i]);
        if j.None? {
          return false;
        }
        current := Moves.Swap(current, i, j.value);
        ghost var before := emos;
        SwapEmos(i, j.value);
        assert emos == Moves.Swap(before, i, j.value);
      }
      return true;
    }
  }
}
