/** What the shop cascade keeps: a faithful log, the cards, the stat floor, the limit of two copies. */
module ShopLaws {
  import opened Types
  import opened Shop
  import opened ShopRun

  // ----- where the emos after a step come from -----

  /** The same emo, its stats not lower and its abilities extended. */
  predicate Grown(e: ShopEmo, e': ShopEmo) {
    && e'.id == e.id && e'.cards == e.cards && e'.baseId == e.baseId && e'.attr.isTriple == e.attr.isTriple
    && e'.attr.attack >= e.attr.attack && e'.attr.health >= e.attr.health
  }

  /** Set by an ability, or merged from all copies of one base. */
  ghost predicate Newborn(e: ShopEmo, s: State, bases: Bases) {
    && e.id == s.next
    && exists baseId ::
      && baseId in bases
      && ((exists isTriple :: e == ShopEmo(s.next, [], bases[baseId].id, BuildAttributes(bases[baseId], isTriple)))
          || BuildTriple(Copies(s.board, baseId), bases[baseId], s.next) == Some(e))
  }

  ghost predicate Descends(e: ShopEmo, s: State, bases: Bases) {
    (exists e0 :: e0 in s.board && Grown(e0, e)) || Newborn(e, s, bases)
  }

  predicate Rewrites(t: Task) { t.RaiseById? || t.GrantById? || t.Merge? || (t.Act? && t.action.SetEmo?) }

  /** Every other task leaves the board, the log and the id counter alone. */
  lemma StepFrame(s: State, t: Task, bases: Bases)
    requires !Rewrites(t)
    ensures var r := Step(s, t, bases);
            r.Some? ==> r.value.0.board == s.board && r.value.0.logs == s.logs && r.value.0.next == s.next
  {
  }

  ghost predicate AllDescend(s: State, s': State, bases: Bases) {
    && (forall e :: e in s'.board ==> Descends(e, s, bases))
    && (s'.next == s.next + 1 || (s'.next == s.next && forall e :: e in s'.board ==> exists e0 :: e0 in s.board && Grown(e0, e)))
  }

  lemma SameDescends(s: State, s': State, bases: Bases)
    requires s'.board == s.board && s'.next == s.next
    ensures AllDescend(s, s', bases)
  {
    forall e | e in s'.board ensures exists e0 :: e0 in s.board && Grown(e0, e) {
      assert Grown(e, e);
    }
  }

  lemma UpdateDescends(s: State, s': State, i: nat, bases: Bases)
    requires i < |s.board| && |s'.board| == |s.board| && Grown(s.board[i], s'.board[i])
    requires s'.board == s.board[i := s'.board[i]] && s'.next == s.next
    ensures AllDescend(s, s', bases)
  {
    forall e | e in s'.board ensures exists e0 :: e0 in s.board && Grown(e0, e) {
      if e in s.board {
        assert Grown(e, e);
      } else {
        assert e == s'.board[i];
      }
    }
  }

  lemma InsertDescends(s: State, rest: seq<ShopEmo>, e: ShopEmo, i: nat, s': State, bases: Bases)
    requires i <= |rest| && s'.board == rest[..i] + [e] + rest[i..] && s'.next == s.next + 1
    requires Newborn(e, s, bases) && forall x :: x in rest ==> x in s.board
    ensures AllDescend(s, s', bases)
  {
    forall x | x in s'.board ensures Descends(x, s, bases) {
      if x in rest {
        assert Grown(x, x);
      } else {
        assert x == e;
      }
    }
  }

  lemma StepDescends(s: State, t: Task, bases: Bases)
    ensures var r := Step(s, t, bases); r.Some? ==> AllDescend(s, r.value.0, bases)
  {
    var r := Step(s, t, bases);
    if r.Some? {
      var s' := r.value.0;
      if !Rewrites(t) {
        StepFrame(s, t, bases);
        SameDescends(s, s', bases);
      } else {
        match t
        case RaiseById(id, _, _) => UpdateDescends(s, s', FindIndex(s.board, id).value, bases);
        case GrantById(id, _) => UpdateDescends(s, s', FindIndex(s.board, id).value, bases);
        case Merge(newId) => MergeDescends(s, newId, bases);
        case Act(action, ptr, isTriple) => SpawnDescends(s, action.baseId, ptr, isTriple, bases);
      }
    }
  }

  lemma MergeDescends(s: State, newId: nat, bases: Bases)
    ensures var r := MergeCopies(s, newId, bases); r.Some? ==> AllDescend(s, r.value.0, bases)
  {
    var r := MergeCopies(s, newId, bases);
    if r.Some? {
      var i := FindIndex(s.board, newId).value;
      var baseId := s.board[i].baseId;
      if |Copies(s.board, baseId)| < 3 {
        SameDescends(s, r.value.0, bases);
      } else {
        var triple := BuildTriple(Copies(s.board, baseId), bases[baseId], s.next).value;
        assert Newborn(triple, s, bases);
        CopiesPartition(s.board, baseId);
        InsertDescends(s, WithoutCopies(s.board, baseId), triple, |WithoutCopies(s.board[..i], baseId)|, r.value.0, bases);
      }
    }
  }

  lemma SpawnDescends(s: State, baseId: U16, ptr: Pointer, isTriple: bool, bases: Bases)
    ensures var r := SpawnEmo(s, baseId, ptr, isTriple, bases); r.Some? ==> AllDescend(s, r.value.0, bases)
  {
    var r := SpawnEmo(s, baseId, ptr, isTriple, bases);
    if r.Some? {
      if |s.board| >= BOARD_EMO_MAX_COUNT {
        SameDescends(s, r.value.0, bases);
      } else {
        var e := ShopEmo(s.next, [], bases[baseId].id, BuildAttributes(bases[baseId], isTriple));
        assert Newborn(e, s, bases);
        InsertDescends(s, s.board, e, NextIndex(s.board, ptr).value, r.value.0, bases);
      }
    }
  }

  // ----- ids, stat floor, cards of the right base -----

  ghost predicate IdsBelow(s: State) { forall e :: e in s.board ==> e.id < s.next }

  /** No emo is weaker than its base, doubled and saturated when it is a triple. */
  ghost predicate AboveFloor(e: ShopEmo, bases: Bases) {
    e.baseId in bases
    && var floor := BuildAttributes(bases[e.baseId], e.attr.isTriple);
       e.attr.attack >= floor.attack && e.attr.health >= floor.health
  }

  /** Every card on an emo is a card of the pool and of that emo's base. */
  ghost predicate FromPool(e: ShopEmo, pool: set<Card>) { forall c :: c in e.cards ==> Card(c, e.baseId) in pool }

  /** Whatever carries `id`, if anything does, is an emo of base `baseId`. */
  ghost predicate BoundTo(s: State, id: nat, baseId: U16) {
    id < s.next && forall e :: e in s.board && e.id == id ==> e.baseId == baseId
  }

  ghost predicate Sound(s: State, bases: Bases, pool: set<Card>) {
    IdsBelow(s) && forall e :: e in s.board ==> AboveFloor(e, bases) && FromPool(e, pool)
  }

  lemma {:induction false} CardSeqMember(emos: seq<ShopEmo>, c: U16)
    ensures c in CardSeq(emos) <==> exists e :: e in emos && c in e.cards
  {
    if emos != [] {
      CardSeqMember(emos[1..], c);
      if c in CardSeq(emos[1..]) {
        var e :| e in emos[1..] && c in e.cards;
        assert e in emos;
      }
      assert emos == [emos[0]] + emos[1..];
    }
  }

  lemma NewbornIsSound(e: ShopEmo, s: State, bases: Bases, pool: set<Card>)
    requires WellFormed(bases) && Newborn(e, s, bases) && forall x :: x in s.board ==> FromPool(x, pool)
    ensures AboveFloor(e, bases) && FromPool(e, pool)
  {
    var baseId :| baseId in bases
      && ((exists isTriple :: e == ShopEmo(s.next, [], bases[baseId].id, BuildAttributes(bases[baseId], isTriple)))
          || BuildTriple(Copies(s.board, baseId), bases[baseId], s.next) == Some(e));
    forall c | c in e.cards ensures Card(c, e.baseId) in pool {
      CardSeqMember(Copies(s.board, baseId), c);
      CopiesPartition(s.board, baseId);
      var x :| x in Copies(s.board, baseId) && c in x.cards;
      assert FromPool(x, pool) && x.baseId == baseId;
    }
  }

  lemma StepKeepsSound(s: State, t: Task, bases: Bases, pool: set<Card>)
    requires WellFormed(bases) && Sound(s, bases, pool)
    ensures var r := Step(s, t, bases); r.Some? ==> Sound(r.value.0, bases, pool)
  {
    var r := Step(s, t, bases);
    if r.Some? {
      var s' := r.value.0;
      StepDescends(s, t, bases);
      forall e | e in s'.board ensures e.id < s'.next && AboveFloor(e, bases) && FromPool(e, pool) {
        if e0 :| e0 in s.board && Grown(e0, e) {
          assert AboveFloor(e0, bases) && FromPool(e0, pool);
        } else {
          NewbornIsSound(e, s, bases, pool);
        }
      }
    }
  }

  lemma RunKeepsSound(ts: seq<Task>, s: State, bases: Bases, pool: set<Card>)
    requires WellFormed(bases) && Sound(s, bases, pool)
    ensures var r := Run(ts, s, bases); r.Some? ==> Sound(r.value, bases, pool)
  {
    var inv := (s1: State) => Sound(s1, bases, pool);
    forall s1, t | inv(s1) && Step(s1, t, bases).Some? ensures inv(Step(s1, t, bases).value.0) {
      StepKeepsSound(s1, t, bases, pool);
    }
    RunKeeps(inv, ts, s, bases);
  }

  lemma StepKeepsBinding(s: State, t: Task, bases: Bases, id: nat, baseId: U16)
    requires IdsBelow(s) && BoundTo(s, id, baseId)
    ensures var r := Step(s, t, bases); r.Some? ==> IdsBelow(r.value.0) && BoundTo(r.value.0, id, baseId)
  {
    StepDescends(s, t, bases);
  }

  lemma RunKeepsBinding(ts: seq<Task>, s: State, bases: Bases, id: nat, baseId: U16)
    requires IdsBelow(s) && BoundTo(s, id, baseId)
    ensures var r := Run(ts, s, bases); r.Some? ==> IdsBelow(r.value) && BoundTo(r.value, id, baseId)
  {
    var inv := (s1: State) => IdsBelow(s1) && BoundTo(s1, id, baseId);
    forall s1, t | inv(s1) && Step(s1, t, bases).Some? ensures inv(Step(s1, t, bases).value.0) {
      StepKeepsBinding(s1, t, bases, id, baseId);
    }
    RunKeeps(inv, ts, s, bases);
  }

  // ----- cards are conserved -----

  /** The cards held by a board, with multiplicity. */
  function Cards(board: seq<ShopEmo>): multiset<U16> { multiset(CardSeq(board)) }

  lemma {:induction false} CardsAppend(a: seq<ShopEmo>, b: seq<ShopEmo>)
    ensures CardSeq(a + b) == CardSeq(a) + CardSeq(b)
  {
    if a == [] {
      assert a + b == b;
    } else {
      assert (a + b)[1..] == a[1..] + b;
      CardsAppend(a[1..], b);
    }
  }

  lemma CardsInsert(board: seq<ShopEmo>, e: ShopEmo, i: nat)
    requires i <= |board|
    ensures Cards(board[..i] + [e] + board[i..]) == Cards(board) + multiset(e.cards)
  {
    CardsAppend(board[..i] + [e], board[i..]);
    CardsAppend(board[..i], [e]);
    CardsAppend(board[..i], board[i..]);
    assert board == board[..i] + board[i..];
    assert CardSeq([e]) == e.cards;
  }

  lemma CardsRemove(board: seq<ShopEmo>, i: nat)
    requires i < |board|
    ensures Cards(board) == Cards(board[..i] + board[i + 1..]) + multiset(board[i].cards)
  {
    var rest := board[..i] + board[i + 1..];
    CardsInsert(rest, board[i], i);
    assert rest[..i] + [board[i]] + rest[i..] == board;
  }

  lemma CardsUpdate(board: seq<ShopEmo>, e: ShopEmo, i: nat)
    requires i < |board| && e.cards == board[i].cards
    ensures Cards(board[i := e]) == Cards(board)
  {
    CardsRemove(board, i);
    CardsRemove(board[i := e], i);
    assert board[i := e][..i] == board[..i] && board[i := e][i + 1..] == board[i + 1..];
  }

  lemma {:induction false} CardsSplit(board: seq<ShopEmo>, baseId: U16)
    ensures Cards(board) == Cards(Copies(board, baseId)) + Cards(WithoutCopies(board, baseId))
  {
    if board != [] {
      CardsSplit(board[1..], baseId);
      CardsAppend(if IsCopy(board[0], baseId) then [board[0]] else [], Copies(board[1..], baseId));
      CardsAppend(if IsCopy(board[0], baseId) then [] else [board[0]], WithoutCopies(board[1..], baseId));
      assert CardSeq([board[0]]) == board[0].cards;
    }
  }

  lemma StepKeepsCards(s: State, t: Task, bases: Bases)
    ensures var r := Step(s, t, bases); r.Some? ==> Cards(r.value.0.board) == Cards(s.board)
  {
    var r := Step(s, t, bases);
    if r.Some? {
      if !Rewrites(t) {
        StepFrame(s, t, bases);
      } else {
        match t
        case RaiseById(id, _, _) =>
          var i := FindIndex(s.board, id).value;
          CardsUpdate(s.board, r.value.0.board[i], i);
        case GrantById(id, _) =>
          var i := FindIndex(s.board, id).value;
          if r.value.0 != s {
            CardsUpdate(s.board, r.value.0.board[i], i);
          }
        case Merge(newId) => MergeKeepsCards(s, newId, bases);
        case Act(action, ptr, isTriple) =>
          if |s.board| < BOARD_EMO_MAX_COUNT {
            var e := ShopEmo(s.next, [], bases[action.baseId].id, BuildAttributes(bases[action.baseId], isTriple));
            CardsInsert(s.board, e, NextIndex(s.board, ptr).value);
          }
      }
    }
  }

  lemma MergeKeepsCards(s: State, newId: nat, bases: Bases)
    ensures var r := MergeCopies(s, newId, bases); r.Some? ==> Cards(r.value.0.board) == Cards(s.board)
  {
    var r := MergeCopies(s, newId, bases);
    if r.Some? {
      var i := FindIndex(s.board, newId).value;
      var baseId := s.board[i].baseId;
      if |Copies(s.board, baseId)| >= 3 {
        var triple := BuildTriple(Copies(s.board, baseId), bases[baseId], s.next).value;
        CardsSplit(s.board, baseId);
        CardsInsert(WithoutCopies(s.board, baseId), triple, |WithoutCopies(s.board[..i], baseId)|);
      }
    }
  }

  /** No card appears or disappears in a cascade, merges included. */
  lemma RunKeepsCards(ts: seq<Task>, s: State, bases: Bases)
    ensures var r := Run(ts, s, bases); r.Some? ==> Cards(r.value.board) == Cards(s.board)
  {
    var inv := (s1: State) => Cards(s1.board) == Cards(s.board);
    forall s1, t | inv(s1) && Step(s1, t, bases).Some? ensures inv(Step(s1, t, bases).value.0) {
      StepKeepsCards(s1, t, bases);
    }
    RunKeeps(inv, ts, s, bases);
  }

  // ----- at most two copies -----

  function CopyUnit(baseId: U16): ShopEmo -> nat { (e: ShopEmo) => if IsCopy(e, baseId) then 1 else 0 }

  function CopyCount(board: seq<ShopEmo>, baseId: U16): nat { Sum(CopyUnit(baseId), board) }

  lemma {:induction false} CopyCountIsCopies(board: seq<ShopEmo>, baseId: U16)
    ensures CopyCount(board, baseId) == |Copies(board, baseId)|
  {
    if board != [] {
      CopyCountIsCopies(board[1..], baseId);
    }
  }

  function AtLeastTwo(n: nat): nat { if n < 2 then 2 else n }

  /** A merge of this base is still to come. */
  ghost predicate MergePending(ts: seq<Task>, s: State, baseId: U16) {
    exists id :: Merge(id) in ts && BoundTo(s, id, baseId)
  }

  lemma {:induction false} CopiesAfterSplit(board: seq<ShopEmo>, merged: U16, baseId: U16)
    ensures CopyCount(WithoutCopies(board, merged), baseId) == if baseId == merged then 0 else CopyCount(board, baseId)
  {
    if board != [] {
      CopiesAfterSplit(board[1..], merged, baseId);
      SumAppend(CopyUnit(baseId), if IsCopy(board[0], merged) then [] else [board[0]], WithoutCopies(board[1..], merged));
    }
  }

  /** A step adds a copy only together with the merge that answers for it. */
  lemma StepCopies(s: State, t: Task, bases: Bases, baseId: U16)
    requires IdsBelow(s)
    ensures var r := Step(s, t, bases);
            r.Some? ==> || CopyCount(r.value.0.board, baseId) <= CopyCount(s.board, baseId)
                        || MergePending(r.value.1, r.value.0, baseId)
    ensures var r := Step(s, t, bases);
            r.Some? && t.Merge? && BoundTo(s, t.newId, baseId) ==> CopyCount(r.value.0.board, baseId) <= 2
  {
    var r := Step(s, t, bases);
    if r.Some? {
      if !Rewrites(t) {
        StepFrame(s, t, bases);
      } else {
        match t
        case RaiseById(id, _, _) =>
          var i := FindIndex(s.board, id).value;
          SumUpdate(CopyUnit(baseId), s.board, r.value.0.board[i], i);
        case GrantById(id, _) =>
          var i := FindIndex(s.board, id).value;
          if r.value.0 != s {
            SumUpdate(CopyUnit(baseId), s.board, r.value.0.board[i], i);
          }
        case Merge(newId) => MergeCopiesCount(s, newId, bases, baseId);
        case Act(action, ptr, isTriple) =>
          if |s.board| < BOARD_EMO_MAX_COUNT {
            InsertNewCount(s, [], action.baseId, isTriple, NextIndex(s.board, ptr).value, bases, baseId);
          }
      }
    }
  }

  lemma InsertNewCount(s: State, cards: seq<U16>, newBaseId: U16, isTriple: bool, index: nat, bases: Bases, baseId: U16)
    requires IdsBelow(s)
    ensures var r := InsertNew(s, cards, newBaseId, isTriple, index, bases);
            r.Some? ==> || CopyCount(r.value.0.board, baseId) == CopyCount(s.board, baseId)
                        || MergePending(r.value.1, r.value.0, baseId)
  {
    var r := InsertNew(s, cards, newBaseId, isTriple, index, bases);
    if r.Some? {
      var e := ShopEmo(s.next, cards, bases[newBaseId].id, BuildAttributes(bases[newBaseId], isTriple));
      SumInsert(CopyUnit(baseId), s.board, e, index);
      if IsCopy(e, baseId) {
        assert r.value.1[|r.value.1| - 1] == Merge(s.next);
        assert BoundTo(r.value.0, s.next, baseId);
      }
    }
  }

  lemma MergeCopiesCount(s: State, newId: nat, bases: Bases, baseId: U16)
    requires IdsBelow(s)
    ensures var r := MergeCopies(s, newId, bases);
            r.Some? ==> && CopyCount(r.value.0.board, baseId) <= CopyCount(s.board, baseId)
                        && (BoundTo(s, newId, baseId) ==> CopyCount(r.value.0.board, baseId) <= 2)
  {
    var r := MergeCopies(s, newId, bases);
    if r.Some? {
      var i := FindIndex(s.board, newId).value;
      var merged := s.board[i].baseId;
      if |Copies(s.board, merged)| >= 3 {
        var triple := BuildTriple(Copies(s.board, merged), bases[merged], s.next).value;
        SumInsert(CopyUnit(baseId), WithoutCopies(s.board, merged), triple, |WithoutCopies(s.board[..i], merged)|);
        CopiesAfterSplit(s.board, merged, baseId);
      } else {
        CopyCountIsCopies(s.board, merged);
      }
    }
  }

  lemma {:induction false} RunCopies(ts: seq<Task>, s: State, bases: Bases, baseId: U16)
    requires IdsBelow(s)
    ensures var r := Run(ts, s, bases);
            r.Some? ==> && CopyCount(r.value.board, baseId) <= AtLeastTwo(CopyCount(s.board, baseId))
                        && (MergePending(ts, s, baseId) ==> CopyCount(r.value.board, baseId) <= 2)
    decreases Potential(s.board), MaxClass(ts), |ts|
  {
    if ts != [] && Run(ts, s, bases).Some? {
      StepShrinks(s, ts[0], bases);
      StepCopies(s, ts[0], bases, baseId);
      var (s1, more) := Step(s, ts[0], bases).value;
      StepDescends(s, ts[0], bases);
      RunCopies(more, s1, bases, baseId);
      var s2 := Run(more, s1, bases).value;
      RunKeepsIds(more, s1, bases);
      RunCopies(ts[1..], s2, bases, baseId);
      if id :| Merge(id) in ts && BoundTo(s, id, baseId) {
        StepKeepsBinding(s, ts[0], bases, id, baseId);
        RunKeepsBinding(more, s1, bases, id, baseId);
        assert ts[0] == Merge(id) || Merge(id) in ts[1..];
      }
    }
  }

  lemma RunKeepsIds(ts: seq<Task>, s: State, bases: Bases)
    requires IdsBelow(s)
    ensures var r := Run(ts, s, bases); r.Some? ==> IdsBelow(r.value)
  {
    var inv := (s1: State) => IdsBelow(s1);
    forall s1, t | inv(s1) && Step(s1, t, bases).Some? ensures inv(Step(s1, t, bases).value.0) {
      StepDescends(s1, t, bases);
    }
    RunKeeps(inv, ts, s, bases);
  }

  lemma AddEmoCopies(s: State, bases: Bases, cards: seq<U16>, newBaseId: U16, isTriple: bool, index: nat, baseId: U16)
    requires IdsBelow(s)
    ensures var r := AddEmo(s, cards, newBaseId, isTriple, index, bases);
            r.Some? ==> CopyCount(r.value.board, baseId) <= AtLeastTwo(CopyCount(s.board, baseId))
  {
    var inserted := InsertNew(s, cards, newBaseId, isTriple, index, bases);
    if inserted.Some? {
      InsertNewCount(s, cards, newBaseId, isTriple, index, bases, baseId);
      assert IdsBelow(inserted.value.0);
      RunCopies(inserted.value.1, inserted.value.0, bases, baseId);
    }
  }

  lemma SellEmoCopies(s: State, bases: Bases, index: nat, baseId: U16)
    requires IdsBelow(s)
    ensures var r := SellEmo(s, index, bases);
            r.Some? ==> CopyCount(r.value.board, baseId) <= AtLeastTwo(CopyCount(s.board, baseId))
  {
    if index < |s.board| {
      var sold := s.board[index];
      var rest := RemoveAt(s, index);
      SumInsert(CopyUnit(baseId), rest.board, sold, index);
      assert rest.board[..index] + [sold] + rest.board[index..] == s.board;
      RunCopies(SelfTasks(PeriOf(sold.attr.abilities), OnSell, Removed(sold, index)), rest, bases, baseId);
    }
  }

  /** After any successful operation a base has no more copies than before, or at most two. */
  lemma AtMostTwoCopies(s: State, bases: Bases, cards: seq<U16>, newBaseId: U16, isTriple: bool, index: nat, baseId: U16)
    requires IdsBelow(s)
    ensures var r := AddEmo(s, cards, newBaseId, isTriple, index, bases);
            r.Some? ==> CopyCount(r.value.board, baseId) <= AtLeastTwo(CopyCount(s.board, baseId))
    ensures var r := SellEmo(s, index, bases);
            r.Some? ==> CopyCount(r.value.board, baseId) <= AtLeastTwo(CopyCount(s.board, baseId))
    ensures var r := StartShop(s, bases);
            r.Some? ==> CopyCount(r.value.board, baseId) <= AtLeastTwo(CopyCount(s.board, baseId))
  {
    AddEmoCopies(s, bases, cards, newBaseId, isTriple, index, baseId);
    SellEmoCopies(s, bases, index, baseId);
    RunCopies(PreTasks(BoardPres(s.board)), s, bases, baseId);
  }

  // ----- what a merge makes -----

  function AttackUnit(e: ShopEmo): nat { e.attr.attack }
  function HealthUnit(e: ShopEmo): nat { e.attr.health }

  lemma OneMoreTime(n: nat, x: nat)
    ensures (n + 1) * x == x + n * x
  {
  }

  /** For sources at or above their base the bonuses are the plain differences. */
  lemma {:induction false} BonusIsDifference(sources: seq<ShopEmo>, base: Base)
    requires forall e :: e in sources ==> e.attr.attack >= base.attack && e.attr.health >= base.health
    ensures AttackBonus(sources, base) + |sources| * base.attack == Sum(AttackUnit, sources)
    ensures HealthBonus(sources, base) + |sources| * base.health == Sum(HealthUnit, sources)
  {
    if sources != [] {
      BonusIsDifference(sources[1..], base);
      OneMoreTime(|sources[1..]|, base.attack);
      OneMoreTime(|sources[1..]|, base.health);
    }
  }

  /** Twice the stat of the base and what every source had above it. */
  function MergedStat(sum: nat, count: nat, each: U16): int { 2 * each + sum - count * each }

  /** The triple that a merge puts on the board has twice the attack of its base and all the attack its sources had above
      it, up to the largest u16, and the same for health; a merge fails when what they had above it does not fit in a u16. */
  lemma MergeBonus(s: State, newId: nat, bases: Bases, pool: set<Card>)
    requires WellFormed(bases) && Sound(s, bases, pool)
    ensures var i, r := FindIndex(s.board, newId), MergeCopies(s, newId, bases);
            i.Some? && |Copies(s.board, s.board[i.value].baseId)| >= 3 ==>
              var baseId := s.board[i.value].baseId;
              var sources, at := Copies(s.board, baseId), |WithoutCopies(s.board[..i.value], baseId)|;
              && baseId in bases
              && var base := bases[baseId];
                 var attack := MergedStat(Sum(AttackUnit, sources), |sources|, base.attack);
                 var health := MergedStat(Sum(HealthUnit, sources), |sources|, base.health);
                 && (attack - 2 * base.attack > U16_MAX || health - 2 * base.health > U16_MAX ==> r.None?)
                 && (r.Some? ==> && at < |r.value.0.board| && attack >= 0 && health >= 0
                                 && var e := r.value.0.board[at];
                                    && e.id == s.next && e.baseId == baseId && e.attr.isTriple
                                    && e.attr.attack == Sat16(attack) && e.attr.health == Sat16(health))
  {
    hide Sum;
    hide AttackBonus;
    hide HealthBonus;
    hide Copies;
    hide WithoutCopies;
    hide ArrivalTasks;
    hide ExtraAbilities;
    hide CardSeq;
    var i := FindIndex(s.board, newId);
    if i.Some? && |Copies(s.board, s.board[i.value].baseId)| >= 3 {
      var baseId := s.board[i.value].baseId;
      var sources := Copies(s.board, baseId);
      assert s.board[i.value] in s.board && AboveFloor(s.board[i.value], bases);
      CopiesPartition(s.board, baseId);
      forall e | e in sources ensures e.attr.attack >= bases[baseId].attack && e.attr.health >= bases[baseId].health {
        assert e in s.board && AboveFloor(e, bases);
      }
      BonusIsDifference(sources, bases[baseId]);
    }
  }

  // ----- ids stay distinct -----

  ghost predicate DistinctIds(board: seq<ShopEmo>) {
    forall i, j :: 0 <= i < j < |board| ==> board[i].id != board[j].id
  }

  ghost predicate Distinct(s: State) { IdsBelow(s) && DistinctIds(s.board) }

  lemma {:induction false} WithoutCopiesDistinct(board: seq<ShopEmo>, baseId: U16)
    requires DistinctIds(board)
    ensures DistinctIds(WithoutCopies(board, baseId))
  {
    if board != [] {
      WithoutCopiesDistinct(board[1..], baseId);
      CopiesPartition(board[1..], baseId);
      var rest := WithoutCopies(board[1..], baseId);
      forall e | e in rest ensures e.id != board[0].id {
        assert e in board[1..];
      }
      assert forall i :: 0 <= i < |rest| ==> rest[i] in rest;
    }
  }

  lemma InsertDistinct(board: seq<ShopEmo>, e: ShopEmo, i: nat)
    requires DistinctIds(board) && i <= |board| && forall x :: x in board ==> x.id != e.id
    ensures DistinctIds(board[..i] + [e] + board[i..])
  {
    assert forall k :: 0 <= k < |board| ==> board[k] in board;
  }

  lemma MergeKeepsDistinct(s: State, newId: nat, bases: Bases)
    requires Distinct(s)
    ensures var r := MergeCopies(s, newId, bases); r.Some? ==> DistinctIds(r.value.0.board)
  {
    var r := MergeCopies(s, newId, bases);
    if r.Some? {
      var i := FindIndex(s.board, newId).value;
      var baseId := s.board[i].baseId;
      if |Copies(s.board, baseId)| >= 3 {
        var triple := BuildTriple(Copies(s.board, baseId), bases[baseId], s.next).value;
        WithoutCopiesDistinct(s.board, baseId);
        CopiesPartition(s.board, baseId);
        InsertDistinct(WithoutCopies(s.board, baseId), triple, |WithoutCopies(s.board[..i], baseId)|);
      }
    }
  }

  lemma StepKeepsDistinct(s: State, t: Task, bases: Bases)
    requires Distinct(s)
    ensures var r := Step(s, t, bases); r.Some? ==> Distinct(r.value.0)
  {
    hide MergeCopies;
    hide Spread;
    hide SpreadAction;
    hide ArrivalTasks;
    var r := Step(s, t, bases);
    if r.Some? {
      StepDescends(s, t, bases);
      if !Rewrites(t) {
        StepFrame(s, t, bases);
      } else {
        match t
        case RaiseById(_, _, _) =>
        case GrantById(_, _) =>
        case Merge(newId) => MergeKeepsDistinct(s, newId, bases);
        case Act(action, ptr, isTriple) =>
          if |s.board| < BOARD_EMO_MAX_COUNT {
            var base := bases[action.baseId];
            InsertDistinct(s.board, ShopEmo(s.next, [], base.id, BuildAttributes(base, isTriple)), NextIndex(s.board, ptr).value);
          }
      }
    }
  }

  lemma RunKeepsDistinct(ts: seq<Task>, s: State, bases: Bases)
    requires Distinct(s)
    ensures var r := Run(ts, s, bases); r.Some? ==> Distinct(r.value)
  {
    var inv := (s1: State) => Distinct(s1);
    forall s1, t | inv(s1) && Step(s1, t, bases).Some? ensures inv(Step(s1, t, bases).value.0) {
      StepKeepsDistinct(s1, t, bases);
    }
    RunKeeps(inv, ts, s, bases);
  }
}
