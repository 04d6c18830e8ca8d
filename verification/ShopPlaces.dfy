/** Where a new emo stands: a bought one at the place asked for, a set one beside the emo that sets it. */
module ShopPlaces {
  import opened Types
  import opened Listing
  import opened Shop
  import opened ShopRun
  import opened ShopLaws
  import opened ShopLog
  import opened ShopReactions
  import opened ShopTargets

  function TwiceIf(isTriple: bool, n: nat): nat { if isTriple then Min(65535, 2 * n) else n }

  /** An emo as it comes out of its base: with twice the stats when it is a triple. */
  function Fresh(base: Base, cards: seq<U16>, isTriple: bool): BoardEmo {
    BoardEmo(cards, base.id, Attributes(TwiceIf(isTriple, base.attack), TwiceIf(isTriple, base.health), base.abilities, isTriple))
  }

  function WithId(id: nat, e: BoardEmo): ShopEmo { ShopEmo(id, e.cards, e.baseId, e.attr) }

  /** The board with a new emo at the place, its log entry, and one id less to give. */
  function Added(s: State, e: BoardEmo, place: nat): State
    requires place <= |s.board|
  {
    s.(board := s.board[..place] + [WithId(s.next, e)] + s.board[place..], next := s.next + 1, logs := s.logs + [Add(place, e)])
  }

  // ----- the log only grows -----

  ghost predicate Extends(logs: seq<Log>, s: State) { |logs| <= |s.logs| && s.logs[..|logs|] == logs }

  lemma OneMoreEntry(logs: seq<Log>, s: State, more: seq<Log>)
    requires Extends(logs, s)
    ensures Extends(logs, s.(logs := s.logs + more))
  {
    assert (s.logs + more)[..|logs|] == s.logs[..|logs|];
  }

  lemma StepExtends(logs: seq<Log>, s: State, t: Task, bases: Bases)
    requires Extends(logs, s)
    ensures var r := Step(s, t, bases); r.Some? ==> Extends(logs, r.value.0)
  {
    var r := Step(s, t, bases);
    if r.Some? {
      var logs' := r.value.0.logs;
      if !Rewrites(t) {
        StepFrame(s, t, bases);
      } else {
        assert |s.logs| <= |logs'| && logs'[..|s.logs|] == s.logs;
        assert logs'[..|logs|] == logs'[..|s.logs|][..|logs|];
      }
    }
  }

  lemma RunExtends(logs: seq<Log>, ts: seq<Task>, s: State, bases: Bases)
    requires Extends(logs, s)
    ensures var r := Run(ts, s, bases); r.Some? ==> Extends(logs, r.value)
  {
    var inv := (s1: State) => Extends(logs, s1);
    forall s1, t | inv(s1) && Step(s1, t, bases).Some? ensures inv(Step(s1, t, bases).value.0) {
      StepExtends(logs, s1, t, bases);
    }
    RunKeeps(inv, ts, s, bases);
  }

  // ----- every new emo -----

  /** An emo is refused on a full board or beyond its end. Any other one that comes in acts by itself, lets the others react, and,
      if it is no triple, may be merged. */
  lemma InsertedActs(s: State, e: ShopEmo, place: nat, bases: Bases) returns (own: seq<Task>)
    requires (forall x :: x in s.board ==> x.id != e.id) && e.baseId in bases
    ensures var r := InsertEmo(s, e, place, bases);
            && (r.Some? <==> place <= |s.board| < 7)
            && (r.Some? ==>
                  && r.value.0 == s.(board := s.board[..place] + [e] + s.board[place..], logs := s.logs + [Add(place, ToBoardEmo(e))])
                  && r.value.1 == own + [AllySweep(e.id, bases[e.baseId].typ, e.attr.isTriple)]
                                  + (if e.attr.isTriple then [] else [Merge(e.id)])
                  && Collects(own, [e.attr.abilities], ByOneself(OnSet, OnBoard(e.id))))
  {
    hide SelfTasks;
    hide PeriOf;
    hide FindIndex;
    own := [];
    if place <= |s.board| < 7 {
      NewIsFound(s, e, place);
      own := SelfTasks(PeriOf(e.attr.abilities), OnSet, OnBoard(e.id));
      SelfTasksCollect(e.attr.abilities, OnSet, OnBoard(e.id));
      var sweep := own + [AllySweep(e.id, bases[e.baseId].typ, e.attr.isTriple)];
      assert sweep + [] == sweep;
    }
  }

  /** An emo of an unknown base is refused too; else it stands at the place asked for. */
  lemma Arrives(s: State, cards: seq<U16>, baseId: U16, isTriple: bool, place: nat, bases: Bases) returns (own: seq<Task>)
    requires IdsBelow(s) && WellFormed(bases)
    ensures var r := InsertNew(s, cards, baseId, isTriple, place, bases);
            && (r.Some? <==> baseId in bases && place <= |s.board| < 7)
            && (r.Some? ==>
                  && r.value.0 == Added(s, Fresh(bases[baseId], cards, isTriple), place)
                  && r.value.1 == own + [AllySweep(s.next, bases[baseId].typ, isTriple)] + (if isTriple then [] else [Merge(s.next)])
                  && Collects(own, [bases[baseId].abilities], ByOneself(OnSet, OnBoard(s.next))))
  {
    hide Collects;
    own := [];
    if baseId in bases && place <= |s.board| < 7 {
      var e := WithId(s.next, Fresh(bases[baseId], cards, isTriple));
      own := InsertedActs(s.(next := s.next + 1), e, place, bases);
      hide InsertEmo;
      assert e == ShopEmo(s.next, cards, bases[baseId].id, BuildAttributes(bases[baseId], isTriple));
    }
  }

  lemma NewIsFound(s: State, e: ShopEmo, place: nat)
    requires (forall x :: x in s.board ==> x.id != e.id) && place <= |s.board|
    ensures FindIndex(s.board[..place] + [e] + s.board[place..], e.id) == Some(place)
    ensures FindEmo(s.board[..place] + [e] + s.board[place..], e.id) == Some(e)
  {
    var board := s.board[..place] + [e] + s.board[place..];
    assert board[place].id == e.id;
    forall j | 0 <= j < |board| && j != place ensures board[j].id != e.id {
      assert board[j] in s.board;
    }
  }

  /** The first thing logged of an accepted purchase is the new emo at the place asked for. */
  lemma AddedWhereAsked(s: State, cards: seq<U16>, baseId: U16, isTriple: bool, place: nat, bases: Bases)
    requires IdsBelow(s) && WellFormed(bases)
    ensures var r := AddEmo(s, cards, baseId, isTriple, place, bases);
            r.Some? ==> && baseId in bases && place <= |s.board| < 7
                        && Extends(s.logs + [Add(place, Fresh(bases[baseId], cards, isTriple))], r.value)
  {
    hide Run;
    hide InsertNew;
    var r := AddEmo(s, cards, baseId, isTriple, place, bases);
    if r.Some? {
      var (s1, ts) := InsertNew(s, cards, baseId, isTriple, place, bases).value;
      var own := Arrives(s, cards, baseId, isTriple, place, bases);
      RunExtends(s1.logs, ts, s1, bases);
    }
  }

  // ----- when nothing reacts -----

  /** The ability reacts to a new emo of this kind. */
  predicate Minds(a: Ability, typ: Typ, isTriple: bool) {
    match a
    case Shop(PeriAbility(AsAlly(cond, _))) => Matched(cond, typ, isTriple)
    case Shop(PeriAbility(AsOneself(OnAllySet(cond), _))) => Matched(cond, typ, isTriple)
    case _ => false
  }

  /** No ability of the board reacts to a new emo of this kind. */
  ghost predicate Indifferent(board: seq<ShopEmo>, typ: Typ, isTriple: bool) {
    forall e, a :: e in board && a in e.attr.abilities ==> !Minds(a, typ, isTriple)
  }

  predicate ActsWhenSet(a: Ability) {
    match a
    case Shop(PeriAbility(AsOneself(OnSet, _))) => true
    case _ => false
  }

  /** The base does nothing when it is set. */
  ghost predicate Passive(base: Base) { forall a :: a in base.abilities ==> !ActsWhenSet(a) }

  lemma NothingCollected(ts: seq<Task>, lists: seq<seq<Ability>>, f: Reaction)
    requires Collects(ts, lists, f)
    ensures ts == [] || exists j, k :: 0 <= j < |lists| && 0 <= k < |lists[j]| && f(j, lists[j][k]).Some?
  {
    var at: seq<Place> :| StandsFor(ts, lists, f, at);
    if ts != [] {
      assert Inside(lists, at[0]) && f(at[0].0, lists[at[0].0][at[0].1]).Some?;
    }
  }

  lemma NobodyReacts(board: seq<ShopEmo>, newId: nat, typ: Typ, isTriple: bool, bases: Bases)
    requires forall e, a :: e in board && e.id != newId && a in e.attr.abilities ==> !Minds(a, typ, isTriple)
    ensures Spread(board, AllySweep(newId, typ, isTriple), bases) == Some([])
  {
    hide Spread;
    OthersReact(board, newId, typ, isTriple, bases);
    hide Collects;
    var lists, f := AbilitiesOf(board), OnNewAlly(board, newId, typ, isTriple);
    NothingCollected(Spread(board, AllySweep(newId, typ, isTriple), bases).value, lists, f);
    forall j, k | 0 <= j < |lists| && 0 <= k < |lists[j]| ensures f(j, lists[j][k]).None? {
      assert board[j] in board && lists[j][k] in board[j].attr.abilities;
      assert board[j].id != newId ==> !Minds(lists[j][k], typ, isTriple);
    }
  }

  lemma DoesNothingWhenSet(own: seq<Task>, base: Base, ptr: Pointer)
    requires Passive(base) && Collects(own, [base.abilities], ByOneself(OnSet, ptr))
    ensures own == []
  {
    hide Collects;
    var f := ByOneself(OnSet, ptr);
    NothingCollected(own, [base.abilities], f);
    forall k | 0 <= k < |base.abilities| ensures f(0, base.abilities[k]).None? {
      assert !ActsWhenSet(base.abilities[k]);
    }
  }

  lemma {:induction false} CopiesInsert(board: seq<ShopEmo>, e: ShopEmo, place: nat, baseId: U16)
    requires place <= |board|
    ensures |Copies(board[..place] + [e] + board[place..], baseId)| == |Copies(board, baseId)| + if IsCopy(e, baseId) then 1 else 0
  {
    SumInsert(CopyUnit(baseId), board, e, place);
    CopyCountIsCopies(board, baseId);
    CopyCountIsCopies(board[..place] + [e] + board[place..], baseId);
  }

  lemma FewAreNotMerged(s: State, e: BoardEmo, place: nat, bases: Bases)
    requires IdsBelow(s) && place <= |s.board| && |Copies(s.board, e.baseId)| <= 1
    ensures Step(Added(s, e, place), Merge(s.next), bases) == Some((Added(s, e, place), []))
  {
    NewIsFound(s, WithId(s.next, e), place);
    CopiesInsert(s.board, WithId(s.next, e), place, e.baseId);
  }

  lemma QuietSweep(s: State, base: Base, cards: seq<U16>, isTriple: bool, place: nat, bases: Bases)
    requires IdsBelow(s) && place <= |s.board| && Indifferent(s.board, base.typ, isTriple)
    ensures var s' := Added(s, Fresh(base, cards, isTriple), place); Step(s', AllySweep(s.next, base.typ, isTriple), bases) == Some((s', []))
  {
    var s' := Added(s, Fresh(base, cards, isTriple), place);
    assert forall e :: e in s'.board && e.id != s.next ==> e in s.board;
    NobodyReacts(s'.board, s.next, base.typ, isTriple, bases);
  }

  /** Where no ability reacts and nothing is merged, a new emo changes nothing else: it stands at the place asked for, and
      everyone from there on one place further right. */
  lemma QuietAdd(s: State, cards: seq<U16>, baseId: U16, isTriple: bool, place: nat, bases: Bases)
    requires IdsBelow(s) && WellFormed(bases) && baseId in bases
    requires Passive(bases[baseId]) && Indifferent(s.board, bases[baseId].typ, isTriple)
    requires isTriple || |Copies(s.board, baseId)| <= 1
    ensures AddEmo(s, cards, baseId, isTriple, place, bases)
         == if place <= |s.board| < 7 then Some(Added(s, Fresh(bases[baseId], cards, isTriple), place)) else None
  {
    hide Step;
    hide InsertNew;
    hide Indifferent;
    hide Collects;
    hide Copies;
    var own := Arrives(s, cards, baseId, isTriple, place, bases);
    if place <= |s.board| < 7 {
      var base, e := bases[baseId], Fresh(bases[baseId], cards, isTriple);
      var s' := Added(s, e, place);
      DoesNothingWhenSet(own, base, OnBoard(s.next));
      QuietSweep(s, base, cards, isTriple, place, bases);
      var ts := own + [AllySweep(s.next, base.typ, isTriple)] + (if isTriple then [] else [Merge(s.next)]);
      assert ts == [AllySweep(s.next, base.typ, isTriple)] + (if isTriple then [] else [Merge(s.next)]);
      if !isTriple {
        FewAreNotMerged(s, e, place, bases);
        RunOne(Merge(s.next), s', bases);
      }
      assert ts[1..] == if isTriple then [] else [Merge(s.next)];
      RunFirst(ts, s', bases);
      RunOne(ts[0], s', bases);
    }
  }

  lemma AddedIsStripped(s: State, e: BoardEmo, place: nat)
    requires place <= |s.board|
    ensures Strip(Added(s, e, place).board) == Strip(s.board)[..place] + [e] + Strip(s.board)[place..]
  {
  }

  /** Told without ids. */
  lemma QuietAddOnBoard(s: State, cards: seq<U16>, baseId: U16, isTriple: bool, place: nat, bases: Bases)
    requires IdsBelow(s) && WellFormed(bases) && baseId in bases && place <= |s.board| < 7
    requires Passive(bases[baseId]) && Indifferent(s.board, bases[baseId].typ, isTriple)
    requires isTriple || |Copies(s.board, baseId)| <= 1
    ensures var r, board := AddEmo(s, cards, baseId, isTriple, place, bases), Strip(s.board);
            r.Some? && Strip(r.value.board) == board[..place] + [Fresh(bases[baseId], cards, isTriple)] + board[place..]
  {
    hide AddEmo;
    hide Strip;
    hide Added;
    QuietAdd(s, cards, baseId, isTriple, place, bases);
    AddedIsStripped(s, Fresh(bases[baseId], cards, isTriple), place);
  }

  // ----- set by another emo -----

  /** One past the emo that sets it, or where the emo stood that was sold. */
  ghost predicate IsPlaceFor(board: seq<ShopEmo>, ptr: Pointer, place: nat) {
    match ptr
    case OnBoard(id) => 0 < place <= |board| && board[place - 1].id == id
    case Removed(_, prevIndex) => place == prevIndex
  }

  lemma PlaceIsFound(board: seq<ShopEmo>, ptr: Pointer, place: nat)
    requires DistinctIds(board) && IsPlaceFor(board, ptr, place)
    ensures NextIndex(board, ptr) == Some(place)
  {
    if ptr.OnBoard? {
      FoundWhereItIs(board, place - 1);
    }
  }

  /** An emo that is set comes from no card, is a triple when the action is one, and is dropped by a full board. */
  lemma SetStands(s: State, baseId: U16, ptr: Pointer, isTriple: bool, place: nat, bases: Bases)
    requires Distinct(s) && WellFormed(bases) && IsPlaceFor(s.board, ptr, place)
    ensures Run([Act(SetEmo(baseId), ptr, isTriple)], s, bases)
         == if |s.board| >= 7 then Some(s) else AddEmo(s, [], baseId, isTriple, place, bases)
  {
    PlaceIsFound(s.board, ptr, place);
    RunOne(Act(SetEmo(baseId), ptr, isTriple), s, bases);
  }

  lemma SetWhereItBelongs(s: State, baseId: U16, ptr: Pointer, isTriple: bool, place: nat, bases: Bases)
    requires Distinct(s) && WellFormed(bases) && IsPlaceFor(s.board, ptr, place) && |s.board| < 7
    ensures var r := Run([Act(SetEmo(baseId), ptr, isTriple)], s, bases);
            r.Some? ==> && baseId in bases && place <= |s.board|
                        && Extends(s.logs + [Add(place, Fresh(bases[baseId], [], isTriple))], r.value)
  {
    SetStands(s, baseId, ptr, isTriple, place, bases);
    AddedWhereAsked(s, [], baseId, isTriple, place, bases);
  }

  /** Where no ability reacts and nothing is merged. */
  lemma QuietSet(s: State, baseId: U16, ptr: Pointer, isTriple: bool, place: nat, bases: Bases)
    requires Distinct(s) && WellFormed(bases) && baseId in bases && IsPlaceFor(s.board, ptr, place) && place <= |s.board| < 7
    requires Passive(bases[baseId]) && Indifferent(s.board, bases[baseId].typ, isTriple)
    requires isTriple || |Copies(s.board, baseId)| <= 1
    ensures var r, board := Run([Act(SetEmo(baseId), ptr, isTriple)], s, bases), Strip(s.board);
            r.Some? && Strip(r.value.board) == board[..place] + [Fresh(bases[baseId], [], isTriple)] + board[place..]
  {
    SetStands(s, baseId, ptr, isTriple, place, bases);
    QuietAddOnBoard(s, [], baseId, isTriple, place, bases);
  }
}
