/** The shop hands out only abilities that the table's abilities name: over a table whose battle abilities, granted ones
    included, are all of one kind, every board that leaves the shop carries battle abilities of that kind only. */
module ShopMild {
  import opened Types
  import opened Rng
  import opened Shop
  import opened ShopRun

  // ----- abilities all the way down -----

  type Kind = BattleAbility -> bool

  /** A battle ability is of the kind; a shop ability grants only abilities that are mild again. */
  predicate MildAbility(a: Ability, kind: Kind)
    decreases a
  {
    match a
    case Battle(b) => kind(b)
    case Shop(PreAbility(Normal(action))) => MildAction(action, kind)
    case Shop(PeriAbility(AsOneself(_, action))) => MildAction(action, kind)
    case Shop(PeriAbility(AsAlly(_, OneselfTripleNormal(action)))) => MildAction(action, kind)
    case _ => true
  }

  predicate MildAction(action: ShopAction, kind: Kind)
    decreases action
  {
    action.AddAbility? ==> MildAbility(action.ability, kind)
  }

  predicate MildPeri(p: Peri, kind: Kind) { MildAbility(Ability.Shop(PeriAbility(p)), kind) }
  predicate MildPre(p: Pre, kind: Kind) { MildAbility(Ability.Shop(PreAbility(p)), kind) }

  ghost predicate MildList(abilities: seq<Ability>, kind: Kind) { forall a :: a in abilities ==> MildAbility(a, kind) }

  ghost predicate MildTable(bases: Bases, kind: Kind) { forall id :: id in bases ==> MildList(bases[id].abilities, kind) }

  ghost predicate MildEmo(e: ShopEmo, kind: Kind) { MildList(e.attr.abilities, kind) }

  ghost predicate MildEmos(board: seq<ShopEmo>, kind: Kind) { forall e :: e in board ==> MildEmo(e, kind) }

  ghost predicate MildPointer(ptr: Pointer, kind: Kind) { ptr.Removed? ==> MildEmo(ptr.emo, kind) }

  ghost predicate MildTask(t: Task, kind: Kind) {
    match t
    case Act(action, ptr, _) => MildAction(action, kind) && MildPointer(ptr, kind)
    case ActAsOneself(action, ptr) => MildAction(action, kind) && MildPointer(ptr, kind)
    case ActAsAlly(OneselfTripleNormal(action), _, ptr) => MildAction(action, kind) && MildPointer(ptr, kind)
    case ActAsAlly(TriggerSetActions, _, ptr) => MildPointer(ptr, kind)
    case GrantById(_, ability) => MildAbility(ability, kind)
    case _ => true
  }

  ghost predicate MildTasks(ts: seq<Task>, kind: Kind) { forall t :: t in ts ==> MildTask(t, kind) }

  // ----- the lists of tasks -----

  lemma {:induction false} PeriOfMild(abilities: seq<Ability>, kind: Kind)
    requires MildList(abilities, kind)
    ensures forall p :: p in PeriOf(abilities) ==> MildPeri(p, kind)
    ensures forall p :: p in PreOf(abilities) ==> MildPre(p, kind)
  {
    if abilities != [] {
      assert abilities[0] in abilities;
      PeriOfMild(abilities[1..], kind);
    }
  }

  lemma {:induction false} SelfTasksMild(peris: seq<Peri>, trigger: SelfTrigger, ptr: Pointer, isTriple: bool, twice: bool, kind: Kind)
    requires (forall p :: p in peris ==> MildPeri(p, kind)) && MildPointer(ptr, kind)
    ensures MildTasks(SelfTasks(peris, trigger, ptr), kind) && MildTasks(SetActionTasks(peris, ptr, isTriple, twice), kind)
  {
    if peris != [] {
      assert peris[0] in peris;
      SelfTasksMild(peris[1..], trigger, ptr, isTriple, twice, kind);
    }
  }

  lemma {:induction false} OwnedMild(peris: seq<Peri>, pres: seq<Pre>, id: nat, kind: Kind)
    requires (forall p :: p in peris ==> MildPeri(p, kind)) && forall p :: p in pres ==> MildPre(p, kind)
    ensures (forall x :: x in Owned(peris, id) ==> MildPeri(x.1, kind)) && forall x :: x in Owned(pres, id) ==> MildPre(x.1, kind)
    decreases |peris| + |pres|
  {
    if peris != [] {
      OwnedMild(peris[1..], pres, id, kind);
    } else if pres != [] {
      OwnedMild(peris, pres[1..], id, kind);
    }
  }

  lemma {:induction false} BoardPerisMild(board: seq<ShopEmo>, kind: Kind)
    requires MildEmos(board, kind)
    ensures forall x :: x in BoardPeris(board) ==> MildPeri(x.1, kind)
    ensures forall x :: x in BoardPres(board) ==> MildPre(x.1, kind)
  {
    if board != [] {
      assert board[0] in board;
      PeriOfMild(board[0].attr.abilities, kind);
      OwnedMild(PeriOf(board[0].attr.abilities), PreOf(board[0].attr.abilities), board[0].id, kind);
      BoardPerisMild(board[1..], kind);
    }
  }

  lemma {:induction false} SweepTasksMild(peris: seq<(nat, Peri)>, newId: nat, typ: Typ, isNewTriple: bool, kind: Kind)
    requires forall x :: x in peris ==> MildPeri(x.1, kind)
    ensures MildTasks(SweepTasks(peris, newId, typ, isNewTriple), kind)
  {
    if peris != [] {
      assert peris[0] in peris;
      SweepTasksMild(peris[1..], newId, typ, isNewTriple, kind);
      assert MildTasks(SweepTask(peris[0].1, peris[0].0, newId, typ, isNewTriple), kind);
    }
  }

  lemma {:induction false} PreTasksMild(pres: seq<(nat, Pre)>, kind: Kind)
    requires forall x :: x in pres ==> MildPre(x.1, kind)
    ensures MildTasks(PreTasks(pres), kind)
  {
    if pres != [] {
      assert pres[0] in pres;
      PreTasksMild(pres[1..], kind);
    }
  }

  lemma {:induction false} RaiseTasksMild(ids: seq<nat>, attack: U16, health: U16, kind: Kind)
    ensures MildTasks(RaiseTasks(ids, attack, health), kind)
  {
    if ids != [] {
      RaiseTasksMild(ids[1..], attack, health, kind);
    }
  }

  lemma {:induction false} GrantTasksMild(ids: seq<nat>, ability: Ability, kind: Kind)
    requires MildAbility(ability, kind)
    ensures MildTasks(GrantTasks(ids, ability), kind)
  {
    if ids != [] {
      GrantTasksMild(ids[1..], ability, kind);
    }
  }

  // ----- the emos -----

  lemma {:induction false} NotInMild(abilities: seq<Ability>, known: seq<Ability>, kind: Kind)
    requires MildList(abilities, kind)
    ensures MildList(NotIn(abilities, known), kind)
  {
    if abilities != [] {
      assert abilities[0] in abilities;
      NotInMild(abilities[1..], known, kind);
    }
  }

  lemma {:induction false} ExtraAbilitiesMild(sources: seq<ShopEmo>, known: seq<Ability>, kind: Kind)
    requires MildEmos(sources, kind)
    ensures MildList(ExtraAbilities(sources, known), kind)
  {
    if sources != [] {
      assert sources[0] in sources;
      NotInMild(sources[0].attr.abilities, known, kind);
      ExtraAbilitiesMild(sources[1..], known, kind);
    }
  }

  lemma {:induction false} CopiesMild(board: seq<ShopEmo>, baseId: U16, kind: Kind)
    requires MildEmos(board, kind)
    ensures MildEmos(Copies(board, baseId), kind) && MildEmos(WithoutCopies(board, baseId), kind)
  {
    if board != [] {
      assert board[0] in board;
      CopiesMild(board[1..], baseId, kind);
    }
  }

  lemma PutMild(board: seq<ShopEmo>, i: nat, e: ShopEmo, kind: Kind)
    requires MildEmos(board, kind) && i < |board| && MildEmo(e, kind)
    ensures MildEmos(board[i := e], kind)
  {
  }

  lemma GrantedMild(abilities: seq<Ability>, a: Ability, kind: Kind)
    requires MildList(abilities, kind) && MildAbility(a, kind)
    ensures MildList(abilities + [a], kind)
  {
  }

  // ----- the steps -----

  ghost predicate MildResult(r: Option<(State, seq<Task>)>, kind: Kind) {
    r.Some? ==> MildEmos(r.value.0.board, kind) && MildTasks(r.value.1, kind)
  }

  lemma PointedMild(board: seq<ShopEmo>, ptr: Pointer, kind: Kind)
    requires MildEmos(board, kind) && MildPointer(ptr, kind)
    ensures var e := PointedEmo(board, ptr); e.Some? ==> MildEmo(e.value, kind)
  {
  }

  lemma InsertMild(s: State, emo: ShopEmo, index: nat, bases: Bases, kind: Kind)
    requires MildEmos(s.board, kind) && MildEmo(emo, kind)
    ensures MildResult(InsertEmo(s, emo, index, bases), kind)
  {
    hide MildEmo;
    hide MildTask;
    var r := InsertEmo(s, emo, index, bases);
    if r.Some? {
      var board := r.value.0.board;
      assert forall e :: e in board ==> e == emo || e in s.board;
      AdditionMild(board, emo.id, bases, kind);
      assert MildTask(Merge(emo.id), kind) by {
        MergeIsMild(emo.id, kind);
      }
    }
  }

  lemma MergeIsMild(id: nat, kind: Kind)
    ensures MildTask(Merge(id), kind)
  {
  }

  lemma AdditionMild(board: seq<ShopEmo>, newId: nat, bases: Bases, kind: Kind)
    requires MildEmos(board, kind)
    ensures var ts := AdditionTasks(board, newId, bases); ts.Some? ==> MildTasks(ts.value, kind)
  {
    var added := FindEmo(board, newId);
    if added.Some? {
      PeriOfMild(added.value.attr.abilities, kind);
      SelfTasksMild(PeriOf(added.value.attr.abilities), OnSet, OnBoard(newId), false, false, kind);
    }
  }

  lemma SpawnMild(s: State, baseId: U16, ptr: Pointer, isTriple: bool, bases: Bases, kind: Kind)
    requires MildEmos(s.board, kind) && MildTable(bases, kind)
    ensures MildResult(SpawnEmo(s, baseId, ptr, isTriple, bases), kind)
  {
    hide InsertEmo;
    hide MildTask;
    if |s.board| < BOARD_EMO_MAX_COUNT && NextIndex(s.board, ptr).Some? && baseId in bases {
      var base := bases[baseId];
      InsertMild(s.(next := s.next + 1), ShopEmo(s.next, [], base.id, BuildAttributes(base, isTriple)),
                 NextIndex(s.board, ptr).value, bases, kind);
    }
  }

  lemma MergeMild(s: State, newId: nat, bases: Bases, kind: Kind)
    requires MildEmos(s.board, kind) && MildTable(bases, kind)
    ensures MildResult(MergeCopies(s, newId, bases), kind)
  {
    hide InsertEmo;
    hide MildTask;
    hide MildEmo;
    var i := FindIndex(s.board, newId);
    if i.Some? {
      var baseId := s.board[i.value].baseId;
      CopiesMild(s.board, baseId, kind);
      if baseId in bases {
        var triple := BuildTriple(Copies(s.board, baseId), bases[baseId], s.next);
        if triple.Some? {
          TripleMild(Copies(s.board, baseId), bases[baseId], s.next, kind);
          InsertMild(s.(board := WithoutCopies(s.board, baseId), next := s.next + 1, earned := s.earned + TRIPLE_REWARD_COIN,
                        logs := s.logs + [Triple(CopyIndexes(s.board, baseId, 0))]),
                     triple.value, |WithoutCopies(s.board[..i.value], baseId)|, bases, kind);
        }
      }
    }
  }

  lemma TripleMild(sources: seq<ShopEmo>, base: Base, id: nat, kind: Kind)
    requires MildEmos(sources, kind) && MildList(base.abilities, kind)
    ensures var e := BuildTriple(sources, base, id); e.Some? ==> MildEmo(e.value, kind)
  {
    ExtraAbilitiesMild(sources, base.abilities, kind);
  }

  lemma SpreadActionMild(board: seq<ShopEmo>, action: ShopAction, ptr: Pointer, isTriple: bool, bases: Bases, kind: Kind)
    requires !action.SetEmo? && !action.GetCoin? && !action.GetCoinByEmoCountDiv? && MildAction(action, kind)
    ensures var ts := SpreadAction(board, action, ptr, isTriple, bases); ts.Some? ==> MildTasks(ts.value, kind)
  {
    hide MildTask;
    hide TargetIds;
    hide AdjacentIds;
    forall ids, a: U16, h: U16 ensures MildTasks(RaiseTasks(ids, a, h), kind) {
      RaiseTasksMild(ids, a, h, kind);
    }
    if action.AddAbility? {
      forall ids ensures MildTasks(GrantTasks(ids, action.ability), kind) {
        GrantTasksMild(ids, action.ability, kind);
      }
    }
  }

  lemma SpreadMild(board: seq<ShopEmo>, t: Task, bases: Bases, kind: Kind)
    requires (t.ActAsOneself? || t.ActAsAlly? || t.AllySweep?) && MildEmos(board, kind) && MildTask(t, kind)
    ensures var ts := Spread(board, t, bases); ts.Some? ==> MildTasks(ts.value, kind)
  {
    match t
    case AllySweep(newId, typ, isNewTriple) =>
      BoardPerisMild(board, kind);
      SweepTasksMild(BoardPeris(board), newId, typ, isNewTriple, kind);
    case ActAsAlly(TriggerSetActions, onesId, ptr) =>
      var ally := PointedEmo(board, ptr);
      if ally.Some? && FindEmo(board, onesId).Some? {
        PointedMild(board, ptr, kind);
        PeriOfMild(ally.value.attr.abilities, kind);
        SelfTasksMild(PeriOf(ally.value.attr.abilities), OnSet, ptr, ally.value.attr.isTriple,
                      FindEmo(board, onesId).value.attr.isTriple, kind);
      }
    case _ =>
  }

  lemma StepMild(s: State, t: Task, bases: Bases, kind: Kind)
    requires MildTable(bases, kind) && MildEmos(s.board, kind) && MildTask(t, kind)
    ensures MildResult(Step(s, t, bases), kind)
  {
    hide SpawnEmo;
    hide MergeCopies;
    hide SpreadAction;
    hide Spread;
    match t
    case RaiseById(id, _, _) =>
      var i := FindIndex(s.board, id);
      if i.Some? {
        assert s.board[i.value] in s.board;
        PutMild(s.board, i.value, Step(s, t, bases).value.0.board[i.value], kind);
      }
    case GrantById(id, ability) =>
      var i := FindIndex(s.board, id);
      if i.Some? {
        assert s.board[i.value] in s.board;
        GrantedMild(s.board[i.value].attr.abilities, ability, kind);
      }
    case Merge(newId) => MergeMild(s, newId, bases, kind);
    case Act(action, ptr, isTriple) =>
      match action {
        case SetEmo(baseId) => SpawnMild(s, baseId, ptr, isTriple, bases, kind);
        case GetCoin(_) =>
        case GetCoinByEmoCountDiv(_, _) =>
        case _ => SpreadActionMild(s.board, action, ptr, isTriple, bases, kind);
      }
    case Menagerie(actionId, typCount, a, h) =>
      var r := ServeMenagerie(s, actionId, typCount, a, h, bases);
      if r.Some? {
        var isTriple := FindEmo(s.board, actionId).value.attr.isTriple;
        RaiseTasksMild(MenagerieIds(s.board, Shuffle(Ids(s.board), s.tape), actionId, [], typCount, bases).value,
                       DoubleIf(isTriple, a), DoubleIf(isTriple, h), kind);
      }
    case _ => SpreadMild(s.board, t, bases, kind);
  }

  /** A cascade of mild tasks on a mild board leaves a mild board. */
  lemma {:induction false} RunMild(ts: seq<Task>, s: State, bases: Bases, kind: Kind)
    requires MildTable(bases, kind) && MildEmos(s.board, kind) && MildTasks(ts, kind)
    ensures var r := Run(ts, s, bases); r.Some? ==> MildEmos(r.value.board, kind)
    decreases Potential(s.board), MaxClass(ts), |ts|
  {
    hide Step;
    hide MildEmos;
    hide MildTask;
    hide MildTable;
    if ts != [] && Run(ts, s, bases).Some? {
      StepShrinks(s, ts[0], bases);
      StepMild(s, ts[0], bases, kind);
      var (s1, more) := Step(s, ts[0], bases).value;
      RunMild(more, s1, bases, kind);
      var s2 := Run(more, s1, bases).value;
      RunMild(ts[1..], s2, bases, kind);
    }
  }

  // ----- the operations -----

  lemma AddMild(s: State, cards: seq<U16>, baseId: U16, isTriple: bool, index: nat, bases: Bases, kind: Kind)
    requires MildTable(bases, kind) && MildEmos(s.board, kind)
    ensures var r := AddEmo(s, cards, baseId, isTriple, index, bases); r.Some? ==> MildEmos(r.value.board, kind)
  {
    hide Run;
    hide InsertEmo;
    if baseId in bases {
      var base := bases[baseId];
      var emo := ShopEmo(s.next, cards, base.id, BuildAttributes(base, isTriple));
      InsertMild(s.(next := s.next + 1), emo, index, bases, kind);
      var r := InsertEmo(s.(next := s.next + 1), emo, index, bases);
      if r.Some? {
        RunMild(r.value.1, r.value.0, bases, kind);
      }
    }
  }

  lemma SellMild(s: State, index: nat, bases: Bases, kind: Kind)
    requires MildTable(bases, kind) && MildEmos(s.board, kind)
    ensures var r := SellEmo(s, index, bases); r.Some? ==> MildEmos(r.value.board, kind)
  {
    hide Run;
    if index < |s.board| {
      var sold := s.board[index];
      assert sold in s.board;
      PeriOfMild(sold.attr.abilities, kind);
      SelfTasksMild(PeriOf(sold.attr.abilities), OnSell, Removed(sold, index), false, false, kind);
      assert forall e :: e in RemoveAt(s, index).board ==> e in s.board;
      RunMild(SelfTasks(PeriOf(sold.attr.abilities), OnSell, Removed(sold, index)), RemoveAt(s, index), bases, kind);
    }
  }

  lemma StartMild(s: State, bases: Bases, kind: Kind)
    requires MildTable(bases, kind) && MildEmos(s.board, kind)
    ensures var r := StartShop(s, bases); r.Some? ==> MildEmos(r.value.board, kind)
  {
    hide Run;
    BoardPerisMild(s.board, kind);
    PreTasksMild(BoardPres(s.board), kind);
    RunMild(PreTasks(BoardPres(s.board)), s, bases, kind);
  }
}
