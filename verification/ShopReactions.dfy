/** Who reacts in the shop: for every event exactly the abilities that name it, one task each, from the left of the board to
    the right and on each emo in the order of its abilities. */
module ShopReactions {
  import opened Types
  import opened Listing
  import opened Shop
  import opened ShopRun
  import opened ShopLaws
  import opened ShopTargets

  function AbilitiesOf(board: seq<ShopEmo>): seq<seq<Ability>> {
    seq(|board|, j requires 0 <= j < |board| => board[j].attr.abilities)
  }

  // ----- what an ability of the emo at `j` does -----

  type Reaction = (nat, Ability) -> Option<Task>

  /** The emo's own abilities with this trigger. */
  function ByOneself(trigger: SelfTrigger, ptr: Pointer): Reaction {
    (j: nat, a: Ability) =>
      match a {
        case Shop(PeriAbility(AsOneself(t, action))) => if t == trigger then Some(ActAsOneself(action, ptr)) else None
        case _ => None
      }
  }

  /** An emo was set: every other emo acts by itself, or through the new one. */
  function OnNewAlly(board: seq<ShopEmo>, newId: nat, typ: Typ, isTriple: bool): Reaction {
    (j: nat, a: Ability) =>
      if j >= |board| || board[j].id == newId then None
      else match a {
        case Shop(PeriAbility(AsAlly(cond, action))) =>
          if Matched(cond, typ, isTriple) then Some(ActAsAlly(action, board[j].id, OnBoard(newId))) else None
        case Shop(PeriAbility(AsOneself(OnAllySet(cond), action))) =>
          if Matched(cond, typ, isTriple) then Some(ActAsOneself(action, OnBoard(board[j].id))) else None
        case _ => None
      }
  }

  /** The actions that an emo takes when it is set, taken again. */
  function SetActionAgain(ptr: Pointer, isTriple: bool): Reaction {
    (j: nat, a: Ability) =>
      match a {
        case Shop(PeriAbility(AsOneself(OnSet, action))) => Some(Act(action, ptr, isTriple))
        case _ => None
      }
  }

  /** At the start of a visit. */
  function AtStart(board: seq<ShopEmo>): Reaction {
    (j: nat, a: Ability) =>
      if j >= |board| then None
      else match a {
        case Shop(PreAbility(Normal(action))) => Some(ActAsOneself(action, OnBoard(board[j].id)))
        case Shop(PreAbility(IncreaseStatsOfMenagerie(count, attack, health))) => Some(Menagerie(board[j].id, count, attack, health))
        case _ => None
      }
  }

  // ----- the abilities of one emo -----

  lemma {:induction false} SelfTasksAreRow(abilities: seq<Ability>, k: nat, trigger: SelfTrigger, ptr: Pointer)
    requires k <= |abilities|
    ensures SelfTasks(PeriOf(abilities[k..]), trigger, ptr) == Row(abilities, k, 0, ByOneself(trigger, ptr))
    decreases |abilities| - k
  {
    if k < |abilities| {
      SelfTasksAreRow(abilities, k + 1, trigger, ptr);
      PeriFirst(abilities, k);
    }
  }

  lemma PeriFirst(abilities: seq<Ability>, k: nat)
    requires k < |abilities|
    ensures var a, more := abilities[k], PeriOf(abilities[k + 1..]);
            PeriOf(abilities[k..]) == (if a.Shop? && a.shop.PeriAbility? then [a.shop.peri] + more else more)
    ensures var a, more := abilities[k], PeriOf(abilities[k + 1..]);
            a.Shop? && a.shop.PeriAbility? ==> ([a.shop.peri] + more)[1..] == more
  {
    assert abilities[k..][1..] == abilities[k + 1..];
    assert [] + PeriOf(abilities[k + 1..]) == PeriOf(abilities[k + 1..]);
  }

  lemma SelfTasksCollect(abilities: seq<Ability>, trigger: SelfTrigger, ptr: Pointer)
    ensures Collects(SelfTasks(PeriOf(abilities), trigger, ptr), [abilities], ByOneself(trigger, ptr))
  {
    assert abilities[0..] == abilities;
    SelfTasksAreRow(abilities, 0, trigger, ptr);
    OneRow(abilities, ByOneself(trigger, ptr));
  }

  lemma OneRow(abilities: seq<Ability>, f: Reaction)
    ensures Collects(Row(abilities, 0, 0, f), [abilities], f)
  {
    assert Collect([abilities], 1, f) == [];
    assert Collect([abilities], 0, f) == Row(abilities, 0, 0, f);
    CollectCollects([abilities], f);
  }

  lemma {:induction false} SetActionsAreRow(abilities: seq<Ability>, k: nat, ptr: Pointer, isTriple: bool)
    requires k <= |abilities|
    ensures SetActionTasks(PeriOf(abilities[k..]), ptr, isTriple, false) == Row(abilities, k, 0, SetActionAgain(ptr, isTriple))
    decreases |abilities| - k
  {
    if k < |abilities| {
      SetActionsAreRow(abilities, k + 1, ptr, isTriple);
      PeriFirst(abilities, k);
    }
  }

  /** Every task twice in a row. */
  function Doubled(ts: seq<Task>): seq<Task> { if ts == [] then [] else [ts[0], ts[0]] + Doubled(ts[1..]) }

  lemma {:induction false} TwiceIsDoubled(peris: seq<Peri>, ptr: Pointer, isTriple: bool)
    ensures SetActionTasks(peris, ptr, isTriple, true) == Doubled(SetActionTasks(peris, ptr, isTriple, false))
  {
    if peris != [] {
      TwiceIsDoubled(peris[1..], ptr, isTriple);
      var once := SetActionTasks(peris[1..], ptr, isTriple, false);
      if peris[0].AsOneself? && peris[0].trigger.OnSet? {
        var t := Act(peris[0].action, ptr, isTriple);
        assert ([t] + once)[1..] == once;
      } else {
        assert [] + once == once;
      }
    }
  }

  /** An ally that repeats set actions performs those of the new emo, each twice when it is a triple itself. */
  lemma RepeatedSetActions(board: seq<ShopEmo>, owner: nat, i: nat, bases: Bases) returns (own: seq<Task>)
    requires DistinctIds(board) && owner < |board| && i < |board|
    ensures Spread(board, ActAsAlly(TriggerSetActions, board[owner].id, OnBoard(board[i].id)), bases)
         == Some(if board[owner].attr.isTriple then Doubled(own) else own)
    ensures Collects(own, [board[i].attr.abilities], SetActionAgain(OnBoard(board[i].id), board[i].attr.isTriple))
  {
    hide SetActionTasks;
    hide PeriOf;
    var abilities, ptr, isTriple := board[i].attr.abilities, Pointer.OnBoard(board[i].id), board[i].attr.isTriple;
    FoundWhereItIs(board, owner);
    FoundWhereItIs(board, i);
    own := SetActionTasks(PeriOf(abilities), ptr, isTriple, false);
    assert abilities[0..] == abilities;
    SetActionsAreRow(abilities, 0, ptr, isTriple);
    OneRow(abilities, SetActionAgain(ptr, isTriple));
    TwiceIsDoubled(PeriOf(abilities), ptr, isTriple);
  }

  /** The other kind of ally ability acts through the new emo, with the flag of its owner; what an emo does by itself it does
      with its own flag, also when it has been sold. */
  lemma FlagsAreTheOwners(board: seq<ShopEmo>, owner: nat, action: ShopAction, ptr: Pointer, sold: ShopEmo, place: nat, bases: Bases)
    requires DistinctIds(board) && owner < |board|
    ensures Spread(board, ActAsAlly(OneselfTripleNormal(action), board[owner].id, ptr), bases)
         == Some([Act(action, ptr, board[owner].attr.isTriple)])
    ensures Spread(board, ActAsOneself(action, OnBoard(board[owner].id)), bases)
         == Some([Act(action, OnBoard(board[owner].id), board[owner].attr.isTriple)])
    ensures Spread(board, ActAsOneself(action, Removed(sold, place)), bases) == Some([Act(action, Removed(sold, place), sold.attr.isTriple)])
  {
    FoundWhereItIs(board, owner);
  }

  // ----- the abilities of a board -----

  lemma {:induction false} SweepAppend(x: seq<(nat, Peri)>, y: seq<(nat, Peri)>, newId: nat, typ: Typ, isTriple: bool)
    ensures SweepTasks(x + y, newId, typ, isTriple) == SweepTasks(x, newId, typ, isTriple) + SweepTasks(y, newId, typ, isTriple)
  {
    hide SweepTask;
    if x == [] {
      assert x + y == y;
    } else {
      assert (x + y)[1..] == x[1..] + y;
      SweepAppend(x[1..], y, newId, typ, isTriple);
    }
  }

  lemma SweepOne(board: seq<ShopEmo>, j: nat, a: Ability, newId: nat, typ: Typ, isTriple: bool)
    requires j < |board|
    ensures var r := OnNewAlly(board, newId, typ, isTriple)(j, a);
            (if r.Some? then [r.value] else [])
            == if a.Shop? && a.shop.PeriAbility? && board[j].id != newId then SweepTask(a.shop.peri, board[j].id, newId, typ, isTriple)
               else []
  {
  }

  lemma {:induction false} SweepIsRow(board: seq<ShopEmo>, j: nat, k: nat, newId: nat, typ: Typ, isTriple: bool)
    requires j < |board| && k <= |board[j].attr.abilities|
    ensures SweepTasks(Owned(PeriOf(board[j].attr.abilities[k..]), board[j].id), newId, typ, isTriple)
         == Row(board[j].attr.abilities, k, j, OnNewAlly(board, newId, typ, isTriple))
    decreases |board[j].attr.abilities| - k
  {
    hide SweepTask;
    hide OnNewAlly;
    var abilities, id := board[j].attr.abilities, board[j].id;
    if k < |abilities| {
      SweepIsRow(board, j, k + 1, newId, typ, isTriple);
      SweepOne(board, j, abilities[k], newId, typ, isTriple);
      PeriFirst(abilities, k);
      var a, more := abilities[k], Owned(PeriOf(abilities[k + 1..]), id);
      if a.Shop? && a.shop.PeriAbility? {
        assert Owned(PeriOf(abilities[k..]), id) == [(id, a.shop.peri)] + more;
        assert ([(id, a.shop.peri)] + more)[1..] == more;
      }
    }
  }

  lemma {:induction false} SweepIsCollect(board: seq<ShopEmo>, j: nat, newId: nat, typ: Typ, isTriple: bool)
    requires j <= |board|
    ensures SweepTasks(BoardPeris(board[j..]), newId, typ, isTriple)
         == Collect(AbilitiesOf(board), j, OnNewAlly(board, newId, typ, isTriple))
    decreases |board| - j
  {
    if j < |board| {
      SweepIsCollect(board, j + 1, newId, typ, isTriple);
      var abilities := board[j].attr.abilities;
      assert board[j..][1..] == board[j + 1..] && abilities[0..] == abilities;
      SweepIsRow(board, j, 0, newId, typ, isTriple);
      SweepAppend(Owned(PeriOf(abilities), board[j].id), BoardPeris(board[j + 1..]), newId, typ, isTriple);
    }
  }

  /** The reactions to a new emo: of every other emo on the board each ability that the new one meets. */
  lemma OthersReact(board: seq<ShopEmo>, newId: nat, typ: Typ, isTriple: bool, bases: Bases)
    ensures var ts := Spread(board, AllySweep(newId, typ, isTriple), bases);
            ts.Some? && Collects(ts.value, AbilitiesOf(board), OnNewAlly(board, newId, typ, isTriple))
  {
    assert board[0..] == board;
    SweepIsCollect(board, 0, newId, typ, isTriple);
    CollectCollects(AbilitiesOf(board), OnNewAlly(board, newId, typ, isTriple));
  }

  lemma {:induction false} PreAppend(x: seq<(nat, Pre)>, y: seq<(nat, Pre)>)
    ensures PreTasks(x + y) == PreTasks(x) + PreTasks(y)
  {
    if x == [] {
      assert x + y == y;
    } else {
      assert (x + y)[1..] == x[1..] + y;
      PreAppend(x[1..], y);
    }
  }

  lemma {:induction false} PreIsRow(board: seq<ShopEmo>, j: nat, k: nat)
    requires j < |board| && k <= |board[j].attr.abilities|
    ensures PreTasks(Owned(PreOf(board[j].attr.abilities[k..]), board[j].id)) == Row(board[j].attr.abilities, k, j, AtStart(board))
    decreases |board[j].attr.abilities| - k
  {
    var abilities, id := board[j].attr.abilities, board[j].id;
    if k < |abilities| {
      PreIsRow(board, j, k + 1);
      var rest, a, more := abilities[k..], abilities[k], PreOf(abilities[k + 1..]);
      assert rest[1..] == abilities[k + 1..];
      if a.Shop? && a.shop.PreAbility? {
        assert PreOf(rest) == [a.shop.pre] + more && ([a.shop.pre] + more)[1..] == more;
        assert Owned(PreOf(rest), id) == [(id, a.shop.pre)] + Owned(more, id);
        assert ([(id, a.shop.pre)] + Owned(more, id))[1..] == Owned(more, id);
      } else {
        assert PreOf(rest) == more;
      }
    }
  }

  lemma {:induction false} PreIsCollect(board: seq<ShopEmo>, j: nat)
    requires j <= |board|
    ensures PreTasks(BoardPres(board[j..])) == Collect(AbilitiesOf(board), j, AtStart(board))
    decreases |board| - j
  {
    if j < |board| {
      PreIsCollect(board, j + 1);
      var abilities := board[j].attr.abilities;
      assert board[j..][1..] == board[j + 1..] && abilities[0..] == abilities;
      PreIsRow(board, j, 0);
      PreAppend(Owned(PreOf(abilities), board[j].id), BoardPres(board[j + 1..]));
    }
  }

  /** A visit starts with every ability that acts at its start. */
  lemma StartActs(s: State, bases: Bases) returns (ts: seq<Task>)
    ensures StartShop(s, bases) == Run(ts, s, bases)
    ensures Collects(ts, AbilitiesOf(s.board), AtStart(s.board))
  {
    ts := PreTasks(BoardPres(s.board));
    assert s.board[0..] == s.board;
    PreIsCollect(s.board, 0);
    CollectCollects(AbilitiesOf(s.board), AtStart(s.board));
  }

  /** A sale takes the emo off, earns one coin and lets the emo that is gone act from the place it left. */
  lemma SaleActs(s: State, index: nat, bases: Bases) returns (ts: seq<Task>, s': State)
    ensures index >= |s.board| ==> SellEmo(s, index, bases).None?
    ensures index < |s.board| ==>
              && SellEmo(s, index, bases) == Run(ts, s', bases)
              && s'.board == s.board[..index] + s.board[index + 1..] && s'.logs == s.logs + [Remove(index)]
              && s'.earned == s.earned + 1 && s'.next == s.next && s'.tape == s.tape
              && Collects(ts, [s.board[index].attr.abilities], ByOneself(OnSell, Removed(s.board[index], index)))
  {
    ts, s' := [], s;
    if index < |s.board| {
      hide SelfTasks;
      hide PeriOf;
      hide Run;
      var sold := s.board[index];
      s' := RemoveAt(s, index);
      ts := SelfTasks(PeriOf(sold.attr.abilities), OnSell, Removed(sold, index));
      SelfTasksCollect(sold.attr.abilities, OnSell, Removed(sold, index));
    }
  }
}
