/** Who reacts in a battle: for every event exactly the abilities that name it, one task each, from the left of the board to
    the right and on each emo in the order of its abilities. */
module BattleReactions {
  import opened Types
  import opened Listing
  import opened Battle
  import March

  function AbilitiesOf(board: seq<Fighter>): seq<seq<Ability>> {
    seq(|board|, j requires 0 <= j < |board| => board[j].attr.abilities)
  }

  // ----- what an ability of the emo at `j` does -----

  type Reaction = (nat, Ability) -> Option<Task>

  /** An ally retired from the place `i`: its abilities act through the emo that is gone. */
  function ForRetiredAlly(p: Player, i: nat, emo: Fighter): Reaction {
    (j: nat, a: Ability) =>
      match a {
        case Battle(GeneralAlly(AtAllyRetireAsAlly(cond), action)) =>
          if Matched(cond, emo.typ, emo.attr.isTriple) then Some(ActAsAlly(p, action, i, Some(emo), j)) else None
        case _ => None
      }
  }

  /** An ally retired: the emo acts by itself. */
  function OnAllyRetirement(p: Player, emo: Fighter): Reaction {
    (j: nat, a: Ability) =>
      match a {
        case Battle(GeneralSelf(AtAllyRetire(cond), action)) =>
          if Matched(cond, emo.typ, emo.attr.isTriple) then Some(ActAsOneself(p, action, j, None)) else None
        case _ => None
      }
  }

  /** A rival retired: the emo acts by itself. */
  function OnRivalRetirement(p: Player, emo: Fighter): Reaction {
    (j: nat, a: Ability) =>
      match a {
        case Battle(GeneralSelf(AtRivalRetire(cond), action)) =>
          if Matched(cond, emo.typ, emo.attr.isTriple) then Some(ActAsOneself(p, action, j, None)) else None
        case _ => None
      }
  }

  /** An emo of the board lost its shield. */
  function OnLostShield(p: Player, emo: Fighter): Reaction {
    (j: nat, a: Ability) =>
      match a {
        case Battle(GeneralSelf(AtAllyBattleAbilityRemoved(cond, excludes, SpecialAbility(Shield)), action)) =>
          if Matched(cond, emo.typ, emo.attr.isTriple) then Some(ShieldReact(p, action, j, emo.baseId, excludes)) else None
        case _ => None
      }
  }

  /** An emo was set at `i`: the abilities of the others act through it. */
  function ForNewAlly(p: Player, i: nat, emo: Fighter): Reaction {
    (j: nat, a: Ability) =>
      match a {
        case Battle(GeneralAlly(AtAllySetAsAlly(cond), action)) =>
          if j != i && Matched(cond, emo.typ, emo.attr.isTriple) then Some(ActAsAlly(p, action, i, None, j)) else None
        case _ => None
      }
  }

  /** What an emo does when it retires itself. */
  function AtOwnRetirement(p: Player, i: nat, retired: Option<Fighter>): Reaction {
    (j: nat, a: Ability) =>
      match a {
        case Battle(GeneralSelf(AtRetire, action)) => Some(ActAsOneself(p, action, i, retired))
        case _ => None
      }
  }

  /** Before the first attack. */
  function BeforeFirstAttack(p: Player): Reaction {
    (j: nat, a: Ability) =>
      match a {
        case Battle(GeneralSelf(AtPre, action)) => Some(ActAsOneself(p, action, j, None))
        case _ => None
      }
  }

  // ----- the reactions of a board, collected -----

  ghost predicate Describes(f: Reaction, event: Event, p: Player, i: nat, emo: Fighter) {
    forall j: nat, a: Ability ::
      f(j, a) == (if a.Battle? then (var ts := ReactOne(event, j, a.battle, p, i, emo); if ts == [] then None else Some(ts[0])) else None)
      && (a.Battle? ==> |ReactOne(event, j, a.battle, p, i, emo)| <= 1)
  }

  lemma {:induction false} ReactAppend(event: Event, x: seq<(nat, BattleAbility)>, y: seq<(nat, BattleAbility)>, p: Player, i: nat,
                                      emo: Fighter)
    ensures React(event, x + y, p, i, emo) == React(event, x, p, i, emo) + React(event, y, p, i, emo)
  {
    hide ReactOne;
    if x == [] {
      assert x + y == y;
    } else {
      assert (x + y)[1..] == x[1..] + y;
      ReactAppend(event, x[1..], y, p, i, emo);
    }
  }

  lemma {:induction false} ReactIsRow(event: Event, abilities: seq<Ability>, k: nat, j: nat, p: Player, i: nat, emo: Fighter, f: Reaction)
    requires k <= |abilities| && Describes(f, event, p, i, emo)
    ensures React(event, Numbered(BattleOf(abilities[k..]), j), p, i, emo) == Row(abilities, k, j, f)
    decreases |abilities| - k
  {
    hide ReactOne;
    if k < |abilities| {
      ReactIsRow(event, abilities, k + 1, j, p, i, emo, f);
      var rest, a := abilities[k..], abilities[k];
      assert rest[1..] == abilities[k + 1..];
      var more := BattleOf(abilities[k + 1..]);
      if a.Battle? {
        var ts := ReactOne(event, j, a.battle, p, i, emo);
        assert BattleOf(rest) == [a.battle] + more && ([a.battle] + more)[1..] == more;
        assert Numbered(BattleOf(rest), j) == [(j, a.battle)] + Numbered(more, j);
        assert ([(j, a.battle)] + Numbered(more, j))[1..] == Numbered(more, j);
        assert ts == if f(j, a).Some? then [f(j, a).value] else [];
      } else {
        assert BattleOf(rest) == more && f(j, a).None?;
      }
    }
  }

  lemma {:induction false} ReactIsCollect(event: Event, board: seq<Fighter>, j: nat, p: Player, i: nat, emo: Fighter, f: Reaction)
    requires j <= |board| && Describes(f, event, p, i, emo)
    ensures React(event, BoardAbilities(board[j..], j), p, i, emo) == Collect(AbilitiesOf(board), j, f)
    decreases |board| - j
  {
    hide Describes;
    if j < |board| {
      ReactIsCollect(event, board, j + 1, p, i, emo, f);
      var abilities := board[j].attr.abilities;
      assert board[j..][1..] == board[j + 1..] && abilities[0..] == abilities;
      ReactIsRow(event, abilities, 0, j, p, i, emo, f);
      ReactAppend(event, Numbered(BattleOf(abilities), j), BoardAbilities(board[j + 1..], j + 1), p, i, emo);
    }
  }

  lemma ReactCollects(event: Event, board: seq<Fighter>, p: Player, i: nat, emo: Fighter, f: Reaction)
    requires Describes(f, event, p, i, emo)
    ensures Collects(React(event, BoardAbilities(board, 0), p, i, emo), AbilitiesOf(board), f)
  {
    assert board[0..] == board;
    ReactIsCollect(event, board, 0, p, i, emo, f);
    CollectCollects(AbilitiesOf(board), f);
  }

  // ----- retirement -----

  /** When an emo has retired, the abilities of its allies that act as it come first, then the allies that act by themselves:
      every ability with the trigger whose condition the emo meets, and no other. */
  lemma AlliesReact(s: State, p: Player, i: nat, emo: Fighter) returns (asAlly: seq<Task>, byThemselves: seq<Task>)
    ensures Spread(s, RetireAllies(p, i, emo)) == Some(asAlly + byThemselves)
    ensures Collects(asAlly, AbilitiesOf(s.At(p)), ForRetiredAlly(p, i, emo))
    ensures Collects(byThemselves, AbilitiesOf(s.At(p)), OnAllyRetirement(p, emo))
  {
    asAlly := React(AllyRetired, BoardAbilities(s.At(p), 0), p, i, emo);
    byThemselves := React(OnAllyRetired, BoardAbilities(s.At(p), 0), p, i, emo);
    ReactCollects(AllyRetired, s.At(p), p, i, emo, ForRetiredAlly(p, i, emo));
    ReactCollects(OnAllyRetired, s.At(p), p, i, emo, OnAllyRetirement(p, emo));
  }

  /** Its rivals act by themselves. */
  lemma RivalsReact(s: State, p: Player, emo: Fighter)
    ensures var ts := Spread(s, RetireRivals(p, emo));
            ts.Some? && Collects(ts.value, AbilitiesOf(s.At(Other(p))), OnRivalRetirement(Other(p), emo))
  {
    ReactCollects(OnRivalRetired, s.At(Other(p)), Other(p), 0, emo, OnRivalRetirement(Other(p), emo));
  }

  // ----- a lost shield and a new emo -----

  /** A lost shield: the board without it reacts, the emo that lost it included, and then the counter of a surviving attacker
      is still due. */
  lemma ShieldReactions(s: State, p: Player, i: nat, k: nat, counted: bool) returns (reactions: seq<Task>)
    requires i < |s.At(p)| && k < |s.At(p)[i].attr.abilities|
    ensures var (s', ts), e := LoseShield(s, p, i, k, counted), s.At(p)[i];
            var e' := e.(attr := e.attr.(abilities := e.attr.abilities[..k] + e.attr.abilities[k + 1..]));
            && s'.At(p) == s.At(p)[i := e'] && s'.At(Other(p)) == s.At(Other(p))
            && ts == reactions + (if counted then [CountSurvived(p, i)] else [])
            && Collects(reactions, AbilitiesOf(s'.At(p)), OnLostShield(p, e'))
  {
    hide React;
    hide BoardAbilities;
    hide Collects;
    var s' := LoseShield(s, p, i, k, counted).0;
    reactions := React(OnShieldLost, BoardAbilities(s'.At(p), 0), p, i, s'.At(p)[i]);
    ReactCollects(OnShieldLost, s'.At(p), p, i, s'.At(p)[i], OnLostShield(p, s'.At(p)[i]));
  }

  /** An emo comes in at `i` unless the board is full; then the others react to it, and it does not react to itself. */
  lemma NewEmoIs(s: State, p: Player, i: nat, e: Fighter)
    ensures |s.At(p)| >= 7 ==> AddFighter(s, p, i, e) == Some((s, []))
    ensures |s.At(p)| < 7 ==> (AddFighter(s, p, i, e).Some? <==> i <= |s.At(p)|)
    ensures i <= |s.At(p)| < 7 ==>
              var (s', ts) := AddFighter(s, p, i, e).value;
              && s'.At(p) == s.At(p)[..i] + [e] + s.At(p)[i..] && s'.At(Other(p)) == s.At(Other(p))
              && Collects(ts, AbilitiesOf(s'.At(p)), ForNewAlly(p, i, e))
  {
    if i <= |s.At(p)| < 7 {
      ReactCollects(AllySet, s.At(p)[..i] + [e] + s.At(p)[i..], p, i, e, ForNewAlly(p, i, e));
    }
  }

  // ----- the abilities of one emo -----

  lemma {:induction false} RetireTasksAreRow(abilities: seq<Ability>, k: nat, p: Player, i: nat, retired: Option<Fighter>)
    requires k <= |abilities|
    ensures RetireTasks(BattleOf(abilities[k..]), p, i, retired, false) == Row(abilities, k, 0, AtOwnRetirement(p, i, retired))
    decreases |abilities| - k
  {
    if k < |abilities| {
      RetireTasksAreRow(abilities, k + 1, p, i, retired);
      var rest, a, more := abilities[k..], abilities[k], BattleOf(abilities[k + 1..]);
      assert rest[1..] == abilities[k + 1..];
      if a.Battle? {
        assert BattleOf(rest) == [a.battle] + more && ([a.battle] + more)[1..] == more;
        var own := if a.battle.GeneralSelf? then ActAsOneself(p, a.battle.action, i, retired) else CountSurvived(p, i);
        assert Repeat(own, 1) == [own];
      } else {
        assert BattleOf(rest) == more;
      }
    }
  }

  lemma RetireTasksCollect(abilities: seq<Ability>, p: Player, i: nat, retired: Option<Fighter>)
    ensures Collects(RetireTasks(BattleOf(abilities), p, i, retired, false), [abilities], AtOwnRetirement(p, i, retired))
  {
    hide RetireTasks;
    hide BattleOf;
    var f := AtOwnRetirement(p, i, retired);
    assert abilities[0..] == abilities;
    RetireTasksAreRow(abilities, 0, p, i, retired);
    assert Collect([abilities], 1, f) == [];
    assert Collect([abilities], 0, f) == Row(abilities, 0, 0, f);
    CollectCollects([abilities], f);
  }

  /** Every task twice in a row. */
  function Doubled(ts: seq<Task>): seq<Task> { if ts == [] then [] else [ts[0], ts[0]] + Doubled(ts[1..]) }

  lemma {:induction false} TwiceIsDoubled(abilities: seq<BattleAbility>, p: Player, i: nat, retired: Option<Fighter>)
    ensures RetireTasks(abilities, p, i, retired, true) == Doubled(RetireTasks(abilities, p, i, retired, false))
  {
    if abilities != [] {
      TwiceIsDoubled(abilities[1..], p, i, retired);
      var once, twice := RetireTasks(abilities[1..], p, i, retired, false), RetireTasks(abilities[1..], p, i, retired, true);
      if abilities[0].GeneralSelf? && abilities[0].trigger.AtRetire? {
        var t := ActAsOneself(p, abilities[0].action, i, retired);
        assert Repeat(t, 1) == [t] && Repeat(t, 2) == [t] + Repeat(t, 1);
        assert RetireTasks(abilities, p, i, retired, false) == [t] + once;
        assert RetireTasks(abilities, p, i, retired, true) == [t, t] + twice;
        assert ([t] + once)[1..] == once;
      } else {
        assert [] + once == once && [] + twice == twice;
      }
    }
  }

  /** Damage that leaves no health: the emo is taken off, its own retire actions come first, in their order, and then the
      allies and the rivals are asked. */
  lemma RetirementIs(s: State, p: Player, i: nat, damage: U16, counted: bool) returns (own: seq<Task>)
    requires i < |s.At(p)| && SHIELD !in s.At(p)[i].attr.abilities && 0 < damage && s.At(p)[i].attr.health <= damage
    ensures var r, e := DamageFighter(s, p, i, damage, counted), s.At(p)[i];
            && r.Some? && r.value.0.At(p) == s.At(p)[..i] + s.At(p)[i + 1..] && r.value.0.At(Other(p)) == s.At(Other(p))
            && r.value.1 == own + [RetireAllies(p, i, e), RetireRivals(p, e)]
            && Collects(own, [e.attr.abilities], AtOwnRetirement(p, i, Some(e)))
  {
    hide RetireTasks;
    hide BattleOf;
    var e := s.At(p)[i];
    own := RetireTasks(BattleOf(e.attr.abilities), p, i, Some(e), false);
    RetireTasksCollect(e.attr.abilities, p, i, Some(e));
    assert IndexOfAbility(e.attr.abilities, SHIELD).None?;
  }

  /** An ally that repeats retire actions performs those of the emo that is gone, each twice when it is a triple itself. */
  lemma RepeatedRetirement(s: State, p: Player, i: nat, emo: Fighter, owner: nat) returns (own: seq<Task>)
    requires owner < |s.At(p)|
    ensures Spread(s, ActAsAlly(p, TriggerRetireActions, i, Some(emo), owner))
         == Some(if s.At(p)[owner].attr.isTriple then Doubled(own) else own)
    ensures Collects(own, [emo.attr.abilities], AtOwnRetirement(p, i, Some(emo)))
  {
    hide RetireTasks;
    hide BattleOf;
    own := RetireTasks(BattleOf(emo.attr.abilities), p, i, Some(emo), false);
    RetireTasksCollect(emo.attr.abilities, p, i, Some(emo));
    TwiceIsDoubled(BattleOf(emo.attr.abilities), p, i, Some(emo));
  }

  // ----- before the first attack -----

  lemma {:induction false} PreAppend(x: seq<(nat, BattleAbility)>, y: seq<(nat, BattleAbility)>, p: Player)
    ensures March.PreTasks(x + y, p) == March.PreTasks(x, p) + March.PreTasks(y, p)
  {
    if x == [] {
      assert x + y == y;
    } else {
      assert (x + y)[1..] == x[1..] + y;
      PreAppend(x[1..], y, p);
    }
  }

  lemma {:induction false} PreIsRow(abilities: seq<Ability>, k: nat, j: nat, p: Player)
    requires k <= |abilities|
    ensures March.PreTasks(Numbered(BattleOf(abilities[k..]), j), p) == Row(abilities, k, j, BeforeFirstAttack(p))
    decreases |abilities| - k
  {
    if k < |abilities| {
      PreIsRow(abilities, k + 1, j, p);
      var rest, a, more := abilities[k..], abilities[k], BattleOf(abilities[k + 1..]);
      assert rest[1..] == abilities[k + 1..];
      if a.Battle? {
        assert BattleOf(rest) == [a.battle] + more && ([a.battle] + more)[1..] == more;
        assert Numbered(BattleOf(rest), j) == [(j, a.battle)] + Numbered(more, j);
        assert ([(j, a.battle)] + Numbered(more, j))[1..] == Numbered(more, j);
      } else {
        assert BattleOf(rest) == more;
      }
    }
  }

  lemma {:induction false} PreIsCollect(board: seq<Fighter>, j: nat, p: Player)
    requires j <= |board|
    ensures March.PreTasks(BoardAbilities(board[j..], j), p) == Collect(AbilitiesOf(board), j, BeforeFirstAttack(p))
    decreases |board| - j
  {
    if j < |board| {
      PreIsCollect(board, j + 1, p);
      var abilities := board[j].attr.abilities;
      assert board[j..][1..] == board[j + 1..] && abilities[0..] == abilities;
      PreIsRow(abilities, 0, j, p);
      PreAppend(Numbered(BattleOf(abilities), j), BoardAbilities(board[j + 1..], j + 1), p);
    }
  }

  /** Before the first attack a side performs every ability with that trigger. */
  lemma PreActions(s: State, p: Player, n: nat, bases: Bases) returns (ts: seq<Task>)
    ensures March.CallPre(s, p, n, bases) == Eval(ts, s, n, bases)
    ensures Collects(ts, AbilitiesOf(s.At(p)), BeforeFirstAttack(p))
  {
    hide Eval;
    ts := March.PreTasks(BoardAbilities(s.At(p), 0), p);
    assert s.At(p)[0..] == s.At(p);
    PreIsCollect(s.At(p), 0, p);
    CollectCollects(AbilitiesOf(s.At(p)), BeforeFirstAttack(p));
  }
}
