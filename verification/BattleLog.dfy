/** The battle log is a faithful trace: its entries alone rebuild both boards. */
module BattleLog {
  import opened Types
  import opened Battle
  import opened BattleLaws

  /** What a viewer of the log knows: base ids and attributes. */
  datatype Scene = Scene(zero: seq<GhostEmo>, one: seq<GhostEmo>) {
    function At(p: Player): seq<GhostEmo> { if p == Zero then zero else one }
    function With(p: Player, board: seq<GhostEmo>): Scene { if p == Zero then this.(zero := board) else this.(one := board) }
  }

  function Face(e: Fighter): GhostEmo { GhostEmo(e.baseId, e.attr) }

  function Faces(board: seq<Fighter>): seq<GhostEmo> {
    seq(|board|, i requires 0 <= i < |board| => Face(board[i]))
  }

  function View(s: State): Scene { Scene(Faces(s.zero), Faces(s.one)) }

  function Show(v: Scene, p: Player, i: nat): Option<GhostEmo> { if i < |v.At(p)| then Some(v.At(p)[i]) else None }

  function Change(v: Scene, p: Player, i: nat, attr: Attributes): Scene
    requires i < |v.At(p)|
  {
    v.With(p, v.At(p)[i := v.At(p)[i].(attr := attr)])
  }

  /** One entry applied to the scene; None when the entry does not fit it: an index out of range, a
      recorded result that is not the one the entry's numbers give, or a removal of a standing emo. */
  function Apply(v: Scene, log: Log): Option<Scene> {
    match log
    case Attack(attacker, attackIndex, defenseIndex) =>
      if attackIndex < |v.At(attacker)| && defenseIndex < |v.At(Other(attacker))| then Some(v) else None
    case Damage(p, i, damage, health) =>
      var e :- Show(v, p, i);
      if damage == 0 || health != Less16(e.attr.health, damage) then None
      else Some(Change(v, p, i, e.attr.(health := health)))
    case Remove(p, i) =>
      var e :- Show(v, p, i);
      if e.attr.health != 0 then None else Some(v.With(p, v.At(p)[..i] + v.At(p)[i + 1..]))
    case Add(p, i, baseId, attr) =>
      if i > |v.At(p)| || |v.At(p)| >= BOARD_EMO_MAX_COUNT then None
      else Some(v.With(p, v.At(p)[..i] + [GhostEmo(baseId, attr)] + v.At(p)[i..]))
    case RaiseStats(p, i, attack, health, a, h) =>
      var e :- Show(v, p, i);
      if a != Sat16(e.attr.attack + attack) || h != Sat16(e.attr.health + health) then None
      else Some(Change(v, p, i, e.attr.(attack := a, health := h)))
    case LowerStats(p, i, attack, health, a, h) =>
      var e :- Show(v, p, i);
      if a != AtLeastOne(Less16(e.attr.attack, attack)) || h != AtLeastOne(Less16(e.attr.health, health)) then None
      else Some(Change(v, p, i, e.attr.(attack := a, health := h)))
    case AddAbilityTo(p, i, ability, isTriple) =>
      var e :- Show(v, p, i);
      if isTriple != e.attr.isTriple then None
      else Some(Change(v, p, i, e.attr.(abilities := e.attr.abilities + [Ability.Battle(ability)])))
    case RemoveAbilityOf(p, i, k, ability) =>
      var e :- Show(v, p, i);
      if k >= |e.attr.abilities| || e.attr.abilities[k] != Ability.Battle(ability) then None
      else Some(Change(v, p, i, e.attr.(abilities := e.attr.abilities[..k] + e.attr.abilities[k + 1..])))
  }

  function Replay(v: Scene, logs: seq<Log>): Option<Scene> {
    if logs == [] then Some(v)
    else
      var v' :- Replay(v, logs[..|logs| - 1]);
      Apply(v', logs[|logs| - 1])
  }

  /** The log so far leads from `v` to the boards of `s`. */
  ghost predicate Traces(v: Scene, s: State) { Replay(v, s.logs) == Some(View(s)) }

  lemma OneMore(v: Scene, s: State, log: Log, s': State)
    requires Traces(v, s) && s'.logs == s.logs + [log] && Apply(View(s), log) == Some(View(s'))
    ensures Traces(v, s')
  {
    assert s'.logs[..|s'.logs| - 1] == s.logs;
  }

  lemma TwoMore(v: Scene, s: State, first: Log, second: Log, s': State)
    requires Traces(v, s) && s'.logs == s.logs + [first] + [second]
    requires Apply(View(s), first).Some? && Apply(Apply(View(s), first).value, second) == Some(View(s'))
    ensures Traces(v, s')
  {
    assert s'.logs[..|s'.logs| - 1] == s.logs + [first];
    assert (s.logs + [first])[..|s.logs|] == s.logs;
    assert Replay(v, s.logs + [first]) == Apply(View(s), first);
  }

  lemma PutFaces(s: State, p: Player, i: nat, e: Fighter)
    requires i < |s.At(p)| && e.baseId == s.At(p)[i].baseId
    ensures Show(View(s), p, i) == Some(Face(s.At(p)[i]))
    ensures View(Put(s, p, i, e)) == Change(View(s), p, i, e.attr)
  {
    assert Faces(s.At(p)[i := e]) == Faces(s.At(p))[i := Face(e)];
  }

  lemma RaiseTraced(v: Scene, s: State, p: Player, i: nat, attack: U16, health: U16)
    requires Traces(v, s)
    ensures var r := RaiseFighter(s, p, i, attack, health); r.Some? ==> Traces(v, r.value)
  {
    hide Replay;
    if (attack != 0 || health != 0) && i < |s.At(p)| {
      var up := RaiseFighter(s, p, i, attack, health).value;
      PutFaces(s, p, i, up.At(p)[i]);
      OneMore(v, s, up.logs[|s.logs|], up);
    }
  }

  lemma LowerTraced(v: Scene, s: State, p: Player, i: nat, attack: U16, health: U16)
    requires Traces(v, s)
    ensures var r := LowerFighter(s, p, i, attack, health); r.Some? ==> Traces(v, r.value)
  {
    hide Replay;
    if (attack != 0 || health != 0) && i < |s.At(p)| {
      var down := LowerFighter(s, p, i, attack, health).value;
      PutFaces(s, p, i, down.At(p)[i]);
      OneMore(v, s, down.logs[|s.logs|], down);
    }
  }

  lemma GrantTraced(v: Scene, s: State, p: Player, i: nat, ability: BattleAbility)
    requires Traces(v, s)
    ensures var r := GrantFighter(s, p, i, ability); r.Some? ==> Traces(v, r.value)
  {
    var r := GrantFighter(s, p, i, ability);
    if r.Some? && r.value != s {
      PutFaces(s, p, i, r.value.At(p)[i]);
      OneMore(v, s, r.value.logs[|s.logs|], r.value);
    }
  }

  lemma CountTraced(v: Scene, s: State, p: Player, i: nat)
    requires Traces(v, s)
    ensures var r := CountFighter(s, p, i); r.Some? ==> Traces(v, r.value)
  {
    var r := CountFighter(s, p, i);
    if r.Some? {
      PutFaces(s, p, i, r.value.At(p)[i]);
      assert Change(View(s), p, i, s.At(p)[i].attr) == View(s);
    }
  }

  lemma AddTraced(v: Scene, s: State, p: Player, i: nat, e: Fighter)
    requires Traces(v, s)
    ensures var r := AddFighter(s, p, i, e); r.Some? ==> Traces(v, r.value.0)
  {
    var r := AddFighter(s, p, i, e);
    if r.Some? && |s.At(p)| < BOARD_EMO_MAX_COUNT {
      var board := s.At(p)[..i] + [e] + s.At(p)[i..];
      assert Faces(board) == Faces(s.At(p))[..i] + [Face(e)] + Faces(s.At(p))[i..];
      OneMore(v, s, Add(p, i, e.baseId, e.attr), r.value.0);
    }
  }

  lemma LoseShieldTraced(v: Scene, s: State, p: Player, i: nat, k: nat, counted: bool)
    requires i < |s.At(p)| && k < |s.At(p)[i].attr.abilities| && s.At(p)[i].attr.abilities[k] == SHIELD
    requires Traces(v, s)
    ensures Traces(v, LoseShield(s, p, i, k, counted).0)
  {
    hide Replay;
    hide React;
    hide BoardAbilities;
    var s' := LoseShield(s, p, i, k, counted).0;
    PutFaces(s, p, i, s'.At(p)[i]);
    OneMore(v, s, RemoveAbilityOf(p, i, k, SpecialAbility(Shield)), s');
  }

  lemma RetireTraced(v: Scene, s: State, p: Player, i: nat, damage: U16)
    requires i < |s.At(p)| && damage != 0 && Less16(s.At(p)[i].attr.health, damage) == 0
    requires Traces(v, s)
    ensures Traces(v, Retire(s.Logged(Damage(p, i, damage, 0)), p, i).0)
  {
    hide Replay;
    hide RetireTasks;
    hide BattleOf;
    hide Less16;
    var hit := Damage(p, i, damage, 0);
    var s', e := Retire(s.Logged(hit), p, i).0, s.At(p)[i];
    PutFaces(s, p, i, e.(attr := e.attr.(health := 0)));
    var v' := Change(View(s), p, i, e.attr.(health := 0));
    assert Faces(s.At(p)[..i] + s.At(p)[i + 1..]) == v'.At(p)[..i] + v'.At(p)[i + 1..];
    TwoMore(v, s, hit, Remove(p, i), s');
  }

  lemma DamageTraced(v: Scene, s: State, p: Player, i: nat, damage: U16, counted: bool)
    requires Traces(v, s)
    ensures var r := DamageFighter(s, p, i, damage, counted); r.Some? ==> Traces(v, r.value.0)
  {
    hide Traces;
    hide LoseShield;
    hide Retire;
    var r := DamageFighter(s, p, i, damage, counted);
    if r.Some? {
      var e := s.At(p)[i];
      var k, health := IndexOfAbility(e.attr.abilities, SHIELD), Less16(e.attr.health, damage);
      if k.Some? {
        LoseShieldTraced(v, s, p, i, k.value, counted);
      } else if damage != 0 && health == 0 {
        RetireTraced(v, s, p, i, damage);
      } else if damage != 0 {
        HitTraced(v, s, p, i, damage);
      }
    }
  }

  lemma HitTraced(v: Scene, s: State, p: Player, i: nat, damage: U16)
    requires i < |s.At(p)| && damage != 0 && Traces(v, s)
    ensures var e := s.At(p)[i];
            var health := Less16(e.attr.health, damage);
            Traces(v, Put(s.Logged(Damage(p, i, damage, health)), p, i, e.(attr := e.attr.(health := health))))
  {
    hide Replay;
    var e, health := s.At(p)[i], Less16(s.At(p)[i].attr.health, damage);
    var s' := Put(s.Logged(Damage(p, i, damage, health)), p, i, e.(attr := e.attr.(health := health)));
    PutFaces(s, p, i, s'.At(p)[i]);
    OneMore(v, s, Damage(p, i, damage, health), s');
  }

  lemma StepTraced(v: Scene, s: State, t: Task, bases: Bases)
    requires Traces(v, s)
    ensures var r := Step(s, t, bases); r.Some? ==> Traces(v, r.value.0)
  {
    hide Replay;
    hide RaiseFighter;
    hide LowerFighter;
    hide GrantFighter;
    hide CountFighter;
    hide AddFighter;
    hide DamageFighter;
    if !Rewrites(t) {
      StepFrame(s, t, bases);
    } else {
      match t
      case SetEmo(p, i, baseId, isTriple, survived, side) =>
        if baseId in bases {
          var base, s', rivals := bases[baseId], s.(next := s.next + 1), s.At(Other(p));
          AddTraced(v, s', p, i, NewFighter(base, isTriple, survived, s.next));
          var inherited := if rivals == [] then 0 else rivals[|rivals| - 1].survived;
          AddTraced(v, s', Other(p), |rivals|, NewFighter(base, isTriple, inherited, s.next));
        }
      case RaiseAt(p, i, attack, health) => RaiseTraced(v, s, p, i, attack, health);
      case LowerAt(p, i, attack, health) => LowerTraced(v, s, p, i, attack, health);
      case GrantAt(p, i, ability) => GrantTraced(v, s, p, i, ability);
      case CountSurvived(p, i) => CountTraced(v, s, p, i);
      case DamageAt(p, i, damage, counted) => DamageTraced(v, s, p, i, damage, counted);
    }
  }

  /** Through every nested cascade, at every point of it, the log rebuilds the boards; the entry that
      opens an attack names two standing emos. */
  lemma AlwaysTraced(v: Scene, ts: seq<Task>, s: State, k: nat, bases: Bases)
    requires Traces(v, s)
    ensures var r := Point(ts, s, k, bases); r.Some? ==> Traces(v, r.value.0)
  {
    hide Battle.Step;
    hide Battle.Eval;
    hide Battle.Point;
    var inv := (s1: State, ts1: seq<Task>) => Traces(v, s1);
    forall s1, t, rest | inv(s1, [t] + rest) && Step(s1, t, bases).Some?
      ensures inv(Step(s1, t, bases).value.0, Step(s1, t, bases).value.1 + rest)
    {
      StepTraced(v, s1, t, bases);
    }
    EveryPoint(inv, ts, s, k, bases);
  }

  lemma EndsTraced(v: Scene, ts: seq<Task>, s: State, n: nat, bases: Bases)
    requires Traces(v, s)
    ensures var r := Eval(ts, s, n, bases); r.Done? ==> Traces(v, r.s)
  {
    hide Battle.Step;
    hide Battle.Eval;
    hide Battle.Point;
    EndIsAPoint(ts, s, n, bases);
    var r := Eval(ts, s, n, bases);
    if r.Done? {
      AlwaysTraced(v, ts, s, n - r.left, bases);
    }
  }

  lemma AttackTraced(v: Scene, s: State, p: Player)
    requires Traces(v, s)
    ensures var r := AttackTasks(s, p); r.Some? ==> Traces(v, r.value.0)
  {
    var r := AttackTasks(s, p);
    if r.Some? {
      OneMore(v, s, r.value.0.logs[|s.logs|], r.value.0);
    }
  }
}
