/** What holds at every point of a battle, for any ability data: the size and health of the boards
    and a bound on every emo's attack counter. */
module BattleLaws {
  import opened Types
  import opened Battle

  // ----- from one step to every point and every end -----

  /** What every step keeps holds at every point of a run. */
  lemma {:induction false} EveryPoint(inv: (State, seq<Task>) -> bool, ts: seq<Task>, s: State, k: nat, bases: Bases)
    requires inv(s, ts)
    requires forall s1, t, rest :: inv(s1, [t] + rest) && Step(s1, t, bases).Some? ==>
                                     inv(Step(s1, t, bases).value.0, Step(s1, t, bases).value.1 + rest)
    ensures var r := Point(ts, s, k, bases); r.Some? ==> inv(r.value.0, r.value.1)
    decreases k
  {
    hide Battle.Step;
    if k != 0 && ts != [] {
      assert ts == [ts[0]] + ts[1..];
      var r := Step(s, ts[0], bases);
      if r.Some? {
        EveryPoint(inv, r.value.1 + ts[1..], r.value.0, k - 1, bases);
      }
    }
  }

  /** A finished run ends at one of its points, with nothing pending. */
  lemma {:induction false} EndIsAPoint(ts: seq<Task>, s: State, n: nat, bases: Bases)
    ensures var r := Eval(ts, s, n, bases);
            r.Done? ==> r.left <= n && Point(ts, s, n - r.left, bases) == Some((r.s, []))
    decreases n
  {
    hide Battle.Step;
    if ts != [] && n != 0 {
      var r := Step(s, ts[0], bases);
      if r.Some? {
        EndIsAPoint(r.value.1 + ts[1..], r.value.0, n - 1, bases);
      }
    }
  }

  /** One step of a cascade. */
  lemma Unfold(t: Task, rest: seq<Task>, s: State, n: nat, bases: Bases, s': State, more: seq<Task>)
    requires n > 0 && Step(s, t, bases) == Some((s', more))
    ensures Eval([t] + rest, s, n, bases) == Eval(more + rest, s', n - 1, bases)
  {
    assert ([t] + rest)[1..] == rest;
  }

  /** A list of tasks runs as its front and then its back, on what the front leaves of the budget. */
  lemma {:induction false} EvalAppend(a: seq<Task>, b: seq<Task>, s: State, n: nat, bases: Bases)
    ensures Eval(a + b, s, n, bases)
         == (match Eval(a, s, n, bases) case Done(s', left) => Eval(b, s', left, bases) case o => o)
    decreases n
  {
    hide Battle.Step;
    if a == [] {
      assert a + b == b;
    } else if n > 0 {
      assert (a + b)[0] == a[0] && (a + b)[1..] == a[1..] + b;
      var r := Step(s, a[0], bases);
      if r.Some? {
        EvalAppend(r.value.1 + a[1..], b, r.value.0, n - 1, bases);
        assert r.value.1 + a[1..] + b == r.value.1 + (a[1..] + b);
      }
    }
  }

  /** A larger budget changes no result, it only leaves more over. */
  lemma {:induction false} MoreBudget(ts: seq<Task>, s: State, n: nat, k: nat, bases: Bases)
    ensures match Eval(ts, s, n, bases)
            case Done(s', left) => Eval(ts, s, n + k, bases) == Done(s', left + k)
            case Failed => Eval(ts, s, n + k, bases) == Failed
            case Running => true
    decreases n
  {
    hide Battle.Step;
    if ts != [] && n > 0 {
      var r := Step(s, ts[0], bases);
      if r.Some? {
        MoreBudget(r.value.1 + ts[1..], r.value.0, n - 1, k, bases);
      }
    }
  }

  // ----- size, health and typ -----

  ghost predicate Sound(e: Fighter, bases: Bases) {
    e.attr.health >= 1 && e.baseId in bases && e.typ == bases[e.baseId].typ
  }

  ghost predicate Fit(s: State, bases: Bases) {
    && |s.zero| <= BOARD_EMO_MAX_COUNT && |s.one| <= BOARD_EMO_MAX_COUNT
    && (forall e :: e in s.zero ==> Sound(e, bases))
    && (forall e :: e in s.one ==> Sound(e, bases))
  }

  predicate Rewrites(t: Task) {
    t.SetEmo? || t.RaiseAt? || t.LowerAt? || t.GrantAt? || t.CountSurvived? || t.DamageAt?
  }

  /** Every other task leaves boards and log alone. */
  lemma StepFrame(s: State, t: Task, bases: Bases)
    requires !Rewrites(t)
    ensures var r := Step(s, t, bases);
            r.Some? ==> r.value.0.zero == s.zero && r.value.0.one == s.one && r.value.0.logs == s.logs
  {
  }

  lemma UpdateFits(s: State, p: Player, i: nat, e: Fighter, bases: Bases)
    requires Fit(s, bases) && i < |s.At(p)|
    requires e.baseId == s.At(p)[i].baseId && e.typ == s.At(p)[i].typ && e.attr.health >= 1
    ensures Fit(Put(s, p, i, e), bases)
  {
    assert s.At(p)[i] in s.At(p);
    assert Sound(e, bases);
  }

  lemma AddFits(s: State, p: Player, i: nat, e: Fighter, bases: Bases)
    requires Fit(s, bases) && Sound(e, bases)
    ensures var r := AddFighter(s, p, i, e); r.Some? ==> Fit(r.value.0, bases)
  {
  }

  lemma SetFits(s: State, p: Player, i: nat, baseId: U16, isTriple: bool, survived: nat, side: Side, bases: Bases)
    requires WellFormed(bases) && Fit(s, bases)
    ensures var r := SetFighter(s, p, i, baseId, isTriple, survived, side, bases); r.Some? ==> Fit(r.value.0, bases)
  {
    hide AddFighter;
    if baseId in bases {
      var base, s', q := bases[baseId], s.(next := s.next + 1), Other(p);
      AddFits(s', p, i, NewFighter(base, isTriple, survived, s.next), bases);
      var rivals := s.At(q);
      var inherited := if rivals == [] then 0 else rivals[|rivals| - 1].survived;
      AddFits(s', q, |rivals|, NewFighter(base, isTriple, inherited, s.next), bases);
    }
  }

  lemma RemoveFits(s: State, p: Player, i: nat, bases: Bases)
    requires Fit(s, bases) && i < |s.At(p)|
    ensures Fit(Retire(s, p, i).0, bases)
  {
    assert forall e :: e in s.At(p)[..i] + s.At(p)[i + 1..] ==> e in s.At(p);
  }

  lemma DamageFits(s: State, p: Player, i: nat, damage: U16, counted: bool, bases: Bases)
    requires Fit(s, bases)
    ensures var r := DamageFighter(s, p, i, damage, counted); r.Some? ==> Fit(r.value.0, bases)
  {
    if i < |s.At(p)| {
      var e := s.At(p)[i];
      assert e in s.At(p);
      var k := IndexOfAbility(e.attr.abilities, SHIELD);
      var health := Less16(e.attr.health, damage);
      if k.Some? {
        var abilities := e.attr.abilities[..k.value] + e.attr.abilities[k.value + 1..];
        UpdateFits(s, p, i, e.(attr := e.attr.(abilities := abilities)), bases);
      } else if damage != 0 && health == 0 {
        RemoveFits(s.Logged(Damage(p, i, damage, health)), p, i, bases);
      } else if damage != 0 {
        UpdateFits(s, p, i, e.(attr := e.attr.(health := health)), bases);
      }
    }
  }

  lemma PlainFits(s: State, t: Task, bases: Bases)
    requires Fit(s, bases) && (t.RaiseAt? || t.LowerAt? || t.GrantAt? || t.CountSurvived?)
    ensures var r := Step(s, t, bases); r.Some? ==> Fit(r.value.0, bases)
  {
    hide Fit;
    var r := Step(s, t, bases);
    if r.Some? && r.value.0 != s {
      var s' := r.value.0;
      UpdateFits(s, t.p, t.i, s'.At(t.p)[t.i], bases) by {
        HealthOf(s, t.p, t.i, bases);
      }
      FitIsOfBoards(Put(s, t.p, t.i, s'.At(t.p)[t.i]), s', bases);
    }
  }

  lemma HealthOf(s: State, p: Player, i: nat, bases: Bases)
    requires Fit(s, bases) && i < |s.At(p)|
    ensures s.At(p)[i].attr.health >= 1
  {
    assert s.At(p)[i] in s.At(p);
  }

  lemma FitIsOfBoards(s: State, s': State, bases: Bases)
    requires Fit(s, bases) && s'.zero == s.zero && s'.one == s.one
    ensures Fit(s', bases)
  {
  }

  lemma StepFits(s: State, t: Task, bases: Bases)
    requires WellFormed(bases) && Fit(s, bases)
    ensures var r := Step(s, t, bases); r.Some? ==> Fit(r.value.0, bases)
  {
    hide SetFighter;
    hide DamageFighter;
    hide Fit;
    var r := Step(s, t, bases);
    if r.Some? {
      if !Rewrites(t) {
        StepFrame(s, t, bases);
        FitIsOfBoards(s, r.value.0, bases);
      } else if t.SetEmo? {
        SetFits(s, t.p, t.i, t.baseId, t.isTriple, t.survived, t.side, bases);
      } else if t.DamageAt? {
        DamageFits(s, t.p, t.i, t.damage, t.counted, bases);
      } else {
        PlainFits(s, t, bases);
      }
    }
  }

  /** At every point of every cascade, finished or not, both boards hold at most seven emos,
      each with health of at least one and the typ of its base. */
  lemma AlwaysFit(ts: seq<Task>, s: State, k: nat, bases: Bases)
    requires WellFormed(bases) && Fit(s, bases)
    ensures var r := Point(ts, s, k, bases); r.Some? ==> Fit(r.value.0, bases)
  {
    hide Battle.Step;
    hide Battle.Eval;
    hide Battle.Point;
    var inv := (s1: State, ts1: seq<Task>) => Fit(s1, bases);
    forall s1, t, rest | inv(s1, [t] + rest) && Step(s1, t, bases).Some?
      ensures inv(Step(s1, t, bases).value.0, Step(s1, t, bases).value.1 + rest)
    {
      StepFits(s1, t, bases);
    }
    EveryPoint(inv, ts, s, k, bases);
  }

  lemma EndsFit(ts: seq<Task>, s: State, n: nat, bases: Bases)
    requires WellFormed(bases) && Fit(s, bases)
    ensures var r := Eval(ts, s, n, bases); r.Done? ==> Fit(r.s, bases)
  {
    hide Battle.Step;
    hide Battle.Eval;
    hide Battle.Point;
    EndIsAPoint(ts, s, n, bases);
    var r := Eval(ts, s, n, bases);
    if r.Done? {
      AlwaysFit(ts, s, n - r.left, bases);
    }
  }

  // ----- the attack counter -----

  /** One for each pending task that ends in counting a survived attack. */
  function Token(t: Task): nat {
    if t.CountSurvived? || t.StrikeBack? || (t.DamageAt? && t.counted) then 1 else 0
  }

  function Tokens(ts: seq<Task>): nat { if ts == [] then 0 else Token(ts[0]) + Tokens(ts[1..]) }

  /** The counter a task would pass on to an emo. */
  function Carried(t: Task): nat {
    match t
    case Act(_, _, _, Some(e), _) => e.survived
    case ActAsOneself(_, _, _, Some(e)) => e.survived
    case ActAsAlly(_, _, _, Some(e), _) => e.survived
    case SetEmo(_, _, _, _, survived, _) => survived
    case RetireAllies(_, _, e) => e.survived
    case RetireRivals(_, e) => e.survived
    case _ => 0
  }

  ghost predicate Counted(s: State, ts: seq<Task>, tick: nat) {
    && (forall e :: e in s.zero ==> e.survived + Tokens(ts) <= tick)
    && (forall e :: e in s.one ==> e.survived + Tokens(ts) <= tick)
    && (forall t :: t in ts ==> Carried(t) + Tokens(ts) <= tick)
    && Tokens(ts) <= tick
  }

  lemma {:induction false} TokensAppend(a: seq<Task>, b: seq<Task>)
    ensures Tokens(a + b) == Tokens(a) + Tokens(b)
  {
    if a == [] {
      assert a + b == b;
    } else {
      assert (a + b)[1..] == a[1..] + b;
      TokensAppend(a[1..], b);
    }
  }

  /** Some emo on a board has counted at least `n`. */
  ghost predicate OnBoards(s: State, n: nat) { exists p: Player, i :: 0 <= i < |s.At(p)| && n <= s.At(p)[i].survived }

  /** What a step may hand on: nothing, what its task carried, or what an emo on a board has counted. */
  ghost predicate Known(s: State, t: Task, n: nat) { n == 0 || n <= Carried(t) || OnBoards(s, n) }

  ghost predicate AllKnown(s: State, t: Task, more: seq<Task>) {
    Tokens(more) <= Token(t) && forall t' :: t' in more ==> Known(s, t, Carried(t'))
  }

  ghost predicate BoardsKnown(s: State, t: Task, s': State) {
    forall p: Player, i :: 0 <= i < |s'.At(p)| ==> Known(s, t, s'.At(p)[i].survived)
  }

  lemma IsOnBoards(s: State, p: Player, i: nat)
    requires i < |s.At(p)|
    ensures OnBoards(s, s.At(p)[i].survived)
  {
  }

  lemma BoardsAreKnown(s: State, t: Task)
    ensures BoardsKnown(s, t, s)
  {
    forall p: Player, i | 0 <= i < |s.At(p)| ensures Known(s, t, s.At(p)[i].survived) {
      IsOnBoards(s, p, i);
    }
  }

  lemma {:induction false} RepeatKnown(t: Task, n: nat)
    ensures forall t' :: t' in Repeat(t, n) ==> t' == t
    ensures Token(t) == 0 ==> Tokens(Repeat(t, n)) == 0
  {
    if n > 0 {
      RepeatKnown(t, n - 1);
    }
  }

  ghost predicate Quiet(ts: seq<Task>) { Tokens(ts) == 0 && forall t :: t in ts ==> Carried(t) == 0 }

  lemma RaiseQuiet(p: Player, indexes: seq<nat>, a: U16, h: U16)
    ensures Quiet(RaiseTasks(p, indexes, a, h)) && Quiet(LowerTasks(p, indexes, a, h))
  {
  }

  lemma GrantQuiet(p: Player, indexes: seq<nat>, ability: BattleAbility)
    ensures Quiet(GrantTasks(p, indexes, ability))
  {
  }

  lemma DamageQuiet(p: Player, ids: seq<U16>, a: U16)
    ensures Quiet(DamageTasks(p, ids, a))
  {
  }

  /** Tasks that all carry what `emo` has counted. */
  ghost predicate Hands(ts: seq<Task>, n: nat) { Tokens(ts) == 0 && forall t :: t in ts ==> Carried(t) <= n }

  lemma HandsAppend(a: seq<Task>, b: seq<Task>, n: nat)
    requires Hands(a, n) && Hands(b, n)
    ensures Hands(a + b, n)
  {
    TokensAppend(a, b);
  }

  lemma RepeatHands(t: Task, times: nat, n: nat)
    requires Token(t) == 0 && Carried(t) <= n
    ensures Hands(Repeat(t, times), n)
  {
    RepeatKnown(t, times);
  }

  lemma {:induction false} RetireHands(abilities: seq<BattleAbility>, p: Player, i: nat, retired: Option<Fighter>, twice: bool)
    ensures Hands(RetireTasks(abilities, p, i, retired, twice), if retired.Some? then retired.value.survived else 0)
  {
    var handed := if retired.Some? then retired.value.survived else 0;
    if abilities != [] {
      hide Hands;
      RetireHands(abilities[1..], p, i, retired, twice);
      var rest := RetireTasks(abilities[1..], p, i, retired, twice);
      if abilities[0].GeneralSelf? && abilities[0].trigger.AtRetire? {
        var t, n := ActAsOneself(p, abilities[0].action, i, retired), if twice then 2 else 1;
        RepeatHands(t, n, handed);
        HandsAppend(Repeat(t, n), rest, handed);
      } else {
        assert [] + rest == rest;
      }
    }
  }

  lemma {:induction false} ReactHands(event: Event, abilities: seq<(nat, BattleAbility)>, p: Player, i: nat, emo: Fighter)
    ensures Hands(React(event, abilities, p, i, emo), if event.AllyRetired? then emo.survived else 0)
  {
    if abilities != [] {
      ReactHands(event, abilities[1..], p, i, emo);
      var first := ReactOne(event, abilities[0].0, abilities[0].1, p, i, emo);
      TokensAppend(first, React(event, abilities[1..], p, i, emo));
      assert first == [] || first == [first[0]];
    }
  }

  lemma SpreadActKnown(s: State, p: Player, action: BattleAction, i: nat, retired: Option<Fighter>, isTriple: bool)
    ensures var r := SpreadAct(s, p, action, i, retired, isTriple);
            r.Some? ==> AllKnown(s, Act(p, action, i, retired, isTriple), r.value.1)
  {
    var r := SpreadAct(s, p, action, i, retired, isTriple);
    if r.Some? {
      var ts := r.value.1;
      if action.Spawn? || action.SpawnByAttackDiv? {
        if retired.None? {
          IsOnBoards(s, p, i);
        }
        var emo := Actor(s, p, i, retired).value;
        var t := Task.SetEmo(p, if retired.Some? then i else i + 1, action.baseId, isTriple, emo.survived, action.side);
        if action.SpawnByAttackDiv? {
          RepeatKnown(t, Min(emo.attr.attack / action.divisor, BOARD_EMO_MAX_COUNT));
        }
      } else {
        SpreadActQuiet(s, p, action, i, retired, isTriple);
      }
    }
  }

  lemma SpreadActQuiet(s: State, p: Player, action: BattleAction, i: nat, retired: Option<Fighter>, isTriple: bool)
    requires !action.Spawn? && !action.SpawnByAttackDiv?
    ensures var r := SpreadAct(s, p, action, i, retired, isTriple); r.Some? ==> Quiet(r.value.1)
  {
    var r := SpreadAct(s, p, action, i, retired, isTriple);
    if r.Some? {
      match action
      case Raise(who, a, h) =>
        RaiseQuiet(p, PickIndexes(s.At(p), i, who, retired.Some?, s.tape).value.0, DoubleIf(isTriple, a), DoubleIf(isTriple, h));
      case Lower(who, a, h) =>
        RaiseQuiet(p, PickIndexes(s.At(p), i, who, retired.Some?, s.tape).value.0, DoubleIf(isTriple, a), DoubleIf(isTriple, h));
      case RaiseByEmoCount(side, who, cond, a, h) =>
        var count := if side == Ally then CountMatched(s.At(p), 0, i, false, cond)
                     else CountMatched(s.At(Other(p)), 0, 0, true, cond);
        RaiseQuiet(p, PickIndexes(s.At(p), i, who, retired.Some?, s.tape).value.0,
                   DoubleIf(isTriple, Sat16(a * count)), DoubleIf(isTriple, Sat16(h * count)));
      case AddBattleAbility(who, ability) =>
        GrantQuiet(p, PickReceivers(s.At(p), i, who, ability, isTriple, retired.Some?, s.tape).value.0, ability);
      case DamageAll(side, d) =>
        var q := if side == Ally then p else Other(p);
        DamageQuiet(q, Ids(s.At(q)), DoubleIf(isTriple, d));
    }
  }

  lemma SpreadKnown(s: State, t: Task)
    requires t.ActAsOneself? || t.ActAsAlly? || t.DamageId? || t.StrikeBack? || t.ShieldReact? || t.RetireAllies? || t.RetireRivals?
    ensures var ts := Spread(s, t); ts.Some? ==> AllKnown(s, t, ts.value)
  {
    var ts := Spread(s, t);
    if ts.Some? {
      match t
      case ActAsAlly(p, action, i, retired, onesIndex) =>
        if action.TriggerRetireActions? {
          RetireHands(BattleOf(Actor(s, p, i, retired).value.attr.abilities), p, i, retired, Get(s, p, onesIndex).value.attr.isTriple);
        }
      case RetireAllies(p, i, emo) =>
        var abilities := BoardAbilities(s.At(p), 0);
        ReactHands(AllyRetired, abilities, p, i, emo);
        ReactHands(OnAllyRetired, abilities, p, i, emo);
        TokensAppend(React(AllyRetired, abilities, p, i, emo), React(OnAllyRetired, abilities, p, i, emo));
      case RetireRivals(p, emo) => ReactHands(OnRivalRetired, BoardAbilities(s.At(Other(p)), 0), Other(p), 0, emo);
      case _ =>
    }
  }

  lemma AddKnown(s0: State, t: Task, s: State, p: Player, i: nat, e: Fighter)
    requires BoardsKnown(s0, t, s) && Known(s0, t, e.survived)
    ensures var r := AddFighter(s, p, i, e); r.Some? ==> BoardsKnown(s0, t, r.value.0) && Quiet(r.value.1)
  {
    var r := AddFighter(s, p, i, e);
    if r.Some? && |s.At(p)| < BOARD_EMO_MAX_COUNT {
      var board := s.At(p)[..i] + [e] + s.At(p)[i..];
      ReactHands(AllySet, BoardAbilities(board, 0), p, i, e);
      forall q: Player, j | 0 <= j < |r.value.0.At(q)| ensures Known(s0, t, r.value.0.At(q)[j].survived) {
        if q == p {
          assert board[j] == (if j < i then s.At(p)[j] else if j == i then e else s.At(p)[j - 1]);
        } else {
          assert r.value.0.At(q)[j] == s.At(q)[j];
        }
      }
    }
  }

  lemma SetKnown(s: State, t: Task, bases: Bases)
    requires t.SetEmo?
    ensures var r := Step(s, t, bases); r.Some? ==> BoardsKnown(s, t, r.value.0) && AllKnown(s, t, r.value.1)
  {
    hide AddFighter;
    if t.baseId in bases {
      var base, s' := bases[t.baseId], s.(next := s.next + 1);
      forall q: Player, j | 0 <= j < |s'.At(q)| ensures Known(s, t, s'.At(q)[j].survived) {
        IsOnBoards(s, q, j);
      }
      if t.side == Ally {
        AddKnown(s, t, s', t.p, t.i, NewFighter(base, t.isTriple, t.survived, s.next));
      } else {
        var rivals := s.At(Other(t.p));
        if rivals != [] {
          IsOnBoards(s, Other(t.p), |rivals| - 1);
        }
        var inherited := if rivals == [] then 0 else rivals[|rivals| - 1].survived;
        AddKnown(s, t, s', Other(t.p), |rivals|, NewFighter(base, t.isTriple, inherited, s.next));
      }
    }
  }

  lemma PutKnown(s: State, t: Task, p: Player, i: nat, e: Fighter, s': State)
    requires i < |s.At(p)| && e.survived == s.At(p)[i].survived
    requires s'.At(p) == s.At(p)[i := e] && s'.At(Other(p)) == s.At(Other(p))
    ensures BoardsKnown(s, t, s')
  {
    forall q: Player, j | 0 <= j < |s'.At(q)| ensures Known(s, t, s'.At(q)[j].survived) {
      assert q == p || q == Other(p);
      assert s'.At(q)[j].survived == s.At(q)[j].survived;
      IsOnBoards(s, q, j);
    }
  }

  lemma RetireKnown(s0: State, s: State, p: Player, i: nat, t: Task)
    requires i < |s.At(p)| && s0.zero == s.zero && s0.one == s.one
    ensures BoardsKnown(s0, t, Retire(s, p, i).0) && AllKnown(s0, t, Retire(s, p, i).1)
  {
    var e, s' := s.At(p)[i], Retire(s, p, i).0;
    IsOnBoards(s0, p, i);
    var own := RetireTasks(BattleOf(e.attr.abilities), p, i, Some(e), false);
    RetireHands(BattleOf(e.attr.abilities), p, i, Some(e), false);
    var tail := [RetireAllies(p, i, e), RetireRivals(p, e)];
    assert tail[1..] == [RetireRivals(p, e)] && Tokens(tail[1..]) == 0;
    TokensAppend(own, tail);
    forall t' | t' in own + tail ensures Known(s0, t, Carried(t')) {
      assert Carried(t') <= e.survived;
    }
    forall q: Player, j | 0 <= j < |s'.At(q)| ensures Known(s0, t, s'.At(q)[j].survived) {
      var j' := if q == p && j >= i then j + 1 else j;
      assert s'.At(q)[j] == s0.At(q)[j'];
      IsOnBoards(s0, q, j');
    }
  }

  lemma LoseShieldKnown(s: State, t: Task, k: nat)
    requires t.DamageAt? && t.i < |s.At(t.p)| && k < |s.At(t.p)[t.i].attr.abilities|
    ensures var r := LoseShield(s, t.p, t.i, k, t.counted); BoardsKnown(s, t, r.0) && AllKnown(s, t, r.1)
  {
    hide BoardsKnown;
    var s' := LoseShield(s, t.p, t.i, k, t.counted).0;
    var reactions := React(OnShieldLost, BoardAbilities(s'.At(t.p), 0), t.p, t.i, s'.At(t.p)[t.i]);
    PutKnown(s, t, t.p, t.i, s'.At(t.p)[t.i], s');
    ReactHands(OnShieldLost, BoardAbilities(s'.At(t.p), 0), t.p, t.i, s'.At(t.p)[t.i]);
    TokensAppend(reactions, CountTask(t.p, t.i, t.counted));
  }

  lemma CountTaskKnown(s: State, t: Task)
    requires t.DamageAt?
    ensures AllKnown(s, t, CountTask(t.p, t.i, t.counted))
  {
    assert [CountSurvived(t.p, t.i)][1..] == [];
  }

  lemma DamageKnown(s: State, t: Task, bases: Bases)
    requires t.DamageAt?
    ensures var r := Step(s, t, bases); r.Some? ==> BoardsKnown(s, t, r.value.0) && AllKnown(s, t, r.value.1)
  {
    hide BoardsKnown;
    hide AllKnown;
    hide LoseShield;
    hide Retire;
    var r := Step(s, t, bases);
    if r.Some? {
      var p, i, s' := t.p, t.i, r.value.0;
      var e := s.At(p)[i];
      var k := IndexOfAbility(e.attr.abilities, SHIELD);
      var health := Less16(e.attr.health, t.damage);
      CountTaskKnown(s, t);
      if k.Some? {
        LoseShieldKnown(s, t, k.value);
      } else if t.damage == 0 {
        BoardsAreKnown(s, t);
      } else if health == 0 {
        RetireKnown(s, s.Logged(Damage(p, i, t.damage, health)), p, i, t);
      } else {
        PutKnown(s, t, p, i, s'.At(p)[i], s');
      }
    }
  }

  lemma KnownIsBounded(s: State, t: Task, rest: seq<Task>, n: nat, tick: nat)
    requires Counted(s, [t] + rest, tick) && Known(s, t, n)
    ensures n + Token(t) + Tokens(rest) <= tick
  {
    assert ([t] + rest)[1..] == rest;
    assert t in [t] + rest;
    if OnBoards(s, n) {
      var p: Player, i :| 0 <= i < |s.At(p)| && n <= s.At(p)[i].survived;
      assert s.At(p)[i] in s.At(p);
    }
  }

  /** Whatever a step other than the count itself does, no counter outgrows the tick. */
  lemma KnownKeepsCounted(s: State, t: Task, s': State, more: seq<Task>, rest: seq<Task>, tick: nat)
    requires Counted(s, [t] + rest, tick) && BoardsKnown(s, t, s') && AllKnown(s, t, more)
    ensures Counted(s', more + rest, tick)
  {
    TokensAppend(more, rest);
    assert ([t] + rest)[1..] == rest;
    assert forall t' :: t' in rest ==> t' in [t] + rest;
    forall p: Player, e | e in s'.At(p) ensures e.survived + Tokens(more + rest) <= tick {
      var i :| 0 <= i < |s'.At(p)| && s'.At(p)[i] == e;
      KnownIsBounded(s, t, rest, e.survived, tick);
    }
    assert s'.zero == s'.At(Zero) && s'.one == s'.At(One);
    forall t' | t' in more ensures Carried(t') + Tokens(more + rest) <= tick {
      KnownIsBounded(s, t, rest, Carried(t'), tick);
    }
  }

  lemma CountKeepsCounted(s: State, p: Player, i: nat, rest: seq<Task>, tick: nat)
    requires Counted(s, [CountSurvived(p, i)] + rest, tick) && i < |s.At(p)|
    ensures Counted(CountFighter(s, p, i).value, [] + rest, tick)
    ensures s.At(p)[i].survived < tick
  {
    var t := CountSurvived(p, i);
    assert ([t] + rest)[1..] == rest && [] + rest == rest;
    assert Tokens([t] + rest) == 1 + Tokens(rest);
    hide Tokens;
    hide Carried;
    var e := s.At(p)[i];
    assert e in s.At(p);
    var s' := CountFighter(s, p, i).value;
    assert forall x :: x in s'.At(p) ==> x in s.At(p) || x == e.(survived := e.survived + 1);
    assert s'.At(Other(p)) == s.At(Other(p));
    assert forall x :: x in rest ==> x in [t] + rest;
  }

  lemma PlainKnown(s: State, t: Task, bases: Bases)
    requires t.RaiseAt? || t.LowerAt? || t.GrantAt?
    ensures var r := Step(s, t, bases); r.Some? ==> BoardsKnown(s, t, r.value.0) && AllKnown(s, t, r.value.1)
  {
    var r := Step(s, t, bases);
    if r.Some? {
      if r.value.0 == s {
        BoardsAreKnown(s, t);
      } else {
        PutKnown(s, t, t.p, t.i, r.value.0.At(t.p)[t.i], r.value.0);
      }
    }
  }

  lemma StepCounted(s: State, t: Task, rest: seq<Task>, bases: Bases, tick: nat)
    requires Counted(s, [t] + rest, tick)
    ensures var r := Step(s, t, bases); r.Some? ==> Counted(r.value.0, r.value.1 + rest, tick)
  {
    var r := Step(s, t, bases);
    if r.Some? {
      var (s', more) := r.value;
      if t.CountSurvived? {
        CountKeepsCounted(s, t.p, t.i, rest, tick);
      } else {
        StepKnown(s, t, bases);
        KnownKeepsCounted(s, t, s', more, rest, tick);
      }
    }
  }

  lemma SpreadOnlyKnown(s: State, t: Task, bases: Bases)
    requires !Rewrites(t)
    ensures var r := Step(s, t, bases); r.Some? ==> BoardsKnown(s, t, r.value.0) && AllKnown(s, t, r.value.1)
  {
    var r := Step(s, t, bases);
    if r.Some? {
      StepFrame(s, t, bases);
      forall q: Player, j | 0 <= j < |r.value.0.At(q)| ensures Known(s, t, r.value.0.At(q)[j].survived) {
        IsOnBoards(s, q, j);
      }
      if t.Act? {
        SpreadActKnown(s, t.p, t.action, t.i, t.retired, t.isTriple);
      } else {
        SpreadKnown(s, t);
      }
    }
  }

  lemma StepKnown(s: State, t: Task, bases: Bases)
    requires !t.CountSurvived?
    ensures var r := Step(s, t, bases); r.Some? ==> BoardsKnown(s, t, r.value.0) && AllKnown(s, t, r.value.1)
  {
    hide AllKnown;
    hide BoardsKnown;
    if !Rewrites(t) {
      SpreadOnlyKnown(s, t, bases);
    } else if t.SetEmo? {
      SetKnown(s, t, bases);
    } else if t.DamageAt? {
      DamageKnown(s, t, bases);
    } else {
      PlainKnown(s, t, bases);
    }
  }

  /** Within a tick no emo, standing or spawned, has counted more attacks than the tick's number;
      so with at most 255 ticks the u8 counter never overflows. */
  lemma AlwaysCounted(ts: seq<Task>, s: State, k: nat, bases: Bases, tick: nat)
    requires Counted(s, ts, tick)
    ensures var r := Point(ts, s, k, bases); r.Some? ==> Counted(r.value.0, r.value.1, tick)
  {
    hide Battle.Step;
    hide Battle.Eval;
    hide Battle.Point;
    var inv := (s1: State, ts1: seq<Task>) => Counted(s1, ts1, tick);
    forall s1, t, rest | inv(s1, [t] + rest) && Step(s1, t, bases).Some?
      ensures inv(Step(s1, t, bases).value.0, Step(s1, t, bases).value.1 + rest)
    {
      StepCounted(s1, t, rest, bases, tick);
    }
    EveryPoint(inv, ts, s, k, bases);
  }
}
