/** Without stratification a cascade can run for ever, and with it a march between two legal boards. */
module BattleEndless {
  import opened Types
  import opened Rng
  import opened Battle
  import opened BattleLaws
  import opened March
  import Organizer
  import OrganizerLaws

  const SPAWN_AGAIN := BattleAction.Spawn(Ally, 0)
  const HIT_ALLIES := DamageAll(Ally, 1)

  /** An emo whose retirement spawns its own kind and then damages it. */
  const ETERNAL: Base := Base(0, Human, 1, 0, 1, [Ability.Battle(GeneralSelf(AtRetire, SPAWN_AGAIN)),
                                                  Ability.Battle(GeneralSelf(AtRetire, HIT_ALLIES))])

  lemma EternalAbilities()
    ensures var abilities := ETERNAL.abilities;
            && BattleOf(abilities) == [GeneralSelf(AtRetire, SPAWN_AGAIN)] + [GeneralSelf(AtRetire, HIT_ALLIES)]
            && IndexOfAbility(abilities, SHIELD).None?
  {
    var abilities := ETERNAL.abilities;
    assert BattleOf(abilities[1..]) == [GeneralSelf(AtRetire, HIT_ALLIES)] by {
      assert abilities[1..][1..] == [];
    }
  }

  lemma EternalRetires(e: Fighter)
    requires e.attr == BuildAttributes(ETERNAL, false)
    ensures RetireTasks(BattleOf(e.attr.abilities), Zero, 0, Some(e), false)
         == [ActAsOneself(Zero, SPAWN_AGAIN, 0, Some(e))] + [ActAsOneself(Zero, HIT_ALLIES, 0, Some(e))]
  {
    EternalAbilities();
    var first, second := ActAsOneself(Zero, SPAWN_AGAIN, 0, Some(e)), ActAsOneself(Zero, HIT_ALLIES, 0, Some(e));
    var own := BattleOf(e.attr.abilities);
    assert own[1..] == [GeneralSelf(AtRetire, HIT_ALLIES)];
    assert Repeat(first, 1) == [first] && Repeat(second, 1) == [second];
    assert RetireTasks(own[1..], Zero, 0, Some(e), false) == [second];
  }

  lemma EternalActs(e: Fighter, s: State)
    requires e.attr == BuildAttributes(ETERNAL, false) && e.baseId == 0 && s.zero == [e]
    ensures Step(s, DamageAt(Zero, 0, 1, false), map[0 := ETERNAL])
         == Some((s.(zero := [], logs := s.logs + [Damage(Zero, 0, 1, 0)] + [Remove(Zero, 0)]),
                  [ActAsOneself(Zero, SPAWN_AGAIN, 0, Some(e)), ActAsOneself(Zero, HIT_ALLIES, 0, Some(e)),
                   RetireAllies(Zero, 0, e), RetireRivals(Zero, e)]))
  {
    hide RetireTasks;
    hide BattleOf;
    EternalAbilities();
    EternalRetires(e);
    var hit := s.Logged(Damage(Zero, 0, 1, 0));
    assert hit.zero[..0] + hit.zero[1..] == [];
    var first, second := ActAsOneself(Zero, SPAWN_AGAIN, 0, Some(e)), ActAsOneself(Zero, HIT_ALLIES, 0, Some(e));
    assert Retire(hit, Zero, 0).1 == [first, second, RetireAllies(Zero, 0, e), RetireRivals(Zero, e)];
    assert Retire(hit, Zero, 0).0 == s.(zero := [], logs := s.logs + [Damage(Zero, 0, 1, 0)] + [Remove(Zero, 0)]);
    assert DamageFighter(s, Zero, 0, 1, false) == Some(Retire(hit, Zero, 0));
  }

  lemma EternalReturns(s: State, survived: nat)
    requires s.zero == []
    ensures (var e' := NewFighter(ETERNAL, false, survived, s.next);
             Step(s, Task.SetEmo(Zero, 0, 0, false, survived, Ally), map[0 := ETERNAL])
             == Some((s.(zero := [e'], next := s.next + 1, logs := s.logs + [Add(Zero, 0, 0, e'.attr)]), [])))
  {
    EternalAbilities();
    var e' := NewFighter(ETERNAL, false, survived, s.next);
    assert s.zero[..0] + [e'] + s.zero[0..] == [e'];
    var first, second := (0, GeneralSelf(AtRetire, SPAWN_AGAIN)), (0, GeneralSelf(AtRetire, HIT_ALLIES));
    var own := BattleOf(e'.attr.abilities);
    assert own[1..] == [second.1];
    assert Numbered(own[1..], 0) == [second];
    assert [e'][1..] == [] && BoardAbilities([e'], 0) == [first] + [second];
    assert ([first] + [second])[1..] == [second];
    assert React(AllySet, [second], Zero, 0, e') == [];
  }

  /** One round of the table: seven steps later the same damage is due again, with more pending. */
  lemma EternalRound(e: Fighter, s: State, rest: seq<Task>, n: nat) returns (again: Fighter, after: State, more: seq<Task>)
    requires e.attr == BuildAttributes(ETERNAL, false) && e.baseId == 0 && s.zero == [e] && n >= 7
    ensures again.attr == BuildAttributes(ETERNAL, false) && again.baseId == 0 && after.zero == [again]
    ensures Eval([DamageAt(Zero, 0, 1, false)] + rest, s, n, map[0 := ETERNAL])
         == Eval([DamageAt(Zero, 0, 1, false)] + more, after, n - 7, map[0 := ETERNAL])
  {
    hide Eval;
    hide SetFighter;
    hide DamageFighter;
    assert !e.attr.isTriple;
    hide BuildAttributes;
    var bases, damage := map[0 := ETERNAL], DamageAt(Zero, 0, 1, false);
    more := [RetireAllies(Zero, 0, e), RetireRivals(Zero, e)] + rest;
    var spawn, hit := ActAsOneself(Zero, SPAWN_AGAIN, 0, Some(e)), ActAsOneself(Zero, HIT_ALLIES, 0, Some(e));
    var s1 := s.(zero := [], logs := s.logs + [Damage(Zero, 0, 1, 0)] + [Remove(Zero, 0)]);
    again := NewFighter(ETERNAL, false, e.survived, s.next);
    after := s1.(zero := [again], next := s.next + 1, logs := s1.logs + [Add(Zero, 0, 0, again.attr)]);
    var act := Act(Zero, SPAWN_AGAIN, 0, Some(e), e.attr.isTriple);
    var setEmo := Task.SetEmo(Zero, 0, 0, e.attr.isTriple, e.survived, Ally);
    var actHit := Act(Zero, HIT_ALLIES, 0, Some(e), e.attr.isTriple);
    var damageId := DamageId(Zero, again.id, 1);
    EternalActs(e, s);
    Unfold(damage, rest, s, n, bases, s1, [spawn, hit, RetireAllies(Zero, 0, e), RetireRivals(Zero, e)]);
    assert [spawn, hit, RetireAllies(Zero, 0, e), RetireRivals(Zero, e)] + rest == [spawn] + ([hit] + more);
    Unfold(spawn, [hit] + more, s1, n - 1, bases, s1, [act]);
    Unfold(act, [hit] + more, s1, n - 2, bases, s1, [setEmo]);
    EternalReturns(s1, e.survived);
    Unfold(setEmo, [hit] + more, s1, n - 3, bases, after, []);
    assert [] + ([hit] + more) == [hit] + more;
    Unfold(hit, more, after, n - 4, bases, after, [actHit]);
    assert Ids(after.zero) == [again.id];
    assert DamageTasks(Zero, [again.id], 1) == [damageId];
    Unfold(actHit, more, after, n - 5, bases, after, [damageId]);
    Unfold(damageId, more, after, n - 6, bases, after, [damage]);
  }

  lemma {:induction false} EndlessRounds(e: Fighter, s: State, rest: seq<Task>, rounds: nat)
    requires e.attr == BuildAttributes(ETERNAL, false) && e.baseId == 0 && s.zero == [e]
    ensures Eval([DamageAt(Zero, 0, 1, false)] + rest, s, 7 * rounds, map[0 := ETERNAL]) == Running
    decreases rounds
  {
    hide Step;
    if rounds > 0 {
      var again, after, more := EternalRound(e, s, rest, 7 * rounds);
      EndlessRounds(again, after, more, rounds - 1);
    }
  }

  lemma EndlessWith(e: Fighter, s: State, rest: seq<Task>, n: nat)
    requires e.attr == BuildAttributes(ETERNAL, false) && e.baseId == 0 && s.zero == [e]
    ensures Eval([DamageAt(Zero, 0, 1, false)] + rest, s, n, map[0 := ETERNAL]) == Running
  {
    hide Step;
    hide Eval;
    EndlessRounds(e, s, rest, n);
    MoreBudget([DamageAt(Zero, 0, 1, false)] + rest, s, n, 6 * n, map[0 := ETERNAL]);
  }

  /** Over this table there is a cascade that no budget finishes. */
  lemma Endless(e: Fighter, s: State, n: nat)
    requires e.attr == BuildAttributes(ETERNAL, false) && e.baseId == 0 && s.zero == [e]
    ensures Eval([DamageAt(Zero, 0, 1, false)], s, n, map[0 := ETERNAL]) == Running
  {
    hide Step;
    hide Eval;
    EndlessWith(e, s, [], n);
    assert [DamageAt(Zero, 0, 1, false)] + [] == [DamageAt(Zero, 0, 1, false)];
  }

  // ----- a march that never ends -----

  /** The attributes of the emo, once plain and once with one more attack. */
  const PLAIN: Attributes := BuildAttributes(ETERNAL, false)
  const RAISED: Attributes := PLAIN.(attack := 1)

  lemma NothingBefore(e: Fighter, p: Player)
    requires e.attr.abilities == ETERNAL.abilities
    ensures PreTasks(BoardAbilities([e], 0), p) == []
  {
    EternalAbilities();
    var first, second := (0, GeneralSelf(AtRetire, SPAWN_AGAIN)), (0, GeneralSelf(AtRetire, HIT_ALLIES));
    var own := BattleOf(e.attr.abilities);
    assert own[1..] == [second.1];
    assert Numbered(own[1..], 0) == [second];
    assert [e][1..] == [] && BoardAbilities([e], 0) == [first] + [second];
    assert ([first] + [second])[1..] == [second];
    assert PreTasks([second], p) == [];
  }

  /** A hit that counts kills the emo like one that does not. */
  lemma EndlessStrike(e: Fighter, s: State, n: nat)
    requires e.attr == PLAIN && e.baseId == 0 && s.zero == [e]
    ensures Eval([StrikeBack(Zero, 0, 1)], s, n, map[0 := ETERNAL]) == Running
  {
    var bases, strike := map[0 := ETERNAL], StrikeBack(Zero, 0, 1);
    var counted, plain := DamageAt(Zero, 0, 1, true), DamageAt(Zero, 0, 1, false);
    if n >= 2 {
      EternalAbilities();
      assert Step(s, counted, bases) == Step(s, plain, bases);
      assert Step(s, strike, bases) == Some((s, [counted]));
      hide Step;
      assert [strike] + [] == [strike] && [counted] + [] == [counted] && [plain] + [] == [plain];
      Unfold(strike, [], s, n, bases, s, [counted]);
      EndlessWith(e, s, [], n - 1);
    }
  }

  lemma FirstAttack(s: State, e: Fighter, k: Fighter, first: Player)
    requires e.attr == PLAIN && s.zero == [e] && k.attr == RAISED && s.one == [k]
    ensures var r := AttackTasks(s, first);
            && r.Some? && r.value.0.zero == [e] && r.value.0.one == [k]
            && r.value.1 == if first == One then [DamageAt(Zero, 0, 1, false)] + [StrikeBack(One, 0, 0)]
                            else [DamageAt(One, 0, 0, false)] + [StrikeBack(Zero, 0, 1)]
  {
    hide HasSpecial;
    hide AttractiveIndexes;
    hide LowestIndexes;
  }

  lemma Missed(s: State, k: Fighter, bases: Bases)
    requires s.one == [k] && k.attr == RAISED
    ensures Step(s, DamageAt(One, 0, 0, false), bases) == Some((s, []))
  {
    EternalAbilities();
  }

  /** Whoever attacks first, the first attack sets the cascade off. */
  lemma EndlessAttack(s: State, e: Fighter, k: Fighter, first: Player, n: nat)
    requires e.attr == PLAIN && e.baseId == 0 && s.zero == [e] && k.attr == RAISED && s.one == [k]
    ensures AttackOnce(s, 1, first, n, map[0 := ETERNAL]) == Running
  {
    hide AttackTasks;
    hide Step;
    hide Eval;
    var bases := map[0 := ETERNAL];
    FirstAttack(s, e, k, first);
    var s' := AttackTasks(s, first).value.0;
    if first == One {
      EndlessWith(e, s', [StrikeBack(One, 0, 0)], n);
    } else {
      var miss, strike := DamageAt(One, 0, 0, false), StrikeBack(Zero, 0, 1);
      if n > 0 {
        Missed(s', k, bases);
        Unfold(miss, [strike], s', n, bases, s', []);
        assert [] + [strike] == [strike];
        EndlessStrike(e, s', n - 1);
      } else {
        NoBudget([miss] + [strike], s', bases);
      }
    }
  }

  lemma NoBudget(ts: seq<Task>, s: State, bases: Bases)
    requires ts != []
    ensures Eval(ts, s, 0, bases) == Running
  {
  }

  lemma EndlessMarch(s: State, e: Fighter, k: Fighter, n: nat)
    requires e.attr == PLAIN && e.baseId == 0 && s.zero == [e] && k.attr == RAISED && s.one == [k]
    ensures MarchResult(s, n, map[0 := ETERNAL]) == MRunning
  {
    hide AttackOnce;
    hide BoardAbilities;
    hide PreTasks;
    var (first, s1) := FirstAttacker(s);
    NothingBefore(e, Zero);
    NothingBefore(k, One);
    assert CallPre(s1, first, n, map[0 := ETERNAL]) == Done(s1, n);
    assert CallPre(s1, Other(first), n, map[0 := ETERNAL]) == Done(s1, n);
    EndlessAttack(s1, e, k, first, n);
  }

  lemma OneFighter(attr: Attributes, first: nat)
    ensures Organizer.Fighters([GhostEmo(0, attr)], first, map[0 := ETERNAL]) == Some([Fighter(first % 0x1_0000, 0, Human, attr, 0)])
  {
    var board := [GhostEmo(0, attr)];
    assert board[1..] == [];
    assert Organizer.Fighters(board[1..], first + 1, map[0 := ETERNAL]) == Some([]);
    var e := Fighter(first % 0x1_0000, 0, Human, attr, 0);
    assert [e] + [] == [e];
  }

  /** The restriction is needed: over this well-formed table two legal boards meet in a march that no budget finishes,
      whatever the generator picks. */
  lemma EndlessFight(tape: Tape, first: nat, n: nat)
    ensures var bases, zero, one := map[0 := ETERNAL], [GhostEmo(0, PLAIN)], [GhostEmo(0, RAISED)];
            && WellFormed(bases) && OrganizerLaws.LegalBoard(zero, bases) && OrganizerLaws.LegalBoard(one, bases)
            && var f0, f1 := Organizer.Fighters(zero, first, bases), Organizer.Fighters(one, first + 1, bases);
               && f0.Some? && f1.Some?
               && MarchResult(State(f0.value, f1.value, [], first + 2, tape), n, bases) == MRunning
               && Organizer.Fight(zero, one, tape, first, n, bases) == None
  {
    hide MarchResult;
    var bases, zero, one := map[0 := ETERNAL], [GhostEmo(0, PLAIN)], [GhostEmo(0, RAISED)];
    var e := Fighter(first % 0x1_0000, 0, Human, PLAIN, 0);
    var k := Fighter((first + 1) % 0x1_0000, 0, Human, RAISED, 0);
    OneFighter(PLAIN, first);
    OneFighter(RAISED, first + 1);
    EndlessMarch(State([e], [k], [], first + 2, tape), e, k, n);
  }
}
