/** Setting up a match: the player's pool of cards. */
module Setup {
  import opened Types

  const PLAYER_INITIAL_HEALTH: U8 := 30

  function PoolCount(grade: U8): Option<nat> {
    match grade
    case 1 => Some(7)
    case 2 => Some(6)
    case 3 => Some(6)
    case 4 => Some(5)
    case 5 => Some(5)
    case 6 => Some(4)
    case _ => None
  }

  // ----- the six bases the player selects -----

  /** Six selected bases of the allow-list, no two of one grade. */
  ghost predicate LegalSelection(selected: seq<U16>, bases: Bases, allowed: seq<U16>) {
    && |selected| == 6
    && (forall i :: 0 <= i < 6 ==> selected[i] in bases && bases[selected[i]].id in allowed)
    && (forall i, j :: 0 <= i < j < 6 ==> bases[selected[i]].grade != bases[selected[j]].grade)
  }

  function IdsOf(selected: seq<U16>, bases: Bases): seq<U16>
    requires forall i :: 0 <= i < |selected| ==> selected[i] in bases
  {
    seq(|selected|, i requires 0 <= i < |selected| => bases[selected[i]].id)
  }

  method BuildBuiltBaseIds(selected: seq<U16>, bases: Bases, allowed: seq<U16>) returns (r: Option<seq<U16>>)
    ensures r.Some? <==> LegalSelection(selected, bases, allowed)
    ensures r.Some? ==> r.value == IdsOf(selected, bases)
  {
    if |selected| != 6 {
      return None;
    }
    var baseIds: seq<U16> := [];
    var usedGrades: seq<U8> := [];
    for i := 0 to |selected|
      invariant |baseIds| == i && |usedGrades| == i
      invariant forall k :: 0 <= k < i ==>
        && selected[k] in bases && bases[selected[k]].id in allowed
        && baseIds[k] == bases[selected[k]].id && usedGrades[k] == bases[selected[k]].grade
      invariant forall k, m :: 0 <= k < m < i ==> usedGrades[k] != usedGrades[m]
    {
      if selected[i] !in bases {
        return None;
      }
      var base := bases[selected[i]];
      if base.id !in allowed {
        return None;
      }
      if base.grade in usedGrades {
        return None;
      }
      baseIds := baseIds + [base.id];
      usedGrades := usedGrades + [base.grade];
    }
    assert baseIds == IdsOf(selected, bases);
    return Some(baseIds);
  }

  function Selected(selected: seq<U16>, bases: Bases, allowed: seq<U16>): (r: Option<seq<U16>>)
    ensures r.Some? <==> LegalSelection(selected, bases, allowed)
    ensures r.Some? ==> r.value == IdsOf(selected, bases)
  {
    if |selected| == 6 && (forall i :: 0 <= i < 6 ==> selected[i] in bases && bases[selected[i]].id in allowed)
       && (forall i, j :: 0 <= i < j < 6 ==> bases[selected[i]].grade != bases[selected[j]].grade)
    then Some(IdsOf(selected, bases)) else None
  }

  // ----- the pool -----

  function Copies(baseId: U16, first: nat, count: nat): seq<Card>
    requires first + count <= U16_MAX
  {
    seq(count, i requires 0 <= i < count => Card(first + i, baseId))
  }

  /** The cards of these bases, numbered from `first`; None when a base or a grade is unknown or the numbers run out. */
  function Deck(baseIds: seq<U16>, bases: Bases, first: nat): Option<seq<Card>> {
    if baseIds == [] then Some([])
    else
      var base :- Find(bases, baseIds[0]);
      var count :- PoolCount(base.grade);
      if first + count > U16_MAX then None
      else
        var rest :- Deck(baseIds[1..], bases, first + count);
        Some(Copies(base.id, first, count) + rest)
  }

  function Pool(selected: seq<U16>, bases: Bases, fixed: seq<U16>, allowed: seq<U16>): Option<seq<Card>> {
    var baseIds :- Selected(selected, bases, allowed);
    Deck(baseIds + fixed, bases, 1)
  }

  lemma {:induction false} DeckAppend(a: seq<U16>, b: U16, bases: Bases, first: nat)
    ensures var r := Deck(a, bases, first);
            Deck(a + [b], bases, first)
            == if r.None? || b !in bases || PoolCount(bases[b].grade).None?
                  || first + |r.value| + PoolCount(bases[b].grade).value > U16_MAX then None
               else Some(r.value + Copies(bases[b].id, first + |r.value|, PoolCount(bases[b].grade).value))
  {
    if a == [] {
      assert a + [b] == [b] && [b][1..] == [];
      if b in bases && PoolCount(bases[b].grade).Some? && first + PoolCount(bases[b].grade).value <= U16_MAX {
        var c := Copies(bases[b].id, first, PoolCount(bases[b].grade).value);
        assert c + [] == [] + c;
      }
    } else {
      assert (a + [b])[1..] == a[1..] + [b] && (a + [b])[0] == a[0];
      if a[0] in bases && PoolCount(bases[a[0]].grade).Some? && first + PoolCount(bases[a[0]].grade).value <= U16_MAX {
        var n := PoolCount(bases[a[0]].grade).value;
        DeckAppend(a[1..], b, bases, first + n);
        var rest := Deck(a[1..], bases, first + n);
        if rest.Some? && Deck(a[1..] + [b], bases, first + n).Some? {
          var head := Copies(bases[a[0]].id, first, n);
          var last := Copies(bases[b].id, first + n + |rest.value|, PoolCount(bases[b].grade).value);
          assert head + (rest.value + last) == (head + rest.value) + last;
        }
      }
    }
  }

  lemma {:induction false} NoDeck(a: seq<U16>, i: nat, bases: Bases, first: nat)
    requires i <= |a| && Deck(a[..i], bases, first).None?
    ensures Deck(a, bases, first).None?
    decreases |a| - i
  {
    if i < |a| {
      DeckAppend(a[..i], a[i], bases, first);
      assert a[..i + 1] == a[..i] + [a[i]];
      NoDeck(a, i + 1, bases, first);
    } else {
      assert a[..i] == a;
    }
  }

  method BuildPool(selected: seq<U16>, bases: Bases, fixed: seq<U16>, allowed: seq<U16>) returns (r: Option<seq<Card>>)
    ensures r == Pool(selected, bases, fixed, allowed)
  {
    var built := BuildBuiltBaseIds(selected, bases, allowed);
    if built.None? {
      return None;
    }
    var baseIds := built.value + fixed;
    var nextId: nat := 1;
    var deck: seq<Card> := [];
    for i := 0 to |baseIds|
      invariant Deck(baseIds[..i], bases, 1) == Some(deck) && nextId == 1 + |deck| <= U16_MAX
    {
      DeckAppend(baseIds[..i], baseIds[i], bases, 1);
      assert baseIds[..i + 1] == baseIds[..i] + [baseIds[i]];
      if baseIds[i] !in bases || PoolCount(bases[baseIds[i]].grade).None? {
        NoDeck(baseIds, i + 1, bases, 1);
        return None;
      }
      var base := bases[baseIds[i]];
      var count := PoolCount(base.grade).value;
      ghost var before := deck;
      for k := 0 to count
        invariant nextId == 1 + |deck| <= U16_MAX && |deck| == |before| + k
        invariant deck == before + Copies(base.id, 1 + |before|, k)
      {
        if nextId == U16_MAX {
          NoDeck(baseIds, i + 1, bases, 1);
          return None;
        }
        deck := deck + [Card(nextId, base.id)];
        nextId := nextId + 1;
      }
    }
    assert baseIds[..|baseIds|] == baseIds;
    return Some(deck);
  }

  // ----- what every pool is -----

  function CountOf(deck: seq<Card>, baseId: U16): nat {
    if deck == [] then 0 else (if deck[0].baseId == baseId then 1 else 0) + CountOf(deck[1..], baseId)
  }

  function Times(baseIds: seq<U16>, baseId: U16): nat {
    if baseIds == [] then 0 else (if baseIds[0] == baseId then 1 else 0) + Times(baseIds[1..], baseId)
  }

  lemma {:induction false} CountAppend(a: seq<Card>, b: seq<Card>, baseId: U16)
    ensures CountOf(a + b, baseId) == CountOf(a, baseId) + CountOf(b, baseId)
  {
    if a == [] {
      assert a + b == b;
    } else {
      assert (a + b)[1..] == a[1..] + b;
      CountAppend(a[1..], b, baseId);
    }
  }

  lemma {:induction false} CountCopies(id: U16, first: nat, count: nat, baseId: U16)
    requires first + count <= U16_MAX
    ensures CountOf(Copies(id, first, count), baseId) == if id == baseId then count else 0
    decreases count
  {
    if count > 0 {
      CountCopies(id, first + 1, count - 1, baseId);
      assert Copies(id, first, count)[1..] == Copies(id, first + 1, count - 1);
    }
  }

  ghost predicate Numbered(deck: seq<Card>, first: nat, baseIds: seq<U16>) {
    forall i :: 0 <= i < |deck| ==> deck[i].id == first + i && deck[i].baseId in baseIds
  }

  lemma NumberedMore(baseIds: seq<U16>, first: nat, count: nat, rest: seq<Card>)
    requires baseIds != [] && first + count <= U16_MAX && Numbered(rest, first + count, baseIds[1..])
    ensures Numbered(Copies(baseIds[0], first, count) + rest, first, baseIds)
  {
    var deck := Copies(baseIds[0], first, count) + rest;
    forall i | 0 <= i < |deck| ensures deck[i].id == first + i && deck[i].baseId in baseIds {
      if i < count {
        assert deck[i] == Copies(baseIds[0], first, count)[i];
      } else {
        assert deck[i] == rest[i - count];
        assert rest[i - count].baseId in baseIds[1..];
      }
    }
  }

  /** Ids count up without a gap, and a base listed once has the number of cards its grade gives. */
  lemma {:induction false} DeckIsRegular(baseIds: seq<U16>, bases: Bases, first: nat, baseId: U16)
    requires WellFormed(bases)
    ensures var r := Deck(baseIds, bases, first);
            r.Some? ==> Numbered(r.value, first, baseIds)
                        && (baseId in bases ==> CountOf(r.value, baseId) == Times(baseIds, baseId) * PoolCount(bases[baseId].grade).value)
  {
    var r := Deck(baseIds, bases, first);
    if r.Some? && baseIds != [] {
      hide Numbered;
      hide Copies;
      var base := bases[baseIds[0]];
      var count := PoolCount(base.grade).value;
      DeckIsRegular(baseIds[1..], bases, first + count, baseId);
      var rest := Deck(baseIds[1..], bases, first + count).value;
      CountAppend(Copies(base.id, first, count), rest, baseId);
      CountCopies(base.id, first, count, baseId);
      NumberedMore(baseIds, first, count, rest);
      if baseId in bases {
        OneMoreTime(Times(baseIds[1..], baseId), PoolCount(bases[baseId].grade).value);
      }
    }
  }

  lemma OneMoreTime(times: nat, count: nat)
    ensures (1 + times) * count == count + times * count
  {
  }

  lemma {:induction false} TimesAtLeastOne(baseIds: seq<U16>, i: nat)
    requires i < |baseIds|
    ensures Times(baseIds, baseIds[i]) >= 1
  {
    if i > 0 {
      TimesAtLeastOne(baseIds[1..], i - 1);
    }
  }

  /** A pool names no id twice, and every grade of 1 to 6 has at least the cards of the selected base of that grade. */
  lemma PoolIsRegular(selected: seq<U16>, bases: Bases, fixed: seq<U16>, allowed: seq<U16>, i: nat)
    requires WellFormed(bases) && i < 6
    ensures var r := Pool(selected, bases, fixed, allowed);
            r.Some? ==> && LegalSelection(selected, bases, allowed)
                        && UniqueIds(r.value)
                        && CountOf(r.value, selected[i]) >= PoolCount(bases[selected[i]].grade).value
  {
    var r := Pool(selected, bases, fixed, allowed);
    if r.Some? {
      var baseIds := IdsOf(selected, bases) + fixed;
      DeckIsRegular(baseIds, bases, 1, selected[i]);
      assert baseIds[i] == selected[i];
      TimesAtLeastOne(baseIds, i);
      AtLeast(Times(baseIds, selected[i]), PoolCount(bases[selected[i]].grade).value);
      forall a, b | a in r.value && b in r.value && a.id == b.id ensures a == b {
        var x :| 0 <= x < |r.value| && r.value[x] == a;
        var y :| 0 <= y < |r.value| && r.value[y] == b;
        assert a.id == 1 + x && b.id == 1 + y;
      }
    }
  }

  lemma AtLeast(times: nat, count: nat)
    requires times >= 1
    ensures times * count >= count
  {
  }

  /** How many cards of a base of this grade come with each listing. */
  function CardsPerBase(grade: nat): nat { if grade == 1 then 7 else if grade <= 3 then 6 else if grade <= 5 then 5 else 4 }

  /** A pool has so many cards of every selected and every fixed base, and of no other one; its ids count up from one. */
  lemma PoolHolds(selected: seq<U16>, bases: Bases, fixed: seq<U16>, allowed: seq<U16>, baseId: U16)
    requires WellFormed(bases) && baseId in bases
    ensures var r := Pool(selected, bases, fixed, allowed);
            r.Some? ==> && LegalSelection(selected, bases, allowed)
                        && CountOf(r.value, baseId) == (Times(selected, baseId) + Times(fixed, baseId)) * CardsPerBase(bases[baseId].grade)
                        && forall i :: 0 <= i < |r.value| ==> r.value[i].id == 1 + i
  {
    var r := Pool(selected, bases, fixed, allowed);
    if r.Some? {
      assert IdsOf(selected, bases) == selected;
      DeckIsRegular(selected + fixed, bases, 1, baseId);
      TimesAppend(selected, fixed, baseId);
    }
  }

  lemma {:induction false} TimesAppend(a: seq<U16>, b: seq<U16>, baseId: U16)
    ensures Times(a + b, baseId) == Times(a, baseId) + Times(b, baseId)
  {
    if a == [] {
      assert a + b == b;
    } else {
      assert (a + b)[1..] == a[1..] + b;
      TimesAppend(a[1..], b, baseId);
    }
  }
}
