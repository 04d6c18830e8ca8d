/** What a merge takes off the board and what the triple takes over from its sources. */
module ShopTriples {
  import opened Types
  import opened Listing
  import opened Shop
  import opened ShopRun
  import opened ShopLaws
  import opened ShopReactions
  import opened ShopPlaces

  // ----- the sources -----

  function PlainOf(baseId: U16): (nat, ShopEmo) -> Option<ShopEmo> {
    (j: nat, e: ShopEmo) => if e.baseId == baseId && !e.attr.isTriple then Some(e) else None
  }

  function AllButPlainOf(baseId: U16): (nat, ShopEmo) -> Option<ShopEmo> {
    (j: nat, e: ShopEmo) => if e.baseId == baseId && !e.attr.isTriple then None else Some(e)
  }

  lemma {:induction false} CopiesAreRow(board: seq<ShopEmo>, k: nat, baseId: U16)
    requires k <= |board|
    ensures Copies(board[k..], baseId) == Row(board, k, 0, PlainOf(baseId))
    ensures WithoutCopies(board[k..], baseId) == Row(board, k, 0, AllButPlainOf(baseId))
    decreases |board| - k
  {
    if k < |board| {
      CopiesAreRow(board, k + 1, baseId);
      assert board[k..][1..] == board[k + 1..];
    }
  }

  lemma OneList<A, B>(items: seq<A>, f: (nat, A) -> Option<B>)
    ensures Collects(Row(items, 0, 0, f), [items], f)
  {
    assert Collect([items], 1, f) == [];
    assert Collect([items], 0, f) == Row(items, 0, 0, f);
    CollectCollects([items], f);
  }

  // ----- what they leave to the triple -----

  /** The sources may have an ability twice between them; what the base has they do not pass on. */
  function NotAmong(known: seq<Ability>): (nat, Ability) -> Option<Ability> {
    (j: nat, a: Ability) => if a in known then None else Some(a)
  }

  function Each(): (nat, U16) -> Option<U16> { (j: nat, card: U16) => Some(card) }

  function CardsOf(emos: seq<ShopEmo>): seq<seq<U16>> { seq(|emos|, j requires 0 <= j < |emos| => emos[j].cards) }

  lemma {:induction false} NotInIsRow(abilities: seq<Ability>, k: nat, j: nat, known: seq<Ability>)
    requires k <= |abilities|
    ensures NotIn(abilities[k..], known) == Row(abilities, k, j, NotAmong(known))
    decreases |abilities| - k
  {
    if k < |abilities| {
      NotInIsRow(abilities, k + 1, j, known);
      assert abilities[k..][1..] == abilities[k + 1..];
    }
  }

  lemma {:induction false} ExtrasAreCollected(sources: seq<ShopEmo>, j: nat, known: seq<Ability>)
    requires j <= |sources|
    ensures ExtraAbilities(sources[j..], known) == Collect(AbilitiesOf(sources), j, NotAmong(known))
    decreases |sources| - j
  {
    if j < |sources| {
      ExtrasAreCollected(sources, j + 1, known);
      var abilities := sources[j].attr.abilities;
      assert sources[j..][1..] == sources[j + 1..] && abilities[0..] == abilities;
      NotInIsRow(abilities, 0, j, known);
    }
  }

  lemma {:induction false} EachIsRow(cards: seq<U16>, k: nat, j: nat)
    requires k <= |cards|
    ensures Row(cards, k, j, Each()) == cards[k..]
    decreases |cards| - k
  {
    if k < |cards| {
      EachIsRow(cards, k + 1, j);
    }
  }

  lemma {:induction false} CardsAreCollected(sources: seq<ShopEmo>, j: nat)
    requires j <= |sources|
    ensures CardSeq(sources[j..]) == Collect(CardsOf(sources), j, Each())
    decreases |sources| - j
  {
    if j < |sources| {
      CardsAreCollected(sources, j + 1);
      assert sources[j..][1..] == sources[j + 1..] && sources[j].cards[0..] == sources[j].cards;
      EachIsRow(sources[j].cards, 0, j);
    }
  }

  /** What a triple has besides its stats: the abilities of its base and then, from the left, whatever else its sources had, and
      all their cards. */
  ghost predicate TakesOver(triple: ShopEmo, sources: seq<ShopEmo>, base: Base, extras: seq<Ability>) {
    && triple.baseId == base.id && triple.attr.isTriple && triple.attr.abilities == base.abilities + extras
    && Collects(extras, AbilitiesOf(sources), NotAmong(base.abilities)) && Collects(triple.cards, CardsOf(sources), Each())
  }

  lemma BuiltTripleTakesOver(sources: seq<ShopEmo>, base: Base, id: nat) returns (extras: seq<Ability>)
    ensures var r := BuildTriple(sources, base, id); r.Some? ==> TakesOver(r.value, sources, base, extras)
  {
    hide Collects;
    hide ExtraAbilities;
    hide CardSeq;
    extras := ExtraAbilities(sources, base.abilities);
    assert sources[0..] == sources;
    ExtrasAreCollected(sources, 0, base.abilities);
    CollectCollects(AbilitiesOf(sources), NotAmong(base.abilities));
    CardsAreCollected(sources, 0);
    CollectCollects(CardsOf(sources), Each());
  }

  lemma SplitsCopies(board: seq<ShopEmo>, baseId: U16)
    ensures Collects(Copies(board, baseId), [board], PlainOf(baseId))
    ensures Collects(WithoutCopies(board, baseId), [board], AllButPlainOf(baseId))
  {
    assert board[0..] == board;
    CopiesAreRow(board, 0, baseId);
    OneList(board, PlainOf(baseId));
    OneList(board, AllButPlainOf(baseId));
  }

  /** A merge is due: three plain copies of the base make a triple. All plain copies leave the board, which keeps its order; the
      triple stands behind `left`; five coins are earned; and the triple acts like any emo that comes in. */
  ghost predicate Merged(s: State, baseId: U16, sources: seq<ShopEmo>, rest: seq<ShopEmo>, left: seq<ShopEmo>, extras: seq<Ability>,
                         own: seq<Task>, s': State, ts: seq<Task>, bases: Bases)
  {
    var place := |left|;
    && baseId in bases && s'.earned == s.earned + 5 && s'.next == s.next + 1 && place <= |rest| && place < |s'.board|
    && var triple := s'.board[place];
       && s'.board == rest[..place] + [triple] + rest[place..] && triple.id == s.next
       && TakesOver(triple, sources, bases[baseId], extras)
       && ts == own + [AllySweep(s.next, bases[baseId].typ, true)]
       && Collects(own, [triple.attr.abilities], ByOneself(OnSet, OnBoard(s.next)))
  }

  lemma MergeIs(s: State, newId: nat, bases: Bases)
    returns (sources: seq<ShopEmo>, rest: seq<ShopEmo>, left: seq<ShopEmo>, extras: seq<Ability>, own: seq<Task>)
    requires WellFormed(bases) && IdsBelow(s)
    ensures var i, r := FindIndex(s.board, newId), MergeCopies(s, newId, bases);
            && (i.None? ==> r.None?)
            && (i.Some? ==>
                  var baseId := s.board[i.value].baseId;
                  && Collects(sources, [s.board], PlainOf(baseId)) && Collects(rest, [s.board], AllButPlainOf(baseId))
                  && Collects(left, [s.board[..i.value]], AllButPlainOf(baseId))
                  && (|sources| < 3 ==> r == Some((s, [])))
                  && (|sources| >= 3 && r.Some? ==>
                        Merged(s, baseId, sources, rest, left, extras, own, r.value.0, r.value.1, bases)))
  {
    hide Copies;
    hide WithoutCopies;
    hide BuildTriple;
    hide InsertEmo;
    hide Collects;
    sources, rest, left, extras, own := [], [], [], [], [];
    var i := FindIndex(s.board, newId);
    if i.Some? {
      var baseId := s.board[i.value].baseId;
      SplitsCopies(s.board, baseId);
      SplitsCopies(s.board[..i.value], baseId);
      sources, rest, left := Copies(s.board, baseId), WithoutCopies(s.board, baseId), WithoutCopies(s.board[..i.value], baseId);
      if |sources| >= 3 && MergeCopies(s, newId, bases).Some? {
        extras := BuiltTripleTakesOver(sources, bases[baseId], s.next);
        own := TripleActs(s, baseId, |left|, bases);
      }
    }
  }

  lemma TripleActs(s: State, baseId: U16, place: nat, bases: Bases) returns (own: seq<Task>)
    requires WellFormed(bases) && IdsBelow(s) && baseId in bases && BuildTriple(Copies(s.board, baseId), bases[baseId], s.next).Some?
    ensures var s1, triple := s.(board := WithoutCopies(s.board, baseId), next := s.next + 1, earned := s.earned + 5,
                                 logs := s.logs + [Triple(CopyIndexes(s.board, baseId, 0))]),
                              BuildTriple(Copies(s.board, baseId), bases[baseId], s.next).value;
            var r := InsertEmo(s1, triple, place, bases);
            && (r.Some? ==> place <= |s1.board|)
            && (r.Some? ==>
                  && r.value.0.board == s1.board[..place] + [triple] + s1.board[place..]
                  && r.value.0.earned == s1.earned && r.value.0.next == s1.next && triple.id == s.next
                  && r.value.1 == own + [AllySweep(s.next, bases[baseId].typ, true)]
                  && Collects(own, [triple.attr.abilities], ByOneself(OnSet, OnBoard(s.next))))
  {
    hide Copies;
    hide WithoutCopies;
    hide CopyIndexes;
    hide InsertEmo;
    hide Collects;
    CopiesPartition(s.board, baseId);
    var s1 := s.(board := WithoutCopies(s.board, baseId), next := s.next + 1, earned := s.earned + 5,
                 logs := s.logs + [Triple(CopyIndexes(s.board, baseId, 0))]);
    var triple := BuildTriple(Copies(s.board, baseId), bases[baseId], s.next).value;
    own := InsertedActs(s1, triple, place, bases);
    assert own + [AllySweep(s.next, bases[baseId].typ, true)] + [] == own + [AllySweep(s.next, bases[baseId].typ, true)];
  }
}
