/** One emo of each typ: whom the ability at the start of a visit serves. */
module ShopMenagerie {
  import opened Types
  import opened Rng
  import opened Shop
  import opened ShopRun
  import opened ShopLaws
  import opened ShopTargets
  import opened ShopPlaces
  import opened ShopActions

  // ----- the rule -----

  /** Every place of the board once, in some order. */
  ghost predicate IsOrder(board: seq<ShopEmo>, order: seq<nat>) {
    && |order| == |board| && (forall n :: 0 <= n < |order| ==> order[n] < |board|)
    && forall a, b :: 0 <= a < b < |order| ==> order[a] != order[b]
  }

  ghost predicate Known(board: seq<ShopEmo>, bases: Bases) { forall j :: 0 <= j < |board| ==> board[j].baseId in bases }

  ghost function TypAt(board: seq<ShopEmo>, j: nat, bases: Bases): Typ
    requires Known(board, bases) && j < |board|
  {
    bases[board[j].baseId].typ
  }

  /** The typs of the first `n` emos, the actor left out. */
  ghost function Seen(board: seq<ShopEmo>, order: seq<nat>, n: nat, k: nat, bases: Bases): set<Typ>
    requires Known(board, bases) && IsOrder(board, order) && n <= |order|
  {
    set m: nat | m < n && order[m] != k :: TypAt(board, order[m], bases)
  }

  /** The emo is another than the actor and the first of its typ, and not enough typs came before. */
  ghost predicate Chosen(board: seq<ShopEmo>, order: seq<nat>, n: nat, k: nat, limit: nat, bases: Bases)
    requires Known(board, bases) && IsOrder(board, order) && n < |order|
  {
    && order[n] != k && TypAt(board, order[n], bases) !in Seen(board, order, n, k, bases)
    && |Seen(board, order, n, k, bases)| < limit
  }

  /** At least one typ is served, whatever the count says. */
  ghost predicate Served(board: seq<ShopEmo>, order: seq<nat>, k: nat, typCount: nat, bases: Bases, at: set<nat>)
    requires Known(board, bases) && IsOrder(board, order)
  {
    && (forall j :: j in at ==> j in order)
    && forall n :: 0 <= n < |order| ==> (order[n] in at <==> Chosen(board, order, n, k, AtLeast(1, typCount), bases))
  }

  function AtLeast(a: nat, b: nat): nat { if a < b then b else a }

  // ----- serving -----

  function IdsAt(board: seq<ShopEmo>, order: seq<nat>): seq<nat>
    requires IsOrder(board, order)
  {
    seq(|order|, n requires 0 <= n < |order| => board[order[n]].id)
  }

  ghost predicate SameTyps(seen: seq<Typ>, typs: set<Typ>) { |seen| == |typs| && forall t :: t in seen <==> t in typs }

  /** What is served from the place `m` on. */
  ghost predicate Serves(board: seq<ShopEmo>, order: seq<nat>, m: nat, k: nat, limit: nat, bases: Bases, ids: seq<nat>)
    requires Known(board, bases) && IsOrder(board, order)
  {
    && Different(ids)
    && (forall x :: x in ids ==> exists n :: m <= n < |order| && board[order[n]].id == x)
    && forall n :: m <= n < |order| ==> (board[order[n]].id in ids <==> Chosen(board, order, n, k, limit, bases))
  }

  lemma SeenMore(board: seq<ShopEmo>, order: seq<nat>, m: nat, k: nat, bases: Bases)
    requires Known(board, bases) && IsOrder(board, order) && m < |order|
    ensures Seen(board, order, m + 1, k, bases)
         == Seen(board, order, m, k, bases) + if order[m] == k then {} else {TypAt(board, order[m], bases)}
  {
  }

  lemma SeenGrows(board: seq<ShopEmo>, order: seq<nat>, m: nat, n: nat, k: nat, bases: Bases)
    requires Known(board, bases) && IsOrder(board, order) && m <= n <= |order|
    ensures |Seen(board, order, m, k, bases)| <= |Seen(board, order, n, k, bases)|
  {
    Subset(Seen(board, order, m, k, bases), Seen(board, order, n, k, bases));
  }

  lemma {:induction false} Subset(x: set<Typ>, y: set<Typ>)
    requires x <= y
    ensures |x| <= |y|
  {
    if x != {} {
      var t :| t in x;
      Subset(x - {t}, y - {t});
    }
  }

  lemma DifferentIds(board: seq<ShopEmo>, order: seq<nat>)
    requires DistinctIds(board) && IsOrder(board, order)
    ensures forall a, b :: 0 <= a < |order| && 0 <= b < |order| && board[order[a]].id == board[order[b]].id ==> a == b
  {
  }

  lemma OneMoreServed(board: seq<ShopEmo>, order: seq<nat>, m: nat, k: nat, limit: nat, bases: Bases, rest: seq<nat>)
    requires DistinctIds(board) && Known(board, bases) && IsOrder(board, order) && m < |order|
    requires Serves(board, order, m + 1, k, limit, bases, rest)
    ensures Serves(board, order, m, k, limit, bases,
                   if Chosen(board, order, m, k, limit, bases) then [board[order[m]].id] + rest else rest)
  {
    hide Chosen;
    DifferentIds(board, order);
    var x := board[order[m]].id;
    assert x !in rest;
    assert forall y :: y in [x] + rest <==> y == x || y in rest;
  }

  lemma LastServed(board: seq<ShopEmo>, order: seq<nat>, m: nat, k: nat, limit: nat, bases: Bases)
    requires Known(board, bases) && IsOrder(board, order) && m < |order| && limit <= |Seen(board, order, m + 1, k, bases)|
    ensures Serves(board, order, m + 1, k, limit, bases, [])
  {
    forall n | m + 1 <= n < |order| ensures !Chosen(board, order, n, k, limit, bases) {
      SeenGrows(board, order, m + 1, n, k, bases);
    }
  }

  lemma {:induction false} ServedFrom(board: seq<ShopEmo>, order: seq<nat>, m: nat, k: nat, seen: seq<Typ>, limit: nat, bases: Bases)
    requires DistinctIds(board) && Known(board, bases) && IsOrder(board, order) && m <= |order| && k < |board|
    requires SameTyps(seen, Seen(board, order, m, k, bases))
    ensures var r := MenagerieIds(board, IdsAt(board, order)[m..], board[k].id, seen, limit, bases);
            r.Some? && Serves(board, order, m, k, AtLeast(|seen| + 1, limit), bases, r.value)
    decreases |order| - m
  {
    hide Serves;
    hide Seen;
    var ids, most := IdsAt(board, order)[m..], AtLeast(|seen| + 1, limit);
    if m == |order| {
      assert Serves(board, order, m, k, most, bases, []) by {
        NoneServed(board, order, m, k, most, bases);
      }
    } else {
      var j := order[m];
      assert ids[0] == board[j].id && ids[1..] == IdsAt(board, order)[m + 1..];
      FoundWhereItIs(board, j);
      hide DistinctIds;
      hide FindEmo;
      SeenMore(board, order, m, k, bases);
      if j == k || TypAt(board, j, bases) in seen {
        assert Seen(board, order, m + 1, k, bases) == Seen(board, order, m, k, bases);
        ServedFrom(board, order, m + 1, k, seen, limit, bases);
        OneMoreServed(board, order, m, k, most, bases, MenagerieIds(board, ids[1..], board[k].id, seen, limit, bases).value);
      } else if |seen| + 1 >= limit {
        LastServed(board, order, m, k, most, bases);
        OneMoreServed(board, order, m, k, most, bases, []);
        assert [board[j].id] + [] == [board[j].id];
      } else {
        var more := seen + [TypAt(board, j, bases)];
        ServedFrom(board, order, m + 1, k, more, limit, bases);
        OneMoreServed(board, order, m, k, most, bases, MenagerieIds(board, ids[1..], board[k].id, more, limit, bases).value);
      }
    }
  }

  lemma NoneServed(board: seq<ShopEmo>, order: seq<nat>, m: nat, k: nat, limit: nat, bases: Bases)
    requires Known(board, bases) && IsOrder(board, order) && m == |order|
    ensures Serves(board, order, m, k, limit, bases, [])
  {
  }

  // ----- the order -----

  /** The places of the shuffled ids. */
  lemma OrderOf(board: seq<ShopEmo>, tape: Tape) returns (order: seq<nat>)
    requires DistinctIds(board)
    ensures IsOrder(board, order) && IdsAt(board, order) == Shuffle(Ids(board), tape)
  {
    var ids := Shuffle(Ids(board), tape);
    ShuffleIsPermutation(Ids(board), tape);
    forall n | 0 <= n < |ids| ensures FindIndex(board, ids[n]).Some? {
      assert ids[n] in multiset(ids) && ids[n] in Ids(board);
    }
    order := seq(|ids|, n requires 0 <= n < |ids| => FindIndex(board, ids[n]).value);
    forall a, b | 0 <= a < b < |ids| ensures ids[a] != ids[b] {
      NoneTwice(Ids(board), ids, a, b);
    }
  }

  lemma NoneTwice(ids: seq<nat>, shuffled: seq<nat>, a: nat, b: nat)
    requires multiset(shuffled) == multiset(ids) && Different(ids) && a < b < |shuffled|
    ensures shuffled[a] != shuffled[b]
  {
    if shuffled[a] == shuffled[b] {
      var x := shuffled[a];
      assert shuffled == shuffled[..b] + [x] + shuffled[b + 1..];
      assert multiset(shuffled) == multiset(shuffled[..b]) + multiset{x} + multiset(shuffled[b + 1..]);
      assert x in shuffled[..b];
      OnceEach(ids, x);
    }
  }

  lemma {:induction false} OnceEach(ids: seq<nat>, x: nat)
    requires Different(ids)
    ensures multiset(ids)[x] <= 1
  {
    if ids != [] {
      assert ids == [ids[0]] + ids[1..];
      OnceEach(ids[1..], x);
    }
  }

  // ----- the whole action -----

  /** In some order of the board, every emo that is the first of its typ is raised, until enough typs are served; the actor
      itself is passed over, and its flag doubles the amounts. */
  lemma MenagerieReaches(s: State, k: nat, typCount: U8, attack: U16, health: U16, bases: Bases) returns (order: seq<nat>, at: set<nat>)
    requires DistinctIds(s.board) && Known(s.board, bases) && k < |s.board|
    ensures IsOrder(s.board, order) && Served(s.board, order, k, typCount, bases, at)
    ensures var r, isTriple := Run([Menagerie(s.board[k].id, typCount, attack, health)], s, bases), s.board[k].attr.isTriple;
            r.Some? && Changed(s.(tape := r.value.tape), r.value, at, Raised(TwiceIf(isTriple, attack), TwiceIf(isTriple, health)))
  {
    hide MenagerieIds;
    hide Step;
    hide Run;
    hide IsOrder;
    hide Served;
    hide Makes;
    hide Different;
    var ids;
    order, ids, at := WhoIsServed(s, k, typCount, bases);
    var t, isTriple := Menagerie(s.board[k].id, typCount, attack, health), s.board[k].attr.isTriple;
    var s1 := s.(tape := After(s.tape, |s.board|));
    var a, h := DoubleIf(isTriple, attack), DoubleIf(isTriple, health);
    MenagerieStep(s, k, typCount, attack, health, ids, bases);
    RaisingChanges(a, h, bases);
    OneRaiseEach(ids, a, h);
    SpreadChanges(s, s1, t, RaiseTasks(ids, a, h), ids, at, ToRaise(a, h), Raised(a, h), bases);
    TapeKept(s1, Run([t], s, bases).value, at, Raised(a, h));
  }

  lemma WhoIsServed(s: State, k: nat, typCount: U8, bases: Bases) returns (order: seq<nat>, ids: seq<nat>, at: set<nat>)
    requires DistinctIds(s.board) && Known(s.board, bases) && k < |s.board|
    ensures IsOrder(s.board, order) && Served(s.board, order, k, typCount, bases, at)
    ensures MenagerieIds(s.board, Shuffle(Ids(s.board), s.tape), s.board[k].id, [], typCount, bases) == Some(ids)
    ensures Different(ids) && OnBoards(s.board, ids) && forall j: nat :: j < |s.board| ==> (s.board[j].id in ids <==> j in at)
  {
    hide MenagerieIds;
    order := OrderOf(s.board, s.tape);
    assert IdsAt(s.board, order)[0..] == IdsAt(s.board, order);
    ServedFrom(s.board, order, 0, k, [], typCount, bases);
    ids := MenagerieIds(s.board, Shuffle(Ids(s.board), s.tape), s.board[k].id, [], typCount, bases).value;
    at := ServedPlaces(s.board, order, k, AtLeast(1, typCount), bases, ids);
  }

  lemma TapeKept(s: State, s': State, at: set<nat>, change: Change)
    requires Changed(s, s', at, change)
    ensures s'.tape == s.tape
  {
  }

  lemma MenagerieStep(s: State, k: nat, typCount: U8, attack: U16, health: U16, ids: seq<nat>, bases: Bases)
    requires DistinctIds(s.board) && k < |s.board|
    requires MenagerieIds(s.board, Shuffle(Ids(s.board), s.tape), s.board[k].id, [], typCount, bases) == Some(ids)
    ensures Step(s, Menagerie(s.board[k].id, typCount, attack, health), bases)
         == Some((s.(tape := After(s.tape, |s.board|)),
                  RaiseTasks(ids, DoubleIf(s.board[k].attr.isTriple, attack), DoubleIf(s.board[k].attr.isTriple, health))))
  {
    FoundWhereItIs(s.board, k);
  }

  lemma ServedPlaces(board: seq<ShopEmo>, order: seq<nat>, k: nat, limit: nat, bases: Bases, ids: seq<nat>) returns (at: set<nat>)
    requires DistinctIds(board) && Known(board, bases) && IsOrder(board, order) && Serves(board, order, 0, k, limit, bases, ids)
    ensures OnBoards(board, ids) && (forall j :: j in at ==> j in order)
    ensures forall j: nat :: j < |board| ==> (board[j].id in ids <==> j in at)
    ensures forall n :: 0 <= n < |order| ==> (order[n] in at <==> Chosen(board, order, n, k, limit, bases))
  {
    hide Chosen;
    at := set j: nat | j < |board| && board[j].id in ids;
    forall j | j in at ensures j in order {
      var n :| 0 <= n < |order| && board[order[n]].id == board[j].id;
      assert order[n] == j;
    }
  }
}
