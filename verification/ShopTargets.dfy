/** Whom a shop ability reaches: for every kind of target exactly the emos that it describes. */
module ShopTargets {
  import opened Types
  import opened Shop
  import opened ShopLaws

  ghost predicate Meets(e: ShopEmo, cond: Cond, bases: Bases) {
    e.baseId in bases && Matched(cond, bases[e.baseId].typ, e.attr.isTriple)
  }

  /** Which places a destination means, seen from the place `k` of the acting emo; when that emo has been
      removed, its right neighbour now stands at `k`. */
  predicate Reaches(destination: Destination, k: nat, isRemoved: bool, i: nat) {
    match destination
    case Left => i + 1 == k
    case Right => i == if isRemoved then k else k + 1
    case All => isRemoved || i != k
  }

  /** The acting emo stands on the board, or it has left it. */
  ghost predicate Placed(board: seq<ShopEmo>, ptr: Pointer) {
    match ptr
    case OnBoard(id) => exists e :: e in board && e.id == id
    case Removed(emo, _) => forall e :: e in board ==> e.id != emo.id
  }

  lemma {:induction false} FoundWhereItIs(board: seq<ShopEmo>, i: nat)
    requires DistinctIds(board) && i < |board|
    ensures FindIndex(board, board[i].id) == Some(i) && FindEmo(board, board[i].id) == Some(board[i])
  {
    if i > 0 {
      FoundWhereItIs(board[1..], i - 1);
    }
  }

  lemma {:induction false} OtherIdIs(board: seq<ShopEmo>, id: nat, x: nat)
    ensures x in OtherIds(board, id) <==> x != id && exists i :: 0 <= i < |board| && board[i].id == x
  {
    if board != [] {
      OtherIdIs(board[1..], id, x);
      var head: seq<nat> := if board[0].id == id then [] else [board[0].id];
      assert OtherIds(board, id) == head + OtherIds(board[1..], id);
      if exists i :: 0 <= i < |board| && board[i].id == x {
        var i :| 0 <= i < |board| && board[i].id == x;
        assert i > 0 ==> board[1..][i - 1].id == x;
      }
    }
  }

  ghost predicate OnBoards(board: seq<ShopEmo>, ids: seq<nat>) {
    forall x :: x in ids ==> exists i :: 0 <= i < |board| && board[i].id == x
  }

  /** One listed emo: it is kept if and only if it meets the condition. */
  lemma FirstMatched(board: seq<ShopEmo>, ids: seq<nat>, cond: Cond, bases: Bases, k: nat)
    requires DistinctIds(board) && (forall e :: e in board ==> e.baseId in bases)
    requires ids != [] && k < |board| && board[k].id == ids[0]
    ensures var rest := MatchedIds(board, ids[1..], cond, bases);
            MatchedIds(board, ids, cond, bases)
            == if rest.None? then None else Some((if Meets(board[k], cond, bases) then [ids[0]] else []) + rest.value)
  {
    FoundWhereItIs(board, k);
    assert board[k] in board;
  }

  lemma {:induction false} MatchedIs(board: seq<ShopEmo>, ids: seq<nat>, cond: Cond, bases: Bases, i: nat)
    requires DistinctIds(board) && (forall e :: e in board ==> e.baseId in bases) && OnBoards(board, ids) && i < |board|
    ensures var r := MatchedIds(board, ids, cond, bases);
            r.Some? && (board[i].id in r.value <==> board[i].id in ids && Meets(board[i], cond, bases))
  {
    if ids != [] {
      assert ids[0] in ids && forall x :: x in ids[1..] ==> x in ids;
      MatchedIs(board, ids[1..], cond, bases, i);
      var k :| 0 <= k < |board| && board[k].id == ids[0];
      FirstMatched(board, ids, cond, bases, k);
      hide MatchedIds;
      hide Meets;
      assert ids == [ids[0]] + ids[1..];
      assert board[i].id == ids[0] ==> i == k;
    }
  }

  // ----- in board order -----

  /** Some emo with the one id stands left of some emo with the other. */
  ghost predicate LeftOf(board: seq<ShopEmo>, x: nat, y: nat) {
    exists i, k :: 0 <= i < k < |board| && board[i].id == x && board[k].id == y
  }

  ghost predicate InBoardOrder(board: seq<ShopEmo>, ids: seq<nat>) {
    forall a, b :: 0 <= a < b < |ids| ==> LeftOf(board, ids[a], ids[b])
  }

  lemma {:induction false} OthersInOrder(board: seq<ShopEmo>, id: nat)
    ensures InBoardOrder(board, OtherIds(board, id))
  {
    if board != [] {
      OthersInOrder(board[1..], id);
      var rest := OtherIds(board[1..], id);
      forall a, b | 0 <= a < b < |rest| ensures LeftOf(board, rest[a], rest[b]) {
        assert LeftOf(board[1..], rest[a], rest[b]);
        var i, k :| 0 <= i < k < |board[1..]| && board[1..][i].id == rest[a] && board[1..][k].id == rest[b];
        assert board[i + 1].id == rest[a] && board[k + 1].id == rest[b];
      }
      forall b | 0 <= b < |rest| ensures LeftOf(board, board[0].id, rest[b]) {
        OtherIdIs(board[1..], id, rest[b]);
        var k :| 0 <= k < |board[1..]| && board[1..][k].id == rest[b];
        assert board[k + 1].id == rest[b];
      }
    }
  }

  lemma {:induction false} MatchedInOrder(board: seq<ShopEmo>, ids: seq<nat>, cond: Cond, bases: Bases)
    requires InBoardOrder(board, ids)
    ensures var r := MatchedIds(board, ids, cond, bases);
            r.Some? ==> InBoardOrder(board, r.value) && forall x :: x in r.value ==> x in ids
  {
    hide LeftOf;
    var r := MatchedIds(board, ids, cond, bases);
    if ids != [] && r.Some? {
      assert forall a :: 0 <= a < |ids[1..]| ==> ids[1..][a] == ids[a + 1];
      MatchedInOrder(board, ids[1..], cond, bases);
      var rest := MatchedIds(board, ids[1..], cond, bases).value;
      forall b | 0 <= b < |rest| ensures LeftOf(board, ids[0], rest[b]) {
        assert rest[b] in ids[1..];
        var k :| 0 <= k < |ids[1..]| && ids[1..][k] == rest[b];
        assert ids[k + 1] == rest[b];
      }
      assert r.value == rest || r.value == [ids[0]] + rest;
    }
  }

  // ----- every target -----

  /** The emo at `i` is meant by the target of an ability of the pointed emo. */
  ghost predicate Describes(board: seq<ShopEmo>, ptr: Pointer, target: Target, bases: Bases, i: nat)
    requires i < |board| && PointedIndex(board, ptr).Some?
  {
    match target
    case Oneself => ptr.OnBoard? && i == PointedIndex(board, ptr).value
    case Others(destination, cond) =>
      Reaches(destination, PointedIndex(board, ptr).value, ptr.Removed?, i) && Meets(board[i], cond, bases)
  }

  /** A target reaches exactly the emos that it describes, each once, from left to right; it is an error only for the left
      neighbour of an emo that was removed from beyond the present end of the board. */
  lemma TargetsAreExact(board: seq<ShopEmo>, ptr: Pointer, target: Target, bases: Bases)
    requires DistinctIds(board) && (forall e :: e in board ==> e.baseId in bases) && Placed(board, ptr)
    ensures var k, r := PointedIndex(board, ptr), TargetIds(board, ptr, target, bases);
            && k.Some? && (r.None? <==> target.Others? && target.destination == Left && k.value > |board|)
            && (r.Some? ==> && OnBoards(board, r.value) && InBoardOrder(board, r.value)
                            && forall i :: 0 <= i < |board| ==>
                                 (board[i].id in r.value <==> Describes(board, ptr, target, bases, i)))
  {
    hide InBoardOrder;
    hide OnBoards;
    hide Describes;
    PointedStands(board, ptr);
    match target
    case Oneself => OneselfIsExact(board, ptr, bases);
    case Others(destination, cond) =>
      var listed := Listed(board, ptr, destination);
      if listed.Some? {
        OthersAreListed(board, ptr, destination);
        MatchedAreExact(board, listed.value, cond, bases);
        forall i | 0 <= i < |board| && TargetIds(board, ptr, target, bases).Some?
          ensures board[i].id in TargetIds(board, ptr, target, bases).value <==> Describes(board, ptr, target, bases, i)
        {
          DescribesOthers(board, ptr, destination, cond, bases, i);
        }
      }
  }

  lemma PointedStands(board: seq<ShopEmo>, ptr: Pointer)
    requires DistinctIds(board) && Placed(board, ptr)
    ensures PointedIndex(board, ptr).Some?
    ensures ptr.OnBoard? ==> var k := PointedIndex(board, ptr).value; k < |board| && board[k].id == ptr.id
  {
    if ptr.OnBoard? {
      var e :| e in board && e.id == ptr.id;
      var k :| 0 <= k < |board| && board[k] == e;
      FoundWhereItIs(board, k);
    }
  }

  lemma OneselfIsExact(board: seq<ShopEmo>, ptr: Pointer, bases: Bases)
    requires DistinctIds(board) && Placed(board, ptr) && PointedIndex(board, ptr).Some?
    ensures var r := TargetIds(board, ptr, Oneself, bases);
            && r.Some? && OnBoards(board, r.value) && InBoardOrder(board, r.value)
            && forall i :: 0 <= i < |board| ==> (board[i].id in r.value <==> Describes(board, ptr, Oneself, bases, i))
  {
    PointedStands(board, ptr);
  }

  /** The ids that a destination lists before the condition is looked at. */
  function Listed(board: seq<ShopEmo>, ptr: Pointer, destination: Destination): Option<seq<nat>> {
    match destination
    case Right =>
      var right :- RightId(board, ptr);
      Some(OptionToSeq(right))
    case Left =>
      var left :- LeftId(board, ptr);
      Some(OptionToSeq(left))
    case All => Some(OtherIds(board, PointedId(ptr)))
  }

  lemma OthersAreListed(board: seq<ShopEmo>, ptr: Pointer, destination: Destination)
    requires DistinctIds(board) && Placed(board, ptr)
    ensures var k, listed := PointedIndex(board, ptr), Listed(board, ptr, destination);
            && k.Some? && (listed.None? <==> destination == Left && k.value > |board|)
            && (listed.Some? ==> && OnBoards(board, listed.value) && InBoardOrder(board, listed.value)
                                 && forall i :: 0 <= i < |board| ==>
                                      (board[i].id in listed.value <==> Reaches(destination, k.value, ptr.Removed?, i)))
  {
    PointedStands(board, ptr);
    if destination == All {
      OthersInOrder(board, PointedId(ptr));
      forall i | 0 <= i < |board| ensures board[i].id in OtherIds(board, PointedId(ptr))
                                     <==> Reaches(All, PointedIndex(board, ptr).value, ptr.Removed?, i) {
        AllAreOthers(board, ptr, i);
      }
      forall x | x in OtherIds(board, PointedId(ptr)) ensures exists i :: 0 <= i < |board| && board[i].id == x {
        OtherIdIs(board, PointedId(ptr), x);
      }
    }
  }

  lemma MatchedAreExact(board: seq<ShopEmo>, ids: seq<nat>, cond: Cond, bases: Bases)
    requires DistinctIds(board) && (forall e :: e in board ==> e.baseId in bases) && OnBoards(board, ids) && InBoardOrder(board, ids)
    ensures var r := MatchedIds(board, ids, cond, bases);
            && r.Some? && OnBoards(board, r.value) && InBoardOrder(board, r.value)
            && forall i :: 0 <= i < |board| ==> (board[i].id in r.value <==> board[i].id in ids && Meets(board[i], cond, bases))
  {
    hide InBoardOrder;
    hide Meets;
    MatchedSome(board, ids, cond, bases);
    MatchedInOrder(board, ids, cond, bases);
    forall i | 0 <= i < |board|
      ensures board[i].id in MatchedIds(board, ids, cond, bases).value <==> board[i].id in ids && Meets(board[i], cond, bases)
    {
      MatchedIs(board, ids, cond, bases, i);
    }
  }

  lemma {:induction false} MatchedSome(board: seq<ShopEmo>, ids: seq<nat>, cond: Cond, bases: Bases)
    requires DistinctIds(board) && (forall e :: e in board ==> e.baseId in bases) && OnBoards(board, ids)
    ensures MatchedIds(board, ids, cond, bases).Some?
  {
    if ids != [] {
      assert ids[0] in ids && forall x :: x in ids[1..] ==> x in ids;
      MatchedSome(board, ids[1..], cond, bases);
      var k :| 0 <= k < |board| && board[k].id == ids[0];
      FirstMatched(board, ids, cond, bases, k);
    }
  }

  lemma DescribesOthers(board: seq<ShopEmo>, ptr: Pointer, destination: Destination, cond: Cond, bases: Bases, i: nat)
    requires i < |board| && PointedIndex(board, ptr).Some?
    ensures Describes(board, ptr, Others(destination, cond), bases, i)
       <==> Reaches(destination, PointedIndex(board, ptr).value, ptr.Removed?, i) && Meets(board[i], cond, bases)
  {
  }

  lemma AllAreOthers(board: seq<ShopEmo>, ptr: Pointer, i: nat)
    requires DistinctIds(board) && Placed(board, ptr) && i < |board|
    ensures OnBoards(board, OtherIds(board, PointedId(ptr)))
    ensures PointedIndex(board, ptr).Some?
    ensures board[i].id in OtherIds(board, PointedId(ptr)) <==> Reaches(All, PointedIndex(board, ptr).value, ptr.Removed?, i)
  {
    OtherIdIs(board, PointedId(ptr), board[i].id);
    forall x | x in OtherIds(board, PointedId(ptr)) ensures exists i :: 0 <= i < |board| && board[i].id == x {
      OtherIdIs(board, PointedId(ptr), x);
    }
    assert board[i] in board;
    if ptr.OnBoard? {
      var e :| e in board && e.id == ptr.id;
      var k :| 0 <= k < |board| && board[k] == e;
      FoundWhereItIs(board, k);
    }
  }
}
