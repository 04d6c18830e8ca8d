/** The cards offered in one visit to the shop: five lines of seven cards of the pool. */
module Catalog {
  import opened Types
  import opened Rng

  const CATALOG_COUNT: nat := 5
  const CATALOG_LINE_EMO_COUNT: nat := 7

  function BoardCards(board: Board): seq<U16> {
    if board == [] then [] else board[0].cards + BoardCards(board[1..])
  }

  function OffBoard(pool: seq<Card>, onBoard: seq<U16>): seq<Card> {
    if pool == [] then []
    else (if pool[0].id in onBoard then [] else [pool[0]]) + OffBoard(pool[1..], onBoard)
  }

  function Reversed<T>(s: seq<T>): seq<T> { if s == [] then [] else Reversed(s[1..]) + [s[0]] }

  /** Seven cards popped from the end, last one first. */
  function PopLine(cards: seq<Card>): seq<Card>
    requires |cards| >= CATALOG_LINE_EMO_COUNT
  {
    Reversed(cards[|cards| - CATALOG_LINE_EMO_COUNT..])
  }

  function Lines(cards: seq<Card>, count: nat): seq<seq<Card>>
    requires |cards| >= count * CATALOG_LINE_EMO_COUNT
  {
    if count == 0 then []
    else [PopLine(cards)] + Lines(cards[..|cards| - CATALOG_LINE_EMO_COUNT], count - 1)
  }

  function DrawCards(pool: seq<Card>, board: Board, tape: Tape): seq<Card> {
    var count := CATALOG_COUNT * CATALOG_LINE_EMO_COUNT;
    Shuffle(Draw(OffBoard(pool, BoardCards(board)), count, tape), After(tape, count))
  }

  function GetCatalog(pool: seq<Card>, board: Board, tape: Tape): Option<seq<seq<Card>>> {
    var cards := DrawCards(pool, board, tape);
    if |cards| < CATALOG_COUNT * CATALOG_LINE_EMO_COUNT then None else Some(Lines(cards, CATALOG_COUNT))
  }

  function Flatten(lines: seq<seq<Card>>): seq<Card> { if lines == [] then [] else lines[0] + Flatten(lines[1..]) }

  // ----- the program -----

  lemma PoppedMore(cards: seq<Card>, j: nat)
    requires j < |cards|
    ensures Reversed(cards[|cards| - j - 1..]) == Reversed(cards[|cards| - j..]) + [cards[|cards| - j - 1]]
  {
    assert cards[|cards| - j - 1..][1..] == cards[|cards| - j..];
  }

  /** Pops the cards of a line one by one; an error when they run out. */
  method TakeLine(cards: seq<Card>) returns (ok: bool, line: seq<Card>, rest: seq<Card>)
    ensures ok <==> |cards| >= CATALOG_LINE_EMO_COUNT
    ensures ok ==> line == PopLine(cards) && rest == cards[..|cards| - CATALOG_LINE_EMO_COUNT]
  {
    line, rest := [], cards;
    for j := 0 to CATALOG_LINE_EMO_COUNT
      invariant j <= |cards| && rest == cards[..|cards| - j] && line == Reversed(cards[|cards| - j..])
    {
      if rest == [] {
        return false, line, rest;
      }
      PoppedMore(cards, j);
      line := line + [rest[|rest| - 1]];
      rest := rest[..|rest| - 1];
    }
    ok := true;
  }

  method BuildCatalog(pool: seq<Card>, board: Board, tape: Tape) returns (r: Option<seq<seq<Card>>>)
    ensures r == GetCatalog(pool, board, tape)
  {
    hide DrawCards;
    hide PopLine;
    var emos := DrawCards(pool, board, tape);
    ghost var all := emos;
    var catalog: seq<seq<Card>> := [];
    for i := 0 to CATALOG_COUNT
      invariant |all| == |emos| + i * CATALOG_LINE_EMO_COUNT
      invariant |all| >= 35 ==> Lines(all, CATALOG_COUNT) == catalog + Lines(emos, CATALOG_COUNT - i)
    {
      var ok, line, rest := TakeLine(emos);
      if !ok {
        return None;
      }
      if |all| >= 35 {
        assert catalog + ([line] + Lines(rest, CATALOG_COUNT - i - 1)) == (catalog + [line]) + Lines(rest, CATALOG_COUNT - i - 1);
      }
      catalog := catalog + [line];
      emos := rest;
    }
    assert catalog + [] == catalog;
    return Some(catalog);
  }

  // ----- every catalog is a legal hand -----

  lemma {:induction false} OffBoardMembers(pool: seq<Card>, onBoard: seq<U16>)
    ensures forall c :: c in OffBoard(pool, onBoard) <==> c in pool && c.id !in onBoard
    ensures multiset(OffBoard(pool, onBoard)) <= multiset(pool)
  {
    if pool != [] {
      OffBoardMembers(pool[1..], onBoard);
      assert pool == [pool[0]] + pool[1..];
    }
  }

  lemma {:induction false} ReversedKeeps<T>(s: seq<T>)
    ensures multiset(Reversed(s)) == multiset(s) && |Reversed(s)| == |s|
  {
    if s != [] {
      ReversedKeeps(s[1..]);
      assert s == [s[0]] + s[1..];
    }
  }

  lemma PopLineTakesLast(cards: seq<Card>)
    requires |cards| >= CATALOG_LINE_EMO_COUNT
    ensures multiset(PopLine(cards)) + multiset(cards[..|cards| - 7]) == multiset(cards)
    ensures |PopLine(cards)| == 7
  {
    ReversedKeeps(cards[|cards| - 7..]);
    assert cards == cards[..|cards| - 7] + cards[|cards| - 7..];
  }

  lemma FlattenMore(line: seq<Card>, lines: seq<seq<Card>>)
    ensures multiset(Flatten([line] + lines)) == multiset(line) + multiset(Flatten(lines))
  {
    assert ([line] + lines)[1..] == lines;
  }

  lemma FlattenNone()
    ensures Flatten([]) == []
  {
  }

  lemma {:induction false} LinesDealOut(cards: seq<Card>, count: nat)
    requires |cards| == count * CATALOG_LINE_EMO_COUNT
    ensures multiset(Flatten(Lines(cards, count))) == multiset(cards)
    decreases count
  {
    hide PopLine;
    hide Flatten;
    FlattenNone();
    if count > 0 {
      var rest := cards[..|cards| - 7];
      LinesDealOut(rest, count - 1);
      PopLineTakesLast(cards);
      FlattenMore(PopLine(cards), Lines(rest, count - 1));
    }
  }

  lemma {:induction false} LinesAreFull(cards: seq<Card>, count: nat)
    requires |cards| >= count * CATALOG_LINE_EMO_COUNT
    ensures |Lines(cards, count)| == count
    ensures forall line :: line in Lines(cards, count) ==> |line| == CATALOG_LINE_EMO_COUNT
    decreases count
  {
    hide PopLine;
    if count > 0 {
      LinesAreFull(cards[..|cards| - 7], count - 1);
      PopLineTakesLast(cards);
    }
  }

  /** Five lines of seven, dealing each off-board card of the pool at most once;
      it fails exactly when the pool has fewer than 35 cards off the board. */
  lemma CatalogIsLegal(pool: seq<Card>, board: Board, tape: Tape)
    ensures var r := GetCatalog(pool, board, tape);
            r.Some? <==> |OffBoard(pool, BoardCards(board))| >= 35
    ensures var r := GetCatalog(pool, board, tape);
            r.Some? ==> |r.value| == 5 && (forall line :: line in r.value ==> |line| == 7)
                        && multiset(Flatten(r.value)) <= multiset(OffBoard(pool, BoardCards(board)))
  {
    var offBoard := OffBoard(pool, BoardCards(board));
    var drawn := Draw(offBoard, 35, tape);
    DrawIsSelection(offBoard, 35, tape);
    ShuffleIsPermutation(drawn, After(tape, 35));
    if |offBoard| >= 35 {
      LinesDealOut(DrawCards(pool, board, tape), 5);
      LinesAreFull(DrawCards(pool, board, tape), 5);
    }
  }

  lemma {:induction false} InFlatten(lines: seq<seq<Card>>, i: nat, c: Card)
    requires i < |lines| && c in lines[i]
    ensures c in Flatten(lines)
  {
    if i > 0 {
      InFlatten(lines[1..], i - 1, c);
    }
  }

  /** A card on any line is a card of the pool that is not on the board. */
  lemma OfferedFromPool(pool: seq<Card>, board: Board, tape: Tape, i: nat, c: Card)
    requires GetCatalog(pool, board, tape).Some? && i < |GetCatalog(pool, board, tape).value|
    requires c in GetCatalog(pool, board, tape).value[i]
    ensures c in pool && c.id !in BoardCards(board)
  {
    var lines := GetCatalog(pool, board, tape).value;
    CatalogIsLegal(pool, board, tape);
    InFlatten(lines, i, c);
    OffBoardMembers(pool, BoardCards(board));
    assert multiset(Flatten(lines))[c] > 0;
    assert c in multiset(OffBoard(pool, BoardCards(board)));
  }
}
