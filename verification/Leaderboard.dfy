/** The leaderboard: at most 100 rows, the best EP of each account, best first. Capping it loses
    nothing: it always is the top of the board that keeps every account. */
module Leaderboard {
  import opened Types

  type Account = nat

  datatype Row = Row(ep: U16, account: Account)

  const LEADERBOARD_SIZE: nat := 100

  // ----- the board without a cap -----

  function InsertRow(rows: seq<Row>, row: Row): seq<Row> {
    if rows == [] then [row]
    else if rows[0].ep <= row.ep then [row] + rows
    else [rows[0]] + InsertRow(rows[1..], row)
  }

  function Without(rows: seq<Row>, account: Account): seq<Row> {
    if rows == [] then []
    else (if rows[0].account == account then [] else [rows[0]]) + Without(rows[1..], account)
  }

  predicate Beaten(rows: seq<Row>, ep: U16, account: Account) {
    exists i :: 0 <= i < |rows| && rows[i].account == account && rows[i].ep > ep
  }

  /** A submission counts unless the account has a better one; it goes before all rows it is not worse than. */
  function Record(rows: seq<Row>, ep: U16, account: Account): seq<Row> {
    if Beaten(rows, ep, account) then rows else InsertRow(Without(rows, account), Row(ep, account))
  }

  function Top(rows: seq<Row>, n: nat): seq<Row> { if |rows| <= n then rows else rows[..n] }

  ghost predicate Ordered(rows: seq<Row>) {
    && (forall i, j :: 0 <= i < j < |rows| ==> rows[i].ep >= rows[j].ep)
    && (forall i, j :: 0 <= i < j < |rows| ==> rows[i].account != rows[j].account)
  }

  function IndexOfAccount(rows: seq<Row>, account: Account): (r: Option<nat>)
    ensures r.Some? ==> r.value < |rows| && rows[r.value].account == account
    ensures r.None? ==> forall i :: 0 <= i < |rows| ==> rows[i].account != account
  {
    if rows == [] then None
    else if rows[0].account == account then Some(0)
    else
      var i := IndexOfAccount(rows[1..], account);
      if i.None? then (assert forall j :: 1 <= j < |rows| ==> rows[j] == rows[1..][j - 1]; None) else Some(i.value + 1)
  }

  // ----- insertion and removal by index -----

  lemma {:induction false} InsertAt(rows: seq<Row>, row: Row, j: nat)
    requires j <= |rows| && (forall i :: 0 <= i < j ==> rows[i].ep > row.ep) && (j < |rows| ==> rows[j].ep <= row.ep)
    ensures InsertRow(rows, row) == rows[..j] + [row] + rows[j..]
  {
    if j > 0 {
      InsertAt(rows[1..], row, j - 1);
      assert rows[1..][..j - 1] == rows[1..j] && rows[1..][j - 1..] == rows[j..];
    }
  }

  lemma {:induction false} WithoutAt(rows: seq<Row>, i: nat)
    requires Ordered(rows) && i < |rows|
    ensures Without(rows, rows[i].account) == rows[..i] + rows[i + 1..]
  {
    if i == 0 {
      WithoutNobody(rows[1..], rows[0].account);
    } else {
      WithoutAt(rows[1..], i - 1);
      assert rows[1..][..i - 1] == rows[1..i] && rows[1..][i..] == rows[i + 1..];
    }
  }

  lemma {:induction false} WithoutNobody(rows: seq<Row>, account: Account)
    requires forall i :: 0 <= i < |rows| ==> rows[i].account != account
    ensures Without(rows, account) == rows
  {
    if rows != [] {
      WithoutNobody(rows[1..], account);
    }
  }

  function ComesIn(rows: seq<Row>, row: Row, j: nat): seq<Row>
    requires j <= |rows|
  {
    rows[..j] + [row] + rows[j..]
  }

  function MovesUp(rows: seq<Row>, row: Row, i: nat, j: nat): seq<Row>
    requires j <= i < |rows|
  {
    rows[..j] + [row] + rows[j..i] + rows[i + 1..]
  }

  lemma ComesInAt(rows: seq<Row>, row: Row, j: nat, k: nat)
    requires j <= |rows|
    ensures |ComesIn(rows, row, j)| == |rows| + 1
    ensures k <= |rows| ==> ComesIn(rows, row, j)[k] == if k < j then rows[k] else if k == j then row else rows[k - 1]
  {
  }

  lemma MovesUpAt(rows: seq<Row>, row: Row, i: nat, j: nat, k: nat)
    requires j <= i < |rows|
    ensures |MovesUp(rows, row, i, j)| == |rows|
    ensures k < |rows| ==>
              MovesUp(rows, row, i, j)[k] == if k < j || k > i then rows[k] else if k == j then row else rows[k - 1]
  {
  }

  ghost predicate FirstNotBetter(rows: seq<Row>, ep: U16, j: nat) {
    && j <= |rows| && (forall i :: 0 <= i < j ==> rows[i].ep > ep) && (j < |rows| ==> rows[j].ep <= ep)
  }

  /** A new account's row comes in at `j`; a known account's row moves from `i` up to `j`. */
  lemma RecordNew(rows: seq<Row>, ep: U16, account: Account, j: nat)
    requires IndexOfAccount(rows, account).None? && FirstNotBetter(rows, ep, j)
    ensures Record(rows, ep, account) == ComesIn(rows, Row(ep, account), j)
  {
    WithoutNobody(rows, account);
    InsertAt(rows, Row(ep, account), j);
  }

  lemma RecordKnown(rows: seq<Row>, ep: U16, i: nat, j: nat)
    requires Ordered(rows) && i < |rows| && rows[i].ep <= ep && FirstNotBetter(rows, ep, j)
    ensures j <= i && Record(rows, ep, rows[i].account) == MovesUp(rows, Row(ep, rows[i].account), i, j)
  {
    hide InsertRow;
    hide Without;
    var account := rows[i].account;
    var rest := rows[..i] + rows[i + 1..];
    WithoutAt(rows, i);
    assert !Beaten(rows, ep, account);
    assert j <= i;
    forall k | 0 <= k < j ensures rest[k].ep > ep {
      assert rest[k] == rows[k];
    }
    assert j < |rest| ==> rest[j].ep <= ep by {
      if j < |rest| {
        assert rest[j] == rows[if j < i then j else j + 1];
      }
    }
    InsertAt(rest, Row(ep, account), j);
    assert rest[..j] == rows[..j] && rest[j..] == rows[j..i] + rows[i + 1..];
    assert rest[..j] + [Row(ep, account)] + rest[j..] == MovesUp(rows, Row(ep, account), i, j);
  }

  lemma {:induction false} SomeFirstNotBetter(rows: seq<Row>, ep: U16) returns (j: nat)
    ensures FirstNotBetter(rows, ep, j)
  {
    if rows == [] || rows[0].ep <= ep {
      j := 0;
    } else {
      var k := SomeFirstNotBetter(rows[1..], ep);
      j := k + 1;
      assert forall i :: 1 <= i < j ==> rows[i] == rows[1..][i - 1];
    }
  }

  lemma KnownResult(board: seq<Row>, ep: U16, i: nat, j: nat)
    requires Ordered(board) && |board| <= LEADERBOARD_SIZE && i < |board| && board[i].ep <= ep && FirstNotBetter(board, ep, j)
    ensures j <= i
    ensures var r := MovesUp(board, Row(ep, board[i].account), i, j);
            Top(Record(board, ep, board[i].account), LEADERBOARD_SIZE) == r && (r == board <==> i == j && board[i].ep == ep)
  {
    hide Record;
    RecordKnown(board, ep, i, j);
    hide Ordered;
    var r := MovesUp(board, Row(ep, board[i].account), i, j);
    MovesUpAt(board, Row(ep, board[i].account), i, j, j);
    if i == j && board[i].ep == ep {
      assert r == board;
    }
  }

  lemma NewResult(board: seq<Row>, ep: U16, account: Account, j: nat)
    requires |board| <= LEADERBOARD_SIZE && IndexOfAccount(board, account).None? && FirstNotBetter(board, ep, j)
    ensures var r := Top(ComesIn(board, Row(ep, account), j), LEADERBOARD_SIZE);
            Top(Record(board, ep, account), LEADERBOARD_SIZE) == r && (r == board <==> j == LEADERBOARD_SIZE)
  {
    hide Record;
    RecordNew(board, ep, account, j);
    ComesInAt(board, Row(ep, account), j, j);
    if j == LEADERBOARD_SIZE {
      assert ComesIn(board, Row(ep, account), j)[..LEADERBOARD_SIZE] == board;
    }
  }

  // ----- the program -----

  /** Scans once for the account's row and for the place of the new one; None when the board stays as it is. */
  method UpdateLeaderboard(board: seq<Row>, ep: U16, account: Account) returns (r: Option<seq<Row>>)
    requires Ordered(board) && |board| <= LEADERBOARD_SIZE
    ensures (if r.Some? then r.value else board) == Top(Record(board, ep, account), LEADERBOARD_SIZE)
    ensures r.None? <==> Top(Record(board, ep, account), LEADERBOARD_SIZE) == board
  {
    hide Record;
    hide Ordered;
    var leaderboard := board;
    var same: Option<nat> := None;
    var place: Option<nat> := None;
    var index := 0;
    while index < |leaderboard| && (same.None? || place.None?)
      invariant 0 <= index <= |leaderboard| && leaderboard == board
      invariant same.Some? ==> same.value < index && board[same.value].account == account && board[same.value].ep <= ep
      invariant same.None? ==> forall i :: 0 <= i < index ==> board[i].account != account
      invariant place.Some? ==> FirstNotBetter(board, ep, place.value) && place.value < index
      invariant place.None? ==> forall i :: 0 <= i < index ==> board[i].ep > ep
    {
      if leaderboard[index].account == account {
        if leaderboard[index].ep > ep {
          RecordBeaten(board, ep, index);
          return None;
        }
        same := Some(index);
      }
      if place.None? && leaderboard[index].ep <= ep {
        place := Some(index);
      }
      index := index + 1;
    }
    if same.Some? {
      var i, j := same.value, place.value;
      KnownResult(board, ep, i, j);
      if i == j && leaderboard[i].ep == ep {
        return None;
      }
      leaderboard := leaderboard[i := leaderboard[i].(ep := ep)];
      if i > j {
        leaderboard := leaderboard[..j] + [leaderboard[i]] + leaderboard[j..i] + leaderboard[i + 1..];
      }
      assert leaderboard == MovesUp(board, Row(ep, account), i, j);
    } else {
      assert IndexOfAccount(board, account).None?;
      NewResult(board, ep, account, if place.Some? then place.value else |board|);
      if place.Some? {
        leaderboard := leaderboard[..place.value] + [Row(ep, account)] + leaderboard[place.value..];
        if |leaderboard| > LEADERBOARD_SIZE {
          leaderboard := leaderboard[..LEADERBOARD_SIZE];
        }
      } else if |leaderboard| < LEADERBOARD_SIZE {
        leaderboard := leaderboard + [Row(ep, account)];
        assert leaderboard == ComesIn(board, Row(ep, account), |board|);
      } else {
        return None;
      }
    }
    return Some(leaderboard);
  }

  // ----- any run of submissions -----

  function Unbounded(subs: seq<Row>): seq<Row>
    decreases |subs|
  {
    if subs == [] then [] else Record(Unbounded(subs[..|subs| - 1]), subs[|subs| - 1].ep, subs[|subs| - 1].account)
  }

  function Capped(subs: seq<Row>, n: nat): seq<Row>
    decreases |subs|
  {
    if subs == [] then []
    else Top(Record(Capped(subs[..|subs| - 1], n), subs[|subs| - 1].ep, subs[|subs| - 1].account), n)
  }

  /** Recording keeps the order and the uniqueness. */
  lemma RecordOrdered(rows: seq<Row>, ep: U16, account: Account)
    requires Ordered(rows)
    ensures Ordered(Record(rows, ep, account))
  {
    hide Record;
    var j := SomeFirstNotBetter(rows, ep);
    var i := IndexOfAccount(rows, account);
    if i.None? {
      RecordNew(rows, ep, account, j);
      ComesInOrdered(rows, ep, account, j);
    } else if rows[i.value].ep <= ep {
      RecordKnown(rows, ep, i.value, j);
      MovesUpOrdered(rows, ep, i.value, j);
    } else {
      RecordBeaten(rows, ep, i.value);
    }
  }

  lemma RecordBeaten(rows: seq<Row>, ep: U16, i: nat)
    requires i < |rows| && rows[i].ep > ep
    ensures Record(rows, ep, rows[i].account) == rows
  {
  }

  lemma ComesInOrdered(rows: seq<Row>, ep: U16, account: Account, j: nat)
    requires Ordered(rows) && IndexOfAccount(rows, account).None? && FirstNotBetter(rows, ep, j)
    ensures Ordered(ComesIn(rows, Row(ep, account), j))
  {
    hide IndexOfAccount;
    var r := ComesIn(rows, Row(ep, account), j);
    assert forall k :: 0 <= k < |r| ==> r[k] == if k < j then rows[k] else if k == j then Row(ep, account) else rows[k - 1];
  }

  lemma MovesUpOrdered(rows: seq<Row>, ep: U16, i: nat, j: nat)
    requires Ordered(rows) && j <= i < |rows| && rows[i].ep <= ep && FirstNotBetter(rows, ep, j)
    ensures Ordered(MovesUp(rows, Row(ep, rows[i].account), i, j))
  {
    hide MovesUp;
    var row := Row(ep, rows[i].account);
    var r := MovesUp(rows, row, i, j);
    MovesUpAt(rows, row, i, j, 0);
    forall a, b | 0 <= a < b < |r| ensures r[a].ep >= r[b].ep && r[a].account != r[b].account {
      MovesUpAt(rows, row, i, j, a);
      MovesUpAt(rows, row, i, j, b);
    }
  }

  lemma TopOrdered(rows: seq<Row>, n: nat)
    requires Ordered(rows)
    ensures Ordered(Top(rows, n))
  {
  }

  /** What the cap forgets never matters to the top. */
  lemma TopOfRecord(rows: seq<Row>, ep: U16, account: Account, n: nat)
    requires Ordered(rows)
    ensures Top(Record(Top(rows, n), ep, account), n) == Top(Record(rows, ep, account), n)
  {
    if |rows| > n {
      var top := rows[..n];
      var j := SomeFirstNotBetter(rows, ep);
      var i := IndexOfAccount(rows, account);
      if i.None? {
        NewAtTop(rows, ep, account, j, n);
      } else if i.value < n {
        KnownAtTop(rows, ep, i.value, j, n);
      } else if rows[i.value].ep <= ep {
        BelowTop(rows, ep, i.value, j, n);
      } else {
        assert FirstNotBetter(top, ep, n);
        assert IndexOfAccount(top, account).None?;
        RecordNew(top, ep, account, n);
        RecordBeaten(rows, ep, i.value);
        assert ComesIn(top, Row(ep, account), n)[..n] == top;
      }
    }
  }

  lemma TopPlace(rows: seq<Row>, ep: U16, j: nat, n: nat)
    requires n < |rows| && FirstNotBetter(rows, ep, j)
    ensures FirstNotBetter(rows[..n], ep, Min(j, n))
  {
  }

  lemma ComesInTop(rows: seq<Row>, row: Row, j: nat, n: nat)
    requires n < |rows| && j <= |rows|
    ensures Top(ComesIn(rows[..n], row, Min(j, n)), n) == Top(ComesIn(rows, row, j), n)
  {
    hide ComesIn;
    var a, b := ComesIn(rows[..n], row, Min(j, n)), ComesIn(rows, row, j);
    ComesInAt(rows[..n], row, Min(j, n), 0);
    ComesInAt(rows, row, j, 0);
    forall k | 0 <= k < n ensures a[k] == b[k] {
      ComesInAt(rows[..n], row, Min(j, n), k);
      ComesInAt(rows, row, j, k);
    }
  }

  lemma NewAtTop(rows: seq<Row>, ep: U16, account: Account, j: nat, n: nat)
    requires n < |rows| && IndexOfAccount(rows, account).None? && FirstNotBetter(rows, ep, j)
    ensures Top(Record(rows[..n], ep, account), n) == Top(Record(rows, ep, account), n)
  {
    hide Record;
    TopPlace(rows, ep, j, n);
    RecordNew(rows, ep, account, j);
    assert IndexOfAccount(rows[..n], account).None?;
    RecordNew(rows[..n], ep, account, Min(j, n));
    ComesInTop(rows, Row(ep, account), j, n);
  }

  lemma KnownAtTop(rows: seq<Row>, ep: U16, i: nat, j: nat, n: nat)
    requires Ordered(rows) && i < n < |rows| && FirstNotBetter(rows, ep, j)
    ensures Top(Record(rows[..n], ep, rows[i].account), n) == Top(Record(rows, ep, rows[i].account), n)
  {
    hide Record;
    var top := rows[..n];
    if rows[i].ep <= ep {
      RecordKnown(rows, ep, i, j);
      RecordKnown(top, ep, i, j);
      assert MovesUp(top, Row(ep, rows[i].account), i, j) == MovesUp(rows, Row(ep, rows[i].account), i, j)[..n];
    } else {
      RecordBeaten(rows, ep, i);
      RecordBeaten(top, ep, i);
    }
  }

  lemma BelowIsOut(rows: seq<Row>, row: Row, i: nat, j: nat, n: nat)
    requires n <= i < |rows| && j <= i
    ensures Top(ComesIn(rows[..n], row, Min(j, n)), n) == Top(MovesUp(rows, row, i, j), n)
  {
    hide ComesIn;
    hide MovesUp;
    var a, b := ComesIn(rows[..n], row, Min(j, n)), MovesUp(rows, row, i, j);
    ComesInAt(rows[..n], row, Min(j, n), 0);
    MovesUpAt(rows, row, i, j, 0);
    forall k | 0 <= k < n ensures a[k] == b[k] {
      ComesInAt(rows[..n], row, Min(j, n), k);
      MovesUpAt(rows, row, i, j, k);
    }
  }

  lemma BelowTop(rows: seq<Row>, ep: U16, i: nat, j: nat, n: nat)
    requires Ordered(rows) && n <= i < |rows| && rows[i].ep <= ep && FirstNotBetter(rows, ep, j)
    ensures Top(Record(rows[..n], ep, rows[i].account), n) == Top(Record(rows, ep, rows[i].account), n)
  {
    hide Record;
    RecordKnown(rows, ep, i, j);
    TopPlace(rows, ep, j, n);
    assert IndexOfAccount(rows[..n], rows[i].account).None?;
    RecordNew(rows[..n], ep, rows[i].account, Min(j, n));
    BelowIsOut(rows, Row(ep, rows[i].account), i, j, n);
  }

  /** After any run of submissions the capped board is the top of the one that forgets nothing. */
  lemma {:induction false} CapLosesNothing(subs: seq<Row>, n: nat)
    ensures Ordered(Unbounded(subs)) && Capped(subs, n) == Top(Unbounded(subs), n)
    decreases |subs|
  {
    if subs != [] {
      var before, last := subs[..|subs| - 1], subs[|subs| - 1];
      CapLosesNothing(before, n);
      RecordOrdered(Unbounded(before), last.ep, last.account);
      TopOfRecord(Unbounded(before), last.ep, last.account, n);
    }
  }

  // ----- what the rows mean -----

  /** The best EP an account submitted; 0 when it submitted none. */
  function Best(subs: seq<Row>, account: Account): nat
    decreases |subs|
  {
    if subs == [] then 0
    else
      var before, last := Best(subs[..|subs| - 1], account), subs[|subs| - 1];
      if last.account == account && last.ep > before then last.ep else before
  }

  /** When the account last submitted its best; 0 when it submitted nothing. */
  function LastBest(subs: seq<Row>, account: Account): nat
    decreases |subs|
  {
    if subs == [] then 0
    else if subs[|subs| - 1].account == account && subs[|subs| - 1].ep >= Best(subs[..|subs| - 1], account) then |subs|
    else LastBest(subs[..|subs| - 1], account)
  }

  ghost predicate Submitted(subs: seq<Row>, account: Account) { exists i :: 0 <= i < |subs| && subs[i].account == account }

  ghost predicate ShowsBest(row: Row, subs: seq<Row>) { Submitted(subs, row.account) && row.ep == Best(subs, row.account) }

  ghost predicate Precedes(x: Row, y: Row, subs: seq<Row>) {
    x.ep > y.ep || (x.ep == y.ep && LastBest(subs, x.account) > LastBest(subs, y.account))
  }

  /** Every row shows an account's best; rows are strictly ordered by best EP and, among equals, by who was last to reach it. */
  ghost predicate Truthful(rows: seq<Row>, subs: seq<Row>) {
    && (forall i :: 0 <= i < |rows| ==> ShowsBest(rows[i], subs))
    && (forall i, j :: 0 <= i < j < |rows| ==> Precedes(rows[i], rows[j], subs))
    && (forall i :: 0 <= i < |subs| ==> IndexOfAccount(rows, subs[i].account).Some?)
  }

  lemma {:induction false} BestIsBest(subs: seq<Row>, account: Account)
    ensures forall i :: 0 <= i < |subs| && subs[i].account == account ==> subs[i].ep <= Best(subs, account)
    ensures LastBest(subs, account) <= |subs|
    decreases |subs|
  {
    if subs != [] {
      BestIsBest(subs[..|subs| - 1], account);
    }
  }

  /** What one more submission changes for an account. */
  ghost predicate OneMore(before: seq<Row>, last: Row, account: Account) {
    var subs := before + [last];
    && LastBest(before, account) <= |before|
    && (Submitted(subs, account) <==> Submitted(before, account) || account == last.account)
    && (if account == last.account && last.ep >= Best(before, account)
        then Best(subs, account) == last.ep && LastBest(subs, account) == |subs|
        else Best(subs, account) == Best(before, account) && LastBest(subs, account) == LastBest(before, account))
  }

  lemma OneMoreSubmission(before: seq<Row>, last: Row, account: Account)
    ensures OneMore(before, last, account)
  {
    var subs := before + [last];
    assert subs[..|subs| - 1] == before;
    BestIsBest(before, account);
    if Submitted(before, account) {
      var i :| 0 <= i < |before| && before[i].account == account;
      assert subs[i] == before[i];
    }
    if account == last.account {
      assert subs[|before|].account == account;
    }
  }

  lemma {:induction false} NoSubmissionNoBest(subs: seq<Row>, account: Account)
    requires !Submitted(subs, account)
    ensures Best(subs, account) == 0
    decreases |subs|
  {
    if subs != [] {
      var before, last := subs[..|subs| - 1], subs[|subs| - 1];
      assert subs == before + [last];
      OneMoreSubmission(before, last, account);
      NoSubmissionNoBest(before, account);
    }
  }

  lemma KnownAccount(rows: seq<Row>, before: seq<Row>, account: Account)
    requires Truthful(rows, before)
    ensures Submitted(before, account) <==> IndexOfAccount(rows, account).Some?
  {
    if Submitted(before, account) {
      var i :| 0 <= i < |before| && before[i].account == account;
    }
  }

  /** Where the new row comes in, everything stays ordered by best EP and by who reached it last. */
  lemma RecordTruthful(rows: seq<Row>, before: seq<Row>, last: Row)
    requires Ordered(rows) && Truthful(rows, before)
    ensures Truthful(Record(rows, last.ep, last.account), before + [last])
  {
    hide Record;
    hide IndexOfAccount;
    hide Best;
    hide LastBest;
    hide Submitted;
    var j := SomeFirstNotBetter(rows, last.ep);
    var i := IndexOfAccount(rows, last.account);
    KnownAccount(rows, before, last.account);
    assert i.Some? ==> ShowsBest(rows[i.value], before);
    if i.None? {
      RecordNew(rows, last.ep, last.account, j);
      NoSubmissionNoBest(before, last.account);
      ComesInTruthful(rows, before, last, j);
    } else if rows[i.value].ep <= last.ep {
      RecordKnown(rows, last.ep, i.value, j);
      MovesUpTruthful(rows, before, last, i.value, j);
    } else {
      RecordBeaten(rows, last.ep, i.value);
      BeatenTruthful(rows, before, last, i.value);
    }
  }

  ghost predicate Lists(rows: seq<Row>, account: Account) { exists i :: 0 <= i < |rows| && rows[i].account == account }

  lemma ListedStays(rows: seq<Row>, before: seq<Row>, last: Row, r: seq<Row>)
    requires Truthful(rows, before)
    requires forall k :: 0 <= k < |rows| ==> Lists(r, rows[k].account)
    requires Lists(r, last.account)
    ensures forall k :: 0 <= k < |before| + 1 ==> IndexOfAccount(r, (before + [last])[k].account).Some?
  {
    var subs := before + [last];
    forall k | 0 <= k < |subs| ensures IndexOfAccount(r, subs[k].account).Some? {
      if k < |before| {
        assert IndexOfAccount(rows, before[k].account).Some?;
        var x := IndexOfAccount(rows, before[k].account).value;
        assert rows[x].account == subs[k].account;
      }
    }
  }

  /** A row of another account, or of one that did not improve, is as true as before. */
  lemma StaysTrue(before: seq<Row>, last: Row, x: Row, y: Row)
    requires x.account != last.account || last.ep < Best(before, last.account)
    requires y.account != last.account || last.ep < Best(before, last.account)
    ensures ShowsBest(x, before) ==> ShowsBest(x, before + [last])
    ensures Precedes(x, y, before) ==> Precedes(x, y, before + [last])
  {
    hide Best;
    hide LastBest;
    hide Submitted;
    OneMoreSubmission(before, last, x.account);
    OneMoreSubmission(before, last, y.account);
  }

  /** A row that becomes its account's best shows it, and comes before every row it is not worse than. */
  lemma BecomesTrue(before: seq<Row>, last: Row, y: Row)
    requires last.ep >= Best(before, last.account)
    ensures ShowsBest(last, before + [last])
    ensures y.account != last.account && y.ep <= last.ep ==> Precedes(last, y, before + [last])
  {
    hide Best;
    hide LastBest;
    hide Submitted;
    OneMoreSubmission(before, last, last.account);
    OneMoreSubmission(before, last, y.account);
  }

  lemma ComesInTruthful(rows: seq<Row>, before: seq<Row>, last: Row, j: nat)
    requires Truthful(rows, before) && FirstNotBetter(rows, last.ep, j)
    requires (forall k :: 0 <= k < |rows| ==> rows[k].account != last.account) && Best(before, last.account) == 0
    requires forall k :: j <= k < |rows| ==> rows[k].ep <= last.ep
    ensures Truthful(ComesIn(rows, last, j), before + [last])
  {
    hide ComesIn;
    hide ShowsBest;
    hide Precedes;
    hide IndexOfAccount;
    var r, subs := ComesIn(rows, last, j), before + [last];
    ComesInAt(rows, last, j, j);
    forall k | 0 <= k < |r| ensures ShowsBest(r[k], subs) {
      ComesInAt(rows, last, j, k);
      BecomesTrue(before, last, r[k]);
      StaysTrueUnless(before, last, r[k], r[k], k == j);
    }
    forall k, m | 0 <= k < m < |r| ensures Precedes(r[k], r[m], subs) {
      ComesInAt(rows, last, j, k);
      ComesInAt(rows, last, j, m);
      if k == j {
        BecomesTrue(before, last, r[m]);
      } else if m == j {
        HigherPrecedes(r[k], last, subs);
      } else {
        StaysTrue(before, last, r[k], r[m]);
      }
    }
    forall k | 0 <= k < |rows| ensures Lists(r, rows[k].account) {
      ComesInAt(rows, last, j, if k < j then k else k + 1);
    }
    ListedStays(rows, before, last, r);
  }

  lemma HigherPrecedes(x: Row, y: Row, subs: seq<Row>)
    requires x.ep > y.ep
    ensures Precedes(x, y, subs)
  {
  }

  lemma StaysTrueUnless(before: seq<Row>, last: Row, x: Row, y: Row, isNew: bool)
    requires !isNew ==> x.account != last.account && y.account != last.account
    ensures !isNew ==> (ShowsBest(x, before) ==> ShowsBest(x, before + [last]))
  {
    if !isNew {
      StaysTrue(before, last, x, y);
    }
  }

  lemma MovesUpTruthful(rows: seq<Row>, before: seq<Row>, last: Row, i: nat, j: nat)
    requires Ordered(rows) && Truthful(rows, before) && FirstNotBetter(rows, last.ep, j) && j <= i < |rows|
    requires rows[i].account == last.account && rows[i].ep <= last.ep && Best(before, last.account) <= last.ep
    ensures Truthful(MovesUp(rows, last, i, j), before + [last])
  {
    hide MovesUp;
    hide ShowsBest;
    hide Precedes;
    hide IndexOfAccount;
    var r, subs := MovesUp(rows, last, i, j), before + [last];
    MovesUpAt(rows, last, i, j, j);
    forall k | 0 <= k < |r| ensures ShowsBest(r[k], subs) {
      MovesUpAt(rows, last, i, j, k);
      BecomesTrue(before, last, r[k]);
      StaysTrueUnless(before, last, r[k], r[k], k == j);
    }
    forall k, m | 0 <= k < m < |r| ensures Precedes(r[k], r[m], subs) {
      MovesUpAt(rows, last, i, j, k);
      MovesUpAt(rows, last, i, j, m);
      if k == j {
        BecomesTrue(before, last, r[m]);
      } else if m == j {
        HigherPrecedes(r[k], last, subs);
      } else {
        StaysTrue(before, last, r[k], r[m]);
      }
    }
    forall k | 0 <= k < |rows| ensures Lists(r, rows[k].account) {
      MovesUpAt(rows, last, i, j, if k < j || k > i then k else if k == i then j else k + 1);
    }
    ListedStays(rows, before, last, r);
  }

  lemma BeatenTruthful(rows: seq<Row>, before: seq<Row>, last: Row, i: nat)
    requires Truthful(rows, before) && i < |rows| && rows[i].account == last.account && last.ep < Best(before, last.account)
    ensures Truthful(rows, before + [last])
  {
    hide ShowsBest;
    hide Precedes;
    hide IndexOfAccount;
    hide Best;
    forall k | 0 <= k < |rows| ensures ShowsBest(rows[k], before + [last]) {
      StaysTrue(before, last, rows[k], rows[k]);
    }
    forall k, m | 0 <= k < m < |rows| ensures Precedes(rows[k], rows[m], before + [last]) {
      StaysTrue(before, last, rows[k], rows[m]);
    }
    forall k | 0 <= k < |rows| ensures Lists(rows, rows[k].account) {
    }
    ListedStays(rows, before, last, rows);
  }

  lemma NothingIsTruthful()
    ensures Truthful([], [])
  {
  }

  /** After any run of submissions the board tells the truth: exactly the accounts that submitted are on the board that
      forgets nothing, each with the largest EP it ever submitted, best first, the later scorer first among equals. */
  lemma {:induction false} RowsAreTruthful(subs: seq<Row>)
    ensures Ordered(Unbounded(subs)) && Truthful(Unbounded(subs), subs)
    decreases |subs|
  {
    hide Truthful;
    hide Record;
    CapLosesNothing(subs, 0);
    NothingIsTruthful();
    if subs != [] {
      var before, last := subs[..|subs| - 1], subs[|subs| - 1];
      RowsAreTruthful(before);
      RecordTruthful(Unbounded(before), before, last);
      assert subs == before + [last];
    }
  }
}
