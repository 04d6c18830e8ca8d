/** The shop's log is a faithful trace: replaying it on the starting board, with no knowledge of
    emo ids or abilities, rebuilds the board the cascade computed. */
module ShopLog {
  import opened Types
  import opened Shop
  import opened ShopRun
  import opened ShopLaws

  function Strip(board: seq<ShopEmo>): Board {
    seq(|board|, i requires 0 <= i < |board| => ToBoardEmo(board[i]))
  }

  /** The emos whose position, counted from `from`, is not listed. */
  function Unlisted(board: Board, indexes: seq<nat>, from: nat): Board {
    if board == [] then []
    else (if from in indexes then [] else [board[0]]) + Unlisted(board[1..], indexes, from + 1)
  }

  /** What a viewer does with one log entry; None when the entry cannot be about this board. */
  function Apply(board: Board, log: Log): Option<Board> {
    match log
    case Add(i, e) =>
      if i <= |board| < BOARD_EMO_MAX_COUNT then Some(board[..i] + [e] + board[i..]) else None
    case Remove(i) =>
      if i < |board| then Some(board[..i] + board[i + 1..]) else None
    case Move(from, to) =>
      if from < |board| && to < |board| && (from + 1 == to || to + 1 == from)
      then Some(board[from := board[to]][to := board[from]]) else None
    case RaiseStats(i, attack, health, a, h) =>
      if i < |board| && a == Sat16(board[i].attr.attack + attack) && h == Sat16(board[i].attr.health + health)
      then Some(board[i := board[i].(attr := board[i].attr.(attack := a, health := h))]) else None
    case AddAbilityTo(i, ability, isTargetTriple) =>
      if i < |board| && isTargetTriple == board[i].attr.isTriple
      then Some(board[i := board[i].(attr := board[i].attr.(abilities := board[i].attr.abilities + [ability]))]) else None
    case Triple(indexes) =>
      if (forall i :: i in indexes ==> i < |board|) && |Unlisted(board, indexes, 0)| + |indexes| == |board|
      then Some(Unlisted(board, indexes, 0)) else None
  }

  function Replay(board: Board, logs: seq<Log>): Option<Board>
    decreases |logs|
  {
    if logs == [] then Some(board)
    else
      var last := |logs| - 1;
      var b :- Replay(board, logs[..last]);
      Apply(b, logs[last])
  }

  ghost predicate Traces(start: Board, s: State) { Replay(start, s.logs) == Some(Strip(s.board)) }

  lemma ReplayOne(start: Board, logs: seq<Log>, log: Log, board: Board)
    requires Replay(start, logs) == Some(board)
    ensures Replay(start, logs + [log]) == Apply(board, log)
  {
    assert (logs + [log])[..|logs|] == logs;
  }

  /** An insertion, with its `Add` entry, keeps the trace. */
  lemma InsertTraces(start: Board, s: State, emo: ShopEmo, index: nat, bases: Bases)
    requires Traces(start, s)
    ensures var r := InsertEmo(s, emo, index, bases); r.Some? ==> Traces(start, r.value.0)
  {
    var r := InsertEmo(s, emo, index, bases);
    if r.Some? {
      ReplayOne(start, s.logs, Add(index, ToBoardEmo(emo)), Strip(s.board));
      var board := Strip(s.board);
      assert Strip(r.value.0.board) == board[..index] + [ToBoardEmo(emo)] + board[index..];
    }
  }

  lemma UpdateTraces(start: Board, s: State, s': State, i: nat, log: Log)
    requires Traces(start, s) && i < |s.board| && |s'.board| == |s.board|
    requires s'.board == s.board[i := s'.board[i]] && s'.logs == s.logs + [log]
    requires Apply(Strip(s.board), log) == Some(Strip(s.board)[i := ToBoardEmo(s'.board[i])])
    ensures Traces(start, s')
  {
    ReplayOne(start, s.logs, log, Strip(s.board));
    assert Strip(s'.board) == Strip(s.board)[i := ToBoardEmo(s'.board[i])];
  }

  lemma {:induction false} CopyIndexesMember(board: seq<ShopEmo>, baseId: U16, from: nat, j: nat)
    ensures j in CopyIndexes(board, baseId, from) <==> from <= j < from + |board| && IsCopy(board[j - from], baseId)
  {
    if board != [] {
      CopyIndexesMember(board[1..], baseId, from + 1, j);
      if from < j < from + |board| {
        assert board[1..][j - (from + 1)] == board[j - from];
      }
    }
  }

  lemma {:induction false} UnlistedCopies(board: seq<ShopEmo>, baseId: U16, indexes: seq<nat>, from: nat)
    requires forall j :: 0 <= j < |board| ==> (from + j in indexes <==> IsCopy(board[j], baseId))
    ensures Unlisted(Strip(board), indexes, from) == Strip(WithoutCopies(board, baseId))
  {
    if board != [] {
      var head, rest := board[0], WithoutCopies(board[1..], baseId);
      assert Strip(board)[1..] == Strip(board[1..]);
      forall j | 0 <= j < |board[1..]| ensures from + 1 + j in indexes <==> IsCopy(board[1..][j], baseId) {
        assert from + (j + 1) in indexes <==> IsCopy(board[j + 1], baseId);
      }
      UnlistedCopies(board[1..], baseId, indexes, from + 1);
      assert from + 0 in indexes <==> IsCopy(board[0], baseId);
      assert Strip([head] + rest) == [ToBoardEmo(head)] + Strip(rest);
      assert Strip([] + rest) == Strip(rest);
    }
  }

  /** Removing the listed indexes at once is removing the copies. */
  lemma TripleTraces(start: Board, s: State, s': State, baseId: U16)
    requires Traces(start, s)
    requires s'.board == WithoutCopies(s.board, baseId) && s'.logs == s.logs + [Triple(CopyIndexes(s.board, baseId, 0))]
    ensures Traces(start, s')
  {
    var indexes := CopyIndexes(s.board, baseId, 0);
    ReplayOne(start, s.logs, Triple(indexes), Strip(s.board));
    forall j: nat ensures j in indexes <==> j < |s.board| && IsCopy(s.board[j], baseId) {
      CopyIndexesMember(s.board, baseId, 0, j);
    }
    UnlistedCopies(s.board, baseId, indexes, 0);
    CopiesPartition(s.board, baseId);
  }

  lemma MergeTraces(start: Board, s: State, newId: nat, bases: Bases)
    requires Traces(start, s)
    ensures var r := MergeCopies(s, newId, bases); r.Some? ==> Traces(start, r.value.0)
  {
    var r := MergeCopies(s, newId, bases);
    if r.Some? {
      var i := FindIndex(s.board, newId).value;
      var baseId := s.board[i].baseId;
      if |Copies(s.board, baseId)| >= 3 {
        var triple := BuildTriple(Copies(s.board, baseId), bases[baseId], s.next).value;
        var removed := s.(board := WithoutCopies(s.board, baseId), next := s.next + 1, earned := s.earned + TRIPLE_REWARD_COIN,
                          logs := s.logs + [Triple(CopyIndexes(s.board, baseId, 0))]);
        TripleTraces(start, s, removed, baseId);
        InsertTraces(start, removed, triple, |WithoutCopies(s.board[..i], baseId)|, bases);
      }
    }
  }

  lemma StepTraces(start: Board, s: State, t: Task, bases: Bases)
    requires Traces(start, s)
    ensures var r := Step(s, t, bases); r.Some? ==> Traces(start, r.value.0)
  {
    var r := Step(s, t, bases);
    if r.Some? {
      var s' := r.value.0;
      if !Rewrites(t) {
        StepFrame(s, t, bases);
      } else {
        match t
        case RaiseById(id, _, _) =>
          UpdateTraces(start, s, s', FindIndex(s.board, id).value, s'.logs[|s.logs|]);
        case GrantById(id, _) =>
          if s' != s {
            UpdateTraces(start, s, s', FindIndex(s.board, id).value, s'.logs[|s.logs|]);
          }
        case Merge(newId) => MergeTraces(start, s, newId, bases);
        case Act(action, ptr, isTriple) =>
          if |s.board| < BOARD_EMO_MAX_COUNT {
            var base := bases[action.baseId];
            InsertTraces(start, s.(next := s.next + 1), ShopEmo(s.next, [], base.id, BuildAttributes(base, isTriple)),
                         NextIndex(s.board, ptr).value, bases);
          }
      }
    }
  }

  lemma RunTraces(start: Board, ts: seq<Task>, s: State, bases: Bases)
    requires Traces(start, s)
    ensures var r := Run(ts, s, bases); r.Some? ==> Traces(start, r.value)
  {
    hide Run;
    var inv := (s1: State) => Traces(start, s1);
    forall s1, t | inv(s1) && Step(s1, t, bases).Some? ensures inv(Step(s1, t, bases).value.0) {
      StepTraces(start, s1, t, bases);
    }
    RunKeeps(inv, ts, s, bases);
  }

  /** Every operation's log, merges and nested cascades included, replays to the board it computed. */
  lemma LogsAreFaithful(start: Board, s: State, bases: Bases,
                        cards: seq<U16>, baseId: U16, isTriple: bool, index: nat, isRight: bool)
    requires Traces(start, s)
    ensures var r := StartShop(s, bases); r.Some? ==> Traces(start, r.value)
    ensures var r := AddEmo(s, cards, baseId, isTriple, index, bases); r.Some? ==> Traces(start, r.value)
    ensures var r := SellEmo(s, index, bases); r.Some? ==> Traces(start, r.value)
    ensures var r := MoveEmo(s, index, isRight); r.Some? ==> Traces(start, r.value)
  {
    RunTraces(start, PreTasks(BoardPres(s.board)), s, bases);
    AddTraces(start, s, bases, cards, baseId, isTriple, index);
    SellTraces(start, s, bases, index);
    MoveTraces(start, s, index, isRight);
  }

  lemma NextTraces(start: Board, s: State)
    requires Traces(start, s)
    ensures Traces(start, s.(next := s.next + 1))
  {
  }

  lemma AddTraces(start: Board, s: State, bases: Bases, cards: seq<U16>, baseId: U16, isTriple: bool, index: nat)
    requires Traces(start, s)
    ensures var r := AddEmo(s, cards, baseId, isTriple, index, bases); r.Some? ==> Traces(start, r.value)
  {
    hide Traces;
    hide Run;
    hide InsertEmo;
    var inserted := InsertNew(s, cards, baseId, isTriple, index, bases);
    if inserted.Some? {
      var base := bases[baseId];
      NextTraces(start, s);
      InsertTraces(start, s.(next := s.next + 1), ShopEmo(s.next, cards, base.id, BuildAttributes(base, isTriple)), index, bases);
      RunTraces(start, inserted.value.1, inserted.value.0, bases);
    }
  }

  lemma SellTraces(start: Board, s: State, bases: Bases, index: nat)
    requires Traces(start, s)
    ensures var r := SellEmo(s, index, bases); r.Some? ==> Traces(start, r.value)
  {
    hide Run;
    hide Replay;
    if index < |s.board| {
      var sold := s.board[index];
      ReplayOne(start, s.logs, Remove(index), Strip(s.board));
      assert Strip(RemoveAt(s, index).board) == Strip(s.board)[..index] + Strip(s.board)[index + 1..];
      RunTraces(start, SelfTasks(PeriOf(sold.attr.abilities), OnSell, Removed(sold, index)), RemoveAt(s, index), bases);
    }
  }

  lemma MoveTraces(start: Board, s: State, index: nat, isRight: bool)
    requires Traces(start, s)
    ensures var r := MoveEmo(s, index, isRight); r.Some? ==> Traces(start, r.value)
  {
    var r := MoveEmo(s, index, isRight);
    if r.Some? {
      var to := if isRight then index + 1 else index - 1;
      var board := Strip(s.board);
      ReplayOne(start, s.logs, Move(index, to), board);
      assert Strip(r.value.board) == board[index := board[to]][to := board[index]];
    }
  }
}
