/** The bounded stores of the contract after any sequence of messages, told from the scores and ghosts
    that the finished matches submitted. */
module ContractRuns {
  import opened Types
  import opened Leaderboard
  import opened Matchmaking
  import opened GhostChoice
  import opened Organizer
  import opened OrganizerLaws
  import opened Contract
  import opened ContractLaws
  import Client
  import PlayerOps
  import ShopLog

  /** What a message makes of the player's turn; None when it finishes none. */
  function Turn(s: Store, msg: Message): Option<TurnResult> {
    match msg
    case StartMtc(_, _, _) => None
    case FinishMtcShop(player, ops, seed, block, first, budget) =>
      if s.tables.None? || player !in s.settings || player !in s.matches || player !in s.seeds then None
      else PlayTurn(s.matches[player], s.settings[player], ops, s.seeds[player], seed, first, budget, s.tables.value.bases)
  }

  predicate EndsMatch(s: Store, msg: Message) {
    Handle(s, msg).Some? && Turn(s, msg).Some? && Turn(s, msg).value.place.Some?
  }

  /** The EP that a finished match submits to the leaderboard. */
  function Score(s: Store, msg: Message): seq<Row> {
    if EndsMatch(s, msg) && msg.player in Receive(s, msg).eps then [Row(Receive(s, msg).eps[msg.player], msg.player)] else []
  }

  function Scores(s: Store, msgs: seq<Message>): seq<Row>
    decreases |msgs|
  {
    if msgs == [] then []
    else Scores(s, msgs[..|msgs| - 1]) + Score(ReceiveAll(s, msgs[..|msgs| - 1]), msgs[|msgs| - 1])
  }

  /** The ghost that a match finished with a board leaves in the band of the EP the player had. */
  function Left(s: Store, msg: Message, band: U16): seq<Submission> {
    if EndsMatch(s, msg) && msg.player in s.eps && EpBand(s.eps[msg.player]) == band && LastTurn(Turn(s, msg).value.m.history).board != []
    then [Submission(msg.block, msg.player, GhostOf(Turn(s, msg).value.m.history))] else []
  }

  function AllLeft(s: Store, msgs: seq<Message>, band: U16): seq<Submission>
    decreases |msgs|
  {
    if msgs == [] then []
    else AllLeft(s, msgs[..|msgs| - 1], band) + Left(ReceiveAll(s, msgs[..|msgs| - 1]), msgs[|msgs| - 1], band)
  }

  lemma ReceiveScores(s: Store, msg: Message)
    ensures var score := Score(s, msg);
            Receive(s, msg).leaderboard
            == if score == [] then s.leaderboard else Top(Record(s.leaderboard, score[0].ep, score[0].account), LEADERBOARD_SIZE)
    ensures |Score(s, msg)| <= 1
  {
    hide PlayTurn;
    hide Record;
    hide Choose;
  }

  lemma ReceiveLeaves(s: Store, msg: Message, band: U16)
    ensures var left := Left(s, msg, band);
            BandOf(Receive(s, msg).bands, band) == if left == [] then BandOf(s.bands, band) else Add(BandOf(s.bands, band), left[0])
    ensures |Left(s, msg, band)| <= 1
  {
    hide PlayTurn;
    hide Record;
    hide Choose;
    hide Add;
  }

  /** The leaderboard in storage is the first 100 rows of the one that forgets nothing. */
  lemma {:induction false} StoredLeaderboard(tables: Tables, msgs: seq<Message>)
    ensures var s := ReceiveAll(Genesis(tables), msgs);
            s.leaderboard == Top(Unbounded(Scores(Genesis(tables), msgs)), LEADERBOARD_SIZE)
    decreases |msgs|
  {
    hide Receive;
    hide Score;
    hide Record;
    var s0 := Genesis(tables);
    CapLosesNothing(Scores(s0, msgs), LEADERBOARD_SIZE);
    if msgs != [] {
      var before, msg := msgs[..|msgs| - 1], msgs[|msgs| - 1];
      StoredLeaderboard(tables, before);
      CapLosesNothing(Scores(s0, before), LEADERBOARD_SIZE);
      ReceiveScores(ReceiveAll(s0, before), msg);
      var score, scores := Score(ReceiveAll(s0, before), msg), Scores(s0, before);
      if score == [] {
        assert scores + [] == scores;
      } else {
        assert score == [score[0]];
        assert (scores + score)[..|scores + score| - 1] == scores;
      }
    }
  }

  /** Each band in storage holds what the ghosts left in it, one after the other, make of it. */
  lemma {:induction false} StoredBand(tables: Tables, msgs: seq<Message>, band: U16)
    ensures BandOf(ReceiveAll(Genesis(tables), msgs).bands, band) == AddAll(AllLeft(Genesis(tables), msgs, band))
    decreases |msgs|
  {
    hide Receive;
    hide Left;
    hide Add;
    var s0 := Genesis(tables);
    if msgs != [] {
      var before, msg := msgs[..|msgs| - 1], msgs[|msgs| - 1];
      StoredBand(tables, before, band);
      ReceiveLeaves(ReceiveAll(s0, before), msg, band);
      var left, all := Left(ReceiveAll(s0, before), msg, band), AllLeft(s0, before, band);
      if left == [] {
        assert all + [] == all;
      } else {
        assert left == [left[0]];
        assert (all + left)[..|all + left| - 1] == all;
      }
    }
  }

  /** Blocks are never older than those of earlier messages. */
  ghost predicate Chronological(msgs: seq<Message>) {
    forall i, j :: 0 <= i < j < |msgs| && msgs[i].FinishMtcShop? && msgs[j].FinishMtcShop? ==> msgs[i].block <= msgs[j].block
  }

  lemma LeftAt(s: Store, msg: Message, band: U16)
    ensures |Left(s, msg, band)| <= 1
    ensures Left(s, msg, band) != [] ==> msg.FinishMtcShop? && Left(s, msg, band)[0].block == msg.block
  {
    hide PlayTurn;
    hide Handle;
  }

  lemma {:induction false} LeftBefore(s: Store, msgs: seq<Message>, band: U16, bound: nat)
    requires forall i :: 0 <= i < |msgs| && msgs[i].FinishMtcShop? ==> msgs[i].block <= bound
    ensures forall i :: 0 <= i < |AllLeft(s, msgs, band)| ==> AllLeft(s, msgs, band)[i].block <= bound
    decreases |msgs|
  {
    hide Left;
    hide ReceiveAll;
    if msgs != [] {
      LeftBefore(s, msgs[..|msgs| - 1], band, bound);
      LeftAt(ReceiveAll(s, msgs[..|msgs| - 1]), msgs[|msgs| - 1], band);
    }
  }

  lemma {:induction false} LeftInTime(s: Store, msgs: seq<Message>, band: U16)
    requires Chronological(msgs)
    ensures InTime(AllLeft(s, msgs, band))
    decreases |msgs|
  {
    hide Left;
    hide ReceiveAll;
    if msgs != [] {
      var before, msg := msgs[..|msgs| - 1], msgs[|msgs| - 1];
      LeftInTime(s, before, band);
      LeftAt(ReceiveAll(s, before), msg, band);
      if Left(ReceiveAll(s, before), msg, band) != [] {
        LeftBefore(s, before, band, msg.block);
      }
    }
  }

  /** The stores tell the truth after any messages: the leaderboard lists the best of every account that belongs among
      the first 100, and each band the latest ghosts, none of them older than one that had to go. */
  lemma StoresAreTruthful(tables: Tables, msgs: seq<Message>, band: U16)
    requires Chronological(msgs)
    ensures var s, scores := ReceiveAll(Genesis(tables), msgs), Scores(Genesis(tables), msgs);
            && s.leaderboard == Top(Unbounded(scores), LEADERBOARD_SIZE) && Truthful(Unbounded(scores), scores)
            && UpToDate(BandOf(s.bands, band), AllLeft(Genesis(tables), msgs, band))
  {
    hide ReceiveAll;
    hide Truthful;
    hide UpToDate;
    StoredLeaderboard(tables, msgs);
    RowsAreTruthful(Scores(Genesis(tables), msgs));
    StoredBand(tables, msgs, band);
    LeftInTime(Genesis(tables), msgs, band);
    BandsAreUpToDate(AllLeft(Genesis(tables), msgs, band));
  }

  // ----- both sides of a reachable match -----

  lemma PoolIsFair(pool: seq<Card>)
    requires UniqueIds(pool)
    ensures Client.FairPool(set c | c in pool)
  {
  }

  /** In every reachable match, whatever the player does on the screen with cards of the pool: if the contract accepts the
      operations that the client submits, the board it records is the board on the screen. */
  lemma ReachableAgrees(tables: Tables, msgs: seq<Message>, player: Account, gs: seq<Client.Gesture>, next: nat, seed: Seed,
                        block: nat, first: FirstIds, budget: nat)
    requires WellFormed(tables.bases) && player in ReceiveAll(Genesis(tables), msgs).matches
    requires player in ReceiveAll(Genesis(tables), msgs).settings && player in ReceiveAll(Genesis(tables), msgs).seeds
    requires Client.PlacesFrom(gs, set c | c in ReceiveAll(Genesis(tables), msgs).settings[player].pool)
    ensures var s := ReceiveAll(Genesis(tables), msgs);
            var screen := Client.Open(LastTurn(s.matches[player].history).board, next, s.seeds[player].visit.shop, tables.bases);
            screen.Some? && Client.ReactAll(screen.value, gs, tables.bases).Some? ==>
              var c := Client.ReactAll(screen.value, gs, tables.bases).value;
              var t := Turn(s, FinishMtcShop(player, c.ops, seed, block, first, budget));
              t.Some? ==> LastTurn(t.value.m.history).board == c.board
  {
    hide ReceiveAll;
    hide BattleAll;
    hide PlayerOps.Verify;
    hide Client.Open;
    hide Client.ReactAll;
    hide Client.PlacesFrom;
    hide Client.FairPool;
    hide Field;
    hide LegalRivals;
    hide LegalBands;
    hide GhostBoard;
    hide UniqueIds;
    hide WellFormed;
    hide Ordered;
    ReachableIsLegal(tables, msgs);
    var s := ReceiveAll(Genesis(tables), msgs);
    var m, setting := s.matches[player], s.settings[player];
    var last, screen := LastTurn(m.history), Client.Open(LastTurn(m.history).board, next, s.seeds[player].visit.shop, tables.bases);
    PoolIsFair(setting.pool);
    if screen.Some? && Client.ReactAll(screen.value, gs, tables.bases).Some? && TurnOf(m.history).Some? {
      Client.ChainMatchesClient(last.board, last.grade, m.upgradeCoin, gs, setting.pool, s.seeds[player].visit, TurnOf(m.history).value,
                                tables.bases, next);
    }
  }

  // ----- why a turn fails -----

  /** In a reachable match a turn fails only when 39 turns are recorded, the operations are rejected or a march fails. */
  lemma ReachableTurnFails(tables: Tables, msgs: seq<Message>, player: Account, ops: seq<PlayerOps.Op>, seed: Seed, block: nat,
                           first: FirstIds, budget: nat)
    requires WellFormed(tables.bases) && player in ReceiveAll(Genesis(tables), msgs).matches
    ensures var s := ReceiveAll(Genesis(tables), msgs);
            && player in s.settings && player in s.seeds && |s.matches[player].history| <= 39
            && var m, setting := s.matches[player], s.settings[player];
               var turn, last := |m.history| + 1, LastTurn(m.history);
               var v := PlayerOps.Verify(last.board, last.grade, m.upgradeCoin, ops, setting.pool, s.seeds[player].visit, turn,
                                         tables.bases);
               && |m.states| == 3 && |setting.rivals| == 3 && m.ghostIndex < 3
               && (Handle(s, FinishMtcShop(player, ops, seed, block, first, budget)).Some? <==>
                     turn < 40 && v.Some?
                     && MarchesSucceed(GhostBoard(ShopLog.Strip(v.value.shop.board)), m.states, GhostsOf(setting.rivals),
                                       m.ghostIndex, turn, Dice(seed.pvg, seed.gvg, first, budget), tables.bases))
  {
    hide ReceiveAll;
    hide BattleAll;
    hide PlayerOps.Verify;
    hide MarchesSucceed;
    ReachableIsLegal(tables, msgs);
    var s := ReceiveAll(Genesis(tables), msgs);
    assert Open(s.matches[player], s.settings[player], tables.bases);
    FinishKeepsLegal(s, player, ops, seed, block, first, budget, tables.bases);
    TurnFails(s.matches[player], s.settings[player], ops, s.seeds[player], seed, first, budget, tables.bases);
  }

  lemma TurnFails(m: Match, setting: Setting, ops: seq<PlayerOps.Op>, stored: Seed, drawn: Seed, first: FirstIds, budget: nat, bases: Bases)
    requires WellFormed(bases) && Open(m, setting, bases)
    ensures var turn, last := |m.history| + 1, LastTurn(m.history);
            var v := PlayerOps.Verify(last.board, last.grade, m.upgradeCoin, ops, setting.pool, stored.visit, turn, bases);
            PlayTurn(m, setting, ops, stored, drawn, first, budget, bases).Some? <==>
              turn < 40 && v.Some?
              && MarchesSucceed(GhostBoard(ShopLog.Strip(v.value.shop.board)), m.states, GhostsOf(setting.rivals), m.ghostIndex, turn,
                                Dice(drawn.pvg, drawn.gvg, first, budget), bases)
  {
    hide BattleAll;
    hide PlayerOps.Verify;
    hide MarchesSucceed;
    hide LegalHand;
    var turn, last := |m.history| + 1, LastTurn(m.history);
    var v := PlayerOps.Verify(last.board, last.grade, m.upgradeCoin, ops, setting.pool, stored.visit, turn, bases);
    if turn < 40 && v.Some? {
      VisitIsLegal(last.board, last.grade, m.upgradeCoin, ops, setting.pool, stored.visit, turn, bases);
      LaterSeasoned(m.states, m.ghostIndex, |m.history|);
      TurnFailsOnlyInMarches(GhostBoard(ShopLog.Strip(v.value.shop.board)), m.health, m.states, v.value.grade, GhostsOf(setting.rivals),
                             m.ghostIndex, turn, Dice(drawn.pvg, drawn.gvg, first, budget), bases);
    }
  }
}
