/** What a message makes of the EP, the ghosts and the match of its player, told in numbers. */
module ContractScores {
  import opened Types
  import opened Leaderboard
  import opened Matchmaking
  import opened GhostChoice
  import opened Organizer
  import opened OrganizerLaws
  import opened Contract
  import opened ContractLaws
  import opened ContractRuns
  import PlayerOps
  import Setup
  import ShopLog

  // ----- starting -----

  /** Everyone begins with 300 EP; who leaves a match unfinished loses 60, down to one. */
  ghost predicate IsEpAtStart(s: Store, player: Account, ep: nat) {
    if player !in s.eps then ep == 300
    else
      var before: int := s.eps[player];
      ep == if player in s.matches then Max(1, before - 60) else before
  }

  /** The health of the ghosts grows with the band of the player, up to 30. */
  function GhostHealth(ep: nat): nat { if ep >= 800 then 30 else 14 + 2 * (ep / 100) }

  /** A match starts with 30 health, the first upgrade at five coins, nothing recorded, and three ghosts of equal health; nobody's
      EP but the player's is touched, and neither leaderboard nor bands. */
  ghost predicate Started(s: Store, s': Store, player: Account, pool: seq<Card>, seed: Seed) {
    && player in s'.eps && IsEpAtStart(s, player, s'.eps[player]) && s'.eps == s.eps[player := s'.eps[player]]
    && player in s'.matches && player in s'.settings
    && (var health := GhostHealth(s'.eps[player]);
        && health < 256
        && s'.matches == s.matches[player := Match(30, [], Some(5), [Active(health), Active(health), Active(health)], 0)])
    && s'.seeds == s.seeds[player := seed] && s'.leaderboard == s.leaderboard && s'.bands == s.bands
    && s'.settings[player].pool == pool
    && Choose(s.bands, s'.eps[player], seed.places, seed.order) == Some(s'.settings[player].rivals)
  }

  lemma StartIs(s: Store, player: Account, deck: seq<U16>, seed: Seed, tables: Tables)
    requires s.tables == Some(tables)
    ensures var r, pool := Start(s, player, deck, seed), Setup.Pool(deck, tables.bases, tables.fixed, tables.built);
            r.Some? ==> pool.Some? && Started(s, r.value, player, pool.value, seed)
  {
    hide Choose;
    hide Setup.Pool;
  }

  lemma MatchStarts(s: Store, player: Account, deck: seq<U16>, seed: Seed, bases: Bases)
    requires Legal(s, bases)
    ensures var s', tables := Receive(s, StartMtc(player, deck, seed)), s.tables.value;
            var pool := Setup.Pool(deck, tables.bases, tables.fixed, tables.built);
            if pool.None? then s' == s else Started(s, s', player, pool.value, seed)
  {
    hide Start;
    hide Setup.Pool;
    StartKeepsLegal(s, player, deck, seed, bases);
    StartIs(s, player, deck, seed, s.tables.value);
  }

  // ----- finishing a turn -----

  /** The first place wins 70 EP and the second 50, one less for every 40 EP above 300 but at least one; the third loses 30 and
      the fourth 50, down to one. There are no other places. */
  ghost predicate IsNewEp(place: nat, before: nat, ep: nat) {
    && 1 <= place <= 4
    && (place == 1 ==> ep == Min(65535, before + Max(1, 70 - Max(0, before - 300) / 40)))
    && (place == 2 ==> ep == Min(65535, before + Max(1, 50 - Max(0, before - 300) / 40)))
    && (place == 3 ==> ep == Max(1, before - 30))
    && (place == 4 ==> ep == Max(1, before - 50))
  }

  /** The band of the EP that the player had receives the ghost, unless it ended with an empty board. */
  ghost predicate LeavesGhost(s: Store, s': Store, player: Account, history: seq<GradeAndBoard>, block: nat)
    requires player in s.eps && history != []
  {
    forall band: U16 ::
      BandOf(s'.bands, band)
      == if band == s.eps[player] / 100 && history[|history| - 1].board != []
         then Add(BandOf(s.bands, band), Submission(block, player, GhostOf(history))) else BandOf(s.bands, band)
  }

  /** The ghost is the whole history, turn by turn, with the boards as they fight. */
  lemma GhostIsHistory(history: seq<GradeAndBoard>)
    ensures var g := GhostOf(history);
            |g| == |history|
            && forall i :: 0 <= i < |history| ==>
                 && g[i].grade == history[i].grade && |g[i].board| == |history[i].board|
                 && forall k :: 0 <= k < |history[i].board| ==>
                      g[i].board[k] == GhostEmo(history[i].board[k].baseId, history[i].board[k].attr)
  {
  }

  /** A seat fights with the ghost that was chosen for it, and a vacant one with nothing. */
  lemma GhostsAreRivals(rivals: seq<Rival>)
    ensures var g := GhostsOf(rivals);
            |g| == |rivals| && forall i :: 0 <= i < |rivals| ==> g[i] == if rivals[i].Some? then rivals[i].value.1 else []
  {
  }

  ghost predicate Ended(s: Store, s': Store, player: Account, place: nat, history: seq<GradeAndBoard>, block: nat)
    requires player in s.eps && history != []
  {
    && player in s'.eps && IsNewEp(place, s.eps[player], s'.eps[player]) && s'.eps == s.eps[player := s'.eps[player]]
    && s'.leaderboard == Top(Record(s.leaderboard, s'.eps[player], player), 100)
    && LeavesGhost(s, s', player, history, block)
    && s'.matches == s.matches - {player} && s'.settings == s.settings - {player}
  }

  /** The next upgrade is one coin cheaper, and the next opponent is active and, while there is another one, not the same. */
  ghost predicate GoesOn(s: Store, s': Store, player: Account, health: U8, states: seq<GhostState>, history: seq<GradeAndBoard>,
                         upgradeCoin: Option<U8>)
    requires player in s.matches
  {
    && s'.eps == s.eps && s'.leaderboard == s.leaderboard && s'.bands == s.bands && s'.settings == s.settings
    && player in s'.matches
    && var m := s'.matches[player];
       && s'.matches == s.matches[player := m] && m.health == health && m.states == states && m.history == history
       && m.upgradeCoin == (if upgradeCoin.Some? then Some(Max(0, upgradeCoin.value - 1)) else None)
       && m.ghostIndex < |states| && states[m.ghostIndex].Active?
       && (m.ghostIndex == s.matches[player].ghostIndex ==> forall i :: 0 <= i < |states| && states[i].Active? ==> i == m.ghostIndex)
  }

  function BoardBefore(history: seq<GradeAndBoard>): GradeAndBoard {
    if history == [] then GradeAndBoard(1, []) else history[|history| - 1]
  }

  /** The turn of a player in a match: it counts from one and stays below 40; the visit starts from the board and grade last
      recorded and is recorded itself; the battles are fought with its board. The place they give ends the match, and no
      place goes on with it; when anything fails nothing has happened. */
  lemma TurnEnds(tables: Tables, msgs: seq<Message>, player: Account, ops: seq<PlayerOps.Op>, seed: Seed, block: nat, first: FirstIds,
                 budget: nat)
    requires WellFormed(tables.bases) && player in ReceiveAll(Genesis(tables), msgs).matches
    ensures var s := ReceiveAll(Genesis(tables), msgs);
            var s' := Receive(s, FinishMtcShop(player, ops, seed, block, first, budget));
            && player in s.settings && player in s.seeds && player in s.eps && |s.matches[player].history| <= 39
            && var m, setting := s.matches[player], s.settings[player];
               var turn, last := |m.history| + 1, BoardBefore(m.history);
               var v := PlayerOps.Verify(last.board, last.grade, m.upgradeCoin, ops, setting.pool, s.seeds[player].visit, turn,
                                         tables.bases);
               if turn >= 40 || v.None? then s' == s
               else
                 var board := ShopLog.Strip(v.value.shop.board);
                 var history := m.history + [GradeAndBoard(v.value.grade, board)];
                 var battle := BattleAll(GhostBoard(board), m.health, m.states, v.value.grade, GhostsOf(setting.rivals), m.ghostIndex,
                                         turn, Dice(seed.pvg, seed.gvg, first, budget), tables.bases);
                 if battle.None? then s' == s
                 else
                   && s'.seeds == s.seeds[player := seed]
                   && (if battle.value.2.Some? then Ended(s, s', player, battle.value.2.value, history, block)
                       else GoesOn(s, s', player, battle.value.0, battle.value.1, history, v.value.upgradeCoin))
  {
    hide ReceiveAll;
    hide BattleAll;
    hide PlayerOps.Verify;
    hide LegalBands;
    hide Open;
    ReachableIsLegal(tables, msgs);
    var s := ReceiveAll(Genesis(tables), msgs);
    assert Open(s.matches[player], s.settings[player], tables.bases);
    var m, setting := s.matches[player], s.settings[player];
    OpenHistory(m, setting, tables.bases);
    FinishKeepsLegal(s, player, ops, seed, block, first, budget, tables.bases);
    TurnKeeps(m, setting, ops, s.seeds[player], seed, first, budget, tables.bases);
    TurnIs(m, setting, ops, s.seeds[player], seed, first, budget, tables.bases);
    hide PlayTurn;
    var t := PlayTurn(m, setting, ops, s.seeds[player], seed, first, budget, tables.bases);
    if t.Some? {
      if t.value.place.Some? {
        MatchEnded(s, player, t.value.place.value, t.value.m.history, block, seed);
      } else {
        MatchGoesOn(s, player, t.value.m, seed);
      }
    }
  }

  lemma OpenHistory(m: Match, setting: Setting, bases: Bases)
    requires Open(m, setting, bases)
    ensures |m.history| <= 39
  {
  }

  /** The turn is the visit and then the battles. */
  lemma TurnIs(m: Match, setting: Setting, ops: seq<PlayerOps.Op>, stored: Seed, drawn: Seed, first: FirstIds, budget: nat, bases: Bases)
    requires |m.history| <= 39
    ensures var turn, last := |m.history| + 1, BoardBefore(m.history);
            var v := PlayerOps.Verify(last.board, last.grade, m.upgradeCoin, ops, setting.pool, stored.visit, turn, bases);
            var r := PlayTurn(m, setting, ops, stored, drawn, first, budget, bases);
            if turn >= 40 || v.None? then r.None?
            else
              var board := ShopLog.Strip(v.value.shop.board);
              var battle := BattleAll(GhostBoard(board), m.health, m.states, v.value.grade, GhostsOf(setting.rivals), m.ghostIndex,
                                      turn, Dice(drawn.pvg, drawn.gvg, first, budget), bases);
              if battle.None? then r.None?
              else
                && r.Some? && r.value.place == battle.value.2 && r.value.m.health == battle.value.0 && r.value.m.states == battle.value.1
                && r.value.m.history == m.history + [GradeAndBoard(v.value.grade, board)]
                && r.value.m.upgradeCoin == v.value.upgradeCoin && r.value.m.ghostIndex == m.ghostIndex
  {
    hide BattleAll;
    hide PlayerOps.Verify;
  }

  lemma MatchEnded(s: Store, player: Account, place: nat, history: seq<GradeAndBoard>, block: nat, seed: Seed)
    requires player in s.eps && s.eps[player] >= 1 && 1 <= place <= 4 && history != []
    ensures var r := FinishMatch(s, player, place, history, block);
            r.Some? && Ended(s, r.value.(seeds := r.value.seeds[player := seed]), player, place, history, block)
  {
    hide Record;
    hide Add;
    NewEpIsLegal(place, s.eps[player]);
  }

  lemma MatchGoesOn(s: Store, player: Account, m: Match, seed: Seed)
    requires player in s.matches && m.ghostIndex == s.matches[player].ghostIndex && !AllRetired(m.states)
    ensures var r := NextTurn(s, player, m, seed);
            r.Some? && GoesOn(s, r.value.(seeds := r.value.seeds[player := seed]), player, m.health, m.states, m.history, m.upgradeCoin)
  {
    SelectSucceeds(m.states, m.ghostIndex, seed.pick);
    ActivesAreAll(m.states);
  }

  lemma {:induction false} ActivesAreAll(states: seq<GhostState>)
    ensures forall i: nat :: i < |states| && states[i].Active? ==> i in ActiveIndexes(states)
  {
    if states != [] {
      ActivesAreAll(states[..|states| - 1]);
    }
  }

  /** The score that goes to the leaderboard, of a match that a message ends. */
  lemma ScoreOfPlace(tables: Tables, msgs: seq<Message>, msg: Message)
    requires WellFormed(tables.bases)
    ensures var s := ReceiveAll(Genesis(tables), msgs);
            EndsMatch(s, msg) ==>
              && msg.player in s.eps && |Score(s, msg)| == 1 && Score(s, msg)[0].account == msg.player
              && IsNewEp(Turn(s, msg).value.place.value, s.eps[msg.player], Score(s, msg)[0].ep)
  {
    hide ReceiveAll;
    hide LegalBands;
    hide Open;
    hide PlayTurn;
    ReachableIsLegal(tables, msgs);
    var s := ReceiveAll(Genesis(tables), msgs);
    if EndsMatch(s, msg) {
      var m, setting := s.matches[msg.player], s.settings[msg.player];
      TurnKeeps(m, setting, msg.ops, s.seeds[msg.player], msg.seed, msg.first, msg.budget, tables.bases);
      var t := Turn(s, msg).value;
      MatchEnded(s, msg.player, t.place.value, t.m.history, msg.block, msg.seed);
    }
  }
}
