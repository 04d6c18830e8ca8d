/** The game contract: what its messages do to storage. None stands for a panic, after which storage is as before. */
module Contract {
  import opened Types
  import opened Rng
  import opened Leaderboard
  import opened Matchmaking
  import opened GhostChoice
  import opened Organizer
  import PlayerOps
  import Setup
  import ShopLog

  const INITIAL_EP: U16 := 300
  const MIN_EP: U16 := 1
  const EP_UNFINISH_PENALTY: U16 := 60
  const MAX_TURN: nat := 40

  /** Everything that is generated from one stored seed number. */
  datatype Seed = Seed(visit: PlayerOps.Seed, pvg: Tape, gvg: Tape, pick: Tape, places: Tape, order: Tape)

  datatype Tables = Tables(bases: Bases, fixed: seq<U16>, built: seq<U16>)

  /** What stays the same during a match: the pool and the rivals. */
  datatype Setting = Setting(pool: seq<Card>, rivals: seq<Rival>)

  datatype Match = Match(health: U8, history: seq<GradeAndBoard>, upgradeCoin: Option<U8>, states: seq<GhostState>, ghostIndex: nat)

  datatype Store = Store(tables: Option<Tables>, bands: Bands, leaderboard: seq<Row>, eps: map<Account, U16>,
                         seeds: map<Account, Seed>, settings: map<Account, Setting>, matches: map<Account, Match>)

  datatype Message =
    | StartMtc(player: Account, deck: seq<U16>, seed: Seed)
    | FinishMtcShop(player: Account, ops: seq<PlayerOps.Op>, seed: Seed, block: nat, first: FirstIds, budget: nat)

  // ----- EP -----

  function ReduceEp(ep: U16, minus: U16): U16 { if Less16(ep, minus) > MIN_EP then Less16(ep, minus) else MIN_EP }

  function PlusFor(place: nat): U16 { if place == 1 then 70 else 50 }

  /** None is the panic on a place that is not supported. */
  function CalcNewEp(place: nat, oldEp: U16): Option<U16> {
    if place == 1 || place == 2 then
      var plus := PlusFor(place);
      var gain := if oldEp > INITIAL_EP then (var x := (oldEp - INITIAL_EP) / 40; if x < plus then plus - x else 1) else plus;
      Some(Sat16(gain + oldEp))
    else if place == 3 then Some(ReduceEp(oldEp, 30))
    else if place == 4 then Some(ReduceEp(oldEp, 50))
    else None
  }

  function InitialHealth(ep: U16): U8 {
    var band := EpBand(ep);
    if band < 8 then 14 + 2 * band else 30
  }

  function InitialGhostStates(ep: U16): seq<GhostState> {
    [Active(InitialHealth(ep)), Active(InitialHealth(ep)), Active(InitialHealth(ep))]
  }

  // ----- starting a match -----

  /** A player's first EP, or the penalty for leaving a match unfinished. */
  function EpAtStart(s: Store, player: Account): U16 {
    if player !in s.eps then INITIAL_EP
    else if player in s.matches then ReduceEp(s.eps[player], EP_UNFINISH_PENALTY) else s.eps[player]
  }

  function NewMatch(ep: U16): Match { Match(Setup.PLAYER_INITIAL_HEALTH, [], PlayerOps.UpgradeCoin(2), InitialGhostStates(ep), 0) }

  function Start(s: Store, player: Account, deck: seq<U16>, seed: Seed): Option<Store> {
    var tables :- s.tables;
    var ep := EpAtStart(s, player);
    var pool :- Setup.Pool(deck, tables.bases, tables.fixed, tables.built);
    var rivals :- Choose(s.bands, ep, seed.places, seed.order);
    Some(s.(eps := s.eps[player := ep], seeds := s.seeds[player := seed], settings := s.settings[player := Setting(pool, rivals)],
            matches := s.matches[player := NewMatch(ep)]))
  }

  // ----- finishing a turn -----

  function GhostOf(history: seq<GradeAndBoard>): Ghost {
    seq(|history|, i requires 0 <= i < |history| => GradeAndGhostBoard(history[i].grade, GhostBoard(history[i].board)))
  }

  /** A seat without a ghost plays with an empty history. */
  function GhostsOf(rivals: seq<Rival>): seq<Ghost> {
    seq(|rivals|, i requires 0 <= i < |rivals| => if rivals[i].Some? then rivals[i].value.1 else [])
  }

  function LastTurn(history: seq<GradeAndBoard>): GradeAndBoard {
    if history == [] then GradeAndBoard(1, []) else history[|history| - 1]
  }

  /** The turn, counted in a u8; None when the limit is exceeded or the count overflows. */
  function TurnOf(history: seq<GradeAndBoard>): Option<U8> {
    var turn := |history| % 0x100 + 1;
    if turn < MAX_TURN then Some(turn) else None
  }

  function BandOf(bands: Bands, band: U16): Band { if band in bands then bands[band] else Band([], map[]) }

  function AddGhost(bands: Bands, ep: U16, block: nat, player: Account, history: seq<GradeAndBoard>): Bands {
    bands[EpBand(ep) := Add(BandOf(bands, EpBand(ep)), Submission(block, player, GhostOf(history)))]
  }

  function FinishMatch(s: Store, player: Account, place: nat, history: seq<GradeAndBoard>, block: nat): Option<Store> {
    if player !in s.eps then None
    else
      var oldEp := s.eps[player];
      var ep :- CalcNewEp(place, oldEp);
      Some(s.(leaderboard := Top(Record(s.leaderboard, ep, player), LEADERBOARD_SIZE), eps := s.eps[player := ep],
              bands := if LastTurn(history).board == [] then s.bands else AddGhost(s.bands, oldEp, block, player, history),
              settings := s.settings - {player}, matches := s.matches - {player}))
  }

  function NextTurn(s: Store, player: Account, m: Match, seed: Seed): Option<Store> {
    var index :- SelectGhost(m.states, m.ghostIndex, seed.pick);
    Some(s.(matches := s.matches[player := m.(upgradeCoin := PlayerOps.DecreaseUpgradeCoin(m.upgradeCoin), ghostIndex := index)]))
  }

  datatype TurnResult = TurnResult(m: Match, place: Option<nat>)

  /** The visit to the shop and the battles of one turn. */
  function PlayTurn(m: Match, setting: Setting, ops: seq<PlayerOps.Op>, stored: Seed, drawn: Seed, first: FirstIds, budget: nat,
                    bases: Bases): Option<TurnResult>
  {
    var turn :- TurnOf(m.history);
    var before := LastTurn(m.history);
    var v :- PlayerOps.Verify(before.board, before.grade, m.upgradeCoin, ops, setting.pool, stored.visit, turn, bases);
    var board := ShopLog.Strip(v.shop.board);
    var (health, states, place) :- BattleAll(GhostBoard(board), m.health, m.states, v.grade, GhostsOf(setting.rivals), m.ghostIndex,
                                             turn, Dice(drawn.pvg, drawn.gvg, first, budget), bases);
    Some(TurnResult(Match(health, m.history + [GradeAndBoard(v.grade, board)], v.upgradeCoin, states, m.ghostIndex), place))
  }

  function Finish(s: Store, player: Account, ops: seq<PlayerOps.Op>, seed: Seed, block: nat, first: FirstIds, budget: nat): Option<Store> {
    var tables :- s.tables;
    if player !in s.settings || player !in s.matches || player !in s.seeds then None
    else
      var r :- PlayTurn(s.matches[player], s.settings[player], ops, s.seeds[player], seed, first, budget, tables.bases);
      var s' :- if r.place.Some? then FinishMatch(s, player, r.place.value, r.m.history, block) else NextTurn(s, player, r.m, seed);
      Some(s'.(seeds := s'.seeds[player := seed]))
  }

  function Handle(s: Store, msg: Message): Option<Store> {
    match msg
    case StartMtc(player, deck, seed) => Start(s, player, deck, seed)
    case FinishMtcShop(player, ops, seed, block, first, budget) => Finish(s, player, ops, seed, block, first, budget)
  }

  /** A message that panics changes nothing. */
  function Receive(s: Store, msg: Message): Store {
    match Handle(s, msg)
    case Some(s') => s'
    case None => s
  }

  function ReceiveAll(s: Store, msgs: seq<Message>): Store
    decreases |msgs|
  {
    if msgs == [] then s else Receive(ReceiveAll(s, msgs[..|msgs| - 1]), msgs[|msgs| - 1])
  }

  /** A contract whose tables are set and that nobody has used. */
  function Genesis(tables: Tables): Store { Store(Some(tables), map[], [], map[], map[], map[], map[]) }
}
