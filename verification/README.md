# Open Emoji Battler: the game engine and its contract

A player buys, sells and arranges up to seven emos in a shop, then fights three ghosts, boards that other
players left behind. The same engine runs in the contract and in the player's browser. This project models
that engine and the contract that drives it, and proves what the rest of the system relies on: cascades of
abilities end, logs replay, cards are conserved, both sides compute the same board, storage stays legal and
the panics that a player could otherwise run into are unreachable or characterised exactly.

## How it is built

* `Types`, `Rng` hold the entities. A random generator is a tape of naturals; a result proved for every tape
  holds for every legal choice, and every legal choice is what some tape draws.
* `Shop`, `ShopRun` specify the shop cascade as a machine that performs one pending task at a time, and show that
  it ends for any ability data. `ShopLaws`, `ShopLog`, `ShopRenaming` state what it keeps; `ShopTargets`, `ShopReactions`,
  `ShopPlaces`, `ShopActions`, `ShopMenagerie`, `ShopTriples` tell in numbers and places whom an event sets off, where an
  emo comes in and what every action does. `Listing` says what it is to collect all items that meet a rule, in order.
  `ShopEngine` is the board as the program keeps it, a class with mutually recursive methods that change it in
  place; each is proved equal to the machine.
* `Moves`, `Catalog`, `PlayerOps`, `PlayerOpsLaws`, `VisitEngine`, `VisitCoins`, `Client` cover a visit to the shop: the
  loop over submitted operations, what it conserves and costs, and its agreement with the client's step-by-step run.
* `Battle` specifies the battle cascade with a budget of steps, because for arbitrary ability data it need not end.
  `BattleLaws`, `BattleLog`, `BattleTargets` state what holds at every point of it; `BattleTermination` gives a measure
  under which every cascade over a stratified ability table ends, `BattleEndless` a march over another table that never
  does; `BattleIndexes` says over which tables no lookup fails, `BattleStale` shows that the game's own is not among them.
  `BattleReactions` and `BattleActions` tell whom an event sets off and what every action does. `BattleEngine` is the
  imperative form, `March`, `MarchTurns` and `MarchEngine` the march with its tick counter.
* `Organizer`, `OrganizerLaws`, `OrganizerEngine` are the battles of a turn; `Leaderboard`, `Matchmaking`, `GhostChoice`,
  `Setup` the bounded stores and the start of a match; `Contract`, `ContractLaws`, `ContractRuns`, `ContractScores`,
  `ContractEngine` the messages of the contract and what storage satisfies after any sequence of them. `ShopMild` and `ContractMild` carry
  what kind of abilities a table has through the shop and through storage to the marches of every turn, from which
  `ContractTermination` and `ContractFailures` conclude; `ContractLimit` runs a match into the limit of turns.
* `Base64` is the client's encoding of section 4 of RFC 4648.

An `Err` and a panic are both `None` (or `ok == false`); the contract rolls storage back on either. A class method is
proved against a specification function, and the properties are proved of that function.

Four things that one might expect do not hold of the code, and are stated exactly instead:

* A battle need not end. `BattleEndless.EndlessFight` names a table of one base and two legal boards for which it does
  not; over stratified tables, where a retire ability spawns only lower-ranked bases and other reactions neither spawn
  nor damage, every cascade and march ends (`BattleTermination.EveryCascadeEnds`, `March.MarchesEnd`), and so does every
  message of the contract (`ContractTermination.EveryMessageEnds`).
* A battle of legal boards can be an error. Over the table of the game a board of base 40 and two of base 37 makes it
  one against an emo that strikes hard enough: when the first retires, the second repeats its damage to both boards,
  and the third is looked up where nobody stands any more (`BattleStale.StaleFight`). Over tables without damage to
  whole boards no lookup fails, and a march is an error exactly when both boards still stand after tick 255
  (`BattleIndexes.MarchFailsOnlyAtLimit`), after any messages of the contract
  (`ContractFailures.ReachableTurnStalls`).
* A match with 39 recorded turns can no longer be finished: the turn limit panics and leaves it as it is
  (`ContractRuns.ReachableTurnFails` lists all three reasons a turn can fail), and such a match is within reach
  (`ContractLimit.LimitIsReached`).
* `mov` accepts repeated indexes; it still only rearranges (`Moves.MovRearranges`), and it does what the list says
  exactly when no index is repeated (`Moves.MovPicksIffPermutation`).

## Model

| member | source | states |
|---|---|---|
| ShopRun.StepShrinks | common/rs/src/mtc/shop/board.rs:201-479 | every step of a shop cascade either spends potential of the board, as much as the emos it makes, or leaves only smaller tasks |
| ShopRun.MergeLowersPotential | common/rs/src/mtc/shop/board.rs:941-983 | merging at least three copies into a triple lowers the potential 7-minus-triples-then-free-places of the board |
| ShopRun.InsertLowersPotential | common/rs/src/mtc/shop/board.rs:481-507 | setting one more emo on a board with room lowers the same potential |
| ShopRun.Run | common/rs/src/mtc/shop/board.rs:55-273 | a cascade over any ability data ends, and the ids it hands out are paid for by the fall of the potential |
| ShopRun.AtMost32Emos | common/rs/src/mtc/shop/board.rs:169-199 | one add, sale or start makes at most 32 emos and leaves at most seven on the board |
| ShopRun.RunKeeps | common/rs/src/mtc/shop/board.rs:201-273 | what every single step keeps, a whole cascade with everything nested in it keeps |
| ShopRun.RunAppend | common/rs/src/mtc/shop/board.rs:201-273 | a list of tasks runs as its front, with all that it triggers, and then its back |
| ShopLaws.StepDescends | common/rs/src/mtc/shop/board.rs:374-479 | every emo after a step either stood there before with no lower stats, or was just set or merged from all copies of one base |
| ShopLaws.RunKeepsSound | common/rs/src/mtc/shop/board.rs:916-1041 | no cascade makes an emo weaker than its base, doubled and saturated for a triple, or gives it a card that is not a pool card of its base |
| ShopLaws.RunKeepsCards | common/rs/src/mtc/shop/board.rs:941-1025 | the multiset of cards on the board is the same before and after any cascade, merges included |
| ShopLaws.RunCopies | common/rs/src/mtc/shop/board.rs:941-983 | a cascade raises the number of plain copies of a base above two only if the merge that answers for them is still pending |
| ShopLaws.AtMostTwoCopies | common/rs/src/mtc/shop/board.rs:169-273 | after a successful start, add or sale each base has at most the larger of two and its copies before |
| ShopLaws.MergeBonus | common/rs/src/mtc/shop/board.rs:941-1041 | the triple that a merge puts on the board has twice its base stats plus everything its sources had above their base, up to the largest u16; the merge fails when what they had above it does not fit in a u16 |
| ShopLaws.BonusIsDifference | common/rs/src/mtc/shop/board.rs:1027-1041 | for sources at or above their base the bonuses add up to total stats minus the base stats taken as often |
| ShopLaws.RunKeepsDistinct | common/rs/src/mtc/shop/common.rs:93-110 | ids on a board stay below the counter and pairwise different through every cascade |
| ShopLaws.RunKeepsBinding | common/rs/src/mtc/shop/board.rs:141-273 | an id once given names an emo of the same base for ever |
| ShopLog.TripleTraces | common/rs/src/mtc/shop/board.rs:941-998 | removing the listed indexes of a Triple entry at once leaves the same board as removing the copies one by one |
| ShopLog.StepTraces | common/rs/src/mtc/shop/board.rs:374-507 | each step appends entries that rewrite the replayed board as the step rewrote the board |
| ShopLog.LogsAreFaithful | common/rs/src/mtc/shop/board.rs:55-199 | replaying the log of a start, add, sale or move on the starting board gives the board that was computed |
| ShopRenaming.RenStep | common/rs/src/mtc/shop/board.rs:374-507 | a step commutes with any injective renaming of ids that keeps the counters in step |
| ShopRenaming.RenRun | common/rs/src/mtc/shop/board.rs:201-479 | so does a whole cascade |
| ShopRenaming.IdsDoNotMatter | front/wasm/src/lib.rs:201-212 | two boards that differ only in ids end with the same board, coins and log, or both fail, under start, add, sale and move |
| ShopTargets.TargetsAreExact | common/rs/src/mtc/shop/board.rs:808-898 | a target, the acting emo itself included, reaches exactly the emos that it describes, each once, from left to right; the one error case is named |
| ShopTargets.FoundWhereItIs | common/rs/src/mtc/shop/common.rs:142-171 | with different ids the lookup by id finds each emo at its own index |
| ShopReactions.OthersReact | common/rs/src/mtc/shop/board.rs:201-273 | the reactions to a new emo are, from the left, exactly those abilities of the others whose condition it meets: ally abilities act through it, own ones by themselves |
| ShopReactions.StartActs | common/rs/src/mtc/shop/board.rs:55-78 | a visit starts with exactly the abilities that act at its start, from the left |
| ShopReactions.SaleActs | common/rs/src/mtc/shop/board.rs:81-118 | a sale takes off the emo at the index, logs it first, earns one coin and lets the sale abilities of the emo that is gone act from the place it left |
| ShopReactions.RepeatedSetActions | common/rs/src/mtc/shop/board.rs:314-351 | an ally that repeats set actions performs those of the new emo, in their order, each twice when it is a triple |
| ShopReactions.FlagsAreTheOwners | common/rs/src/mtc/shop/board.rs:275-372 | what acts through an ally acts with the flag of its owner, what acts by itself with its own, also after a sale |
| ShopPlaces.InsertedActs | common/rs/src/mtc/shop/board.rs:169-273 | an emo is refused exactly on a full board or beyond its end; else it stands at the index, logged first, acts by itself, lets the others react, and may be merged unless it is a triple |
| ShopPlaces.AddedWhereAsked | common/rs/src/mtc/shop/board.rs:155-199 | the first entry that an accepted add leaves in the log is the new emo, with twice the stats of its base for a triple, at the index asked for |
| ShopPlaces.QuietAdd | common/rs/src/mtc/shop/board.rs:155-199 | where no ability reacts and at most one plain copy stands, the whole effect of an add is the new emo at the index and everyone from there on one place further right |
| ShopPlaces.QuietAddOnBoard | common/rs/src/mtc/shop/board.rs:155-199 | the same told without ids |
| ShopPlaces.SetStands | common/rs/src/mtc/shop/board.rs:481-507 | a set emo is dropped by a full board, and else is added without cards one past the emo that sets it, or where the sold one stood |
| ShopPlaces.SetWhereItBelongs | common/rs/src/mtc/shop/board.rs:481-507 | its first log entry is the new emo at that place |
| ShopPlaces.QuietSet | common/rs/src/mtc/shop/board.rs:481-507 | where no ability reacts and nothing is merged, setting leaves the board with the new emo at that place and nothing else changed |
| ShopTriples.MergeIs | common/rs/src/mtc/shop/board.rs:941-983 | three plain copies of the base of the new emo merge: exactly the plain copies leave, the others keep their order, the triple stands behind those left of the new emo, five coins are earned, and the triple acts like any new emo |
| ShopTriples.BuiltTripleTakesOver | common/rs/src/mtc/shop/board.rs:1000-1060 | a triple has the abilities of its base and then, from the left, every ability of its sources that the base does not have; it has all their cards in order |
| ShopActions.RaiseReaches | common/rs/src/mtc/shop/board.rs:509-529 | exactly the emos that the target describes have so much more, twice as much from a triple, up to 65535; nothing else changes but the log, and the one error case is named |
| ShopActions.RaiseByGradeReaches | common/rs/src/mtc/shop/board.rs:566-593 | so much more for every grade of the base of the acting emo |
| ShopActions.RaiseByCountReaches | common/rs/src/mtc/shop/board.rs:595-622 | so much more for every other emo that meets the condition |
| ShopActions.AdjacentReaches | common/rs/src/mtc/shop/board.rs:531-564 | the left neighbour is raised, and the right one unless it is of the typ of the left one |
| ShopActions.GrantReaches | common/rs/src/mtc/shop/board.rs:624-653 | exactly the emos that the target describes have the ability added, but no special battle ability twice |
| ShopActions.CoinsAre | common/rs/src/mtc/shop/board.rs:655-661 | coins are doubled by a triple and no more than 255 |
| ShopActions.CoinsByCountAre | common/rs/src/mtc/shop/board.rs:663-682 | one coin for every so many others that meet the condition, doubled by a triple, no more than 255; an error exactly for the divisor zero |
| ShopMenagerie.MenagerieReaches | common/rs/src/mtc/shop/board.rs:729-770 | in some order of the board exactly the emos are raised that are the first of their typ before enough typs, at least one, are served; the acting emo is passed over and its flag doubles the amounts |
| Shop.FindIndex | common/rs/src/mtc/shop/common.rs:142-171 | the first index with the id, and none exactly when no emo has it |
| ShopEngine.ShopBoard.FromBoard | common/rs/src/mtc/shop/common.rs:102-110 | builds the board with ids counted up from the given one, in order |
| ShopEngine.ShopBoard.AddAttackAndHealthToEmo | common/rs/src/mtc/shop/board.rs:916-939 | saturating stats of one emo and the log entry, or an error when the id is unknown; equal to the specified machine |
| ShopEngine.ShopBoard.AddAttackAndHealthToEmos | common/rs/src/mtc/shop/board.rs:900-914 | the same for a list of ids, stopping at the first unknown one; equal to the specified machine |
| ShopEngine.ShopBoard.AddAbilityToEmos | common/rs/src/mtc/shop/board.rs:624-653 | appends the ability with its log entry, but skips a special one that is there already; equal to the specified machine |
| ShopEngine.ShopBoard.AddEmo | common/rs/src/mtc/shop/board.rs:155-167 | add_emo ends as the specified cascade ends, in place, with the coins it earns; that the emo then stands at the place asked for is ShopPlaces.AddedWhereAsked; equal to the specified machine |
| ShopEngine.ShopBoard.AddEmoWithBoardEmo | common/rs/src/mtc/shop/board.rs:169-199 | inserts, logs, triggers all addition abilities and merges, recursing on a falling potential; equal to the specified machine |
| ShopEngine.ShopBoard.CallEmoAdditionAbilities | common/rs/src/mtc/shop/board.rs:201-273 | own set abilities, then those of the allies that stood there, then those that act as the new emo; equal to the specified machine |
| ShopEngine.ShopBoard.CallSelf | common/rs/src/mtc/shop/board.rs:201-273 | the abilities of one emo with a trigger, in their order; equal to the specified machine |
| ShopEngine.ShopBoard.CallAllies | common/rs/src/mtc/shop/board.rs:201-273 | the reactions of every ability on the board, collected before the first one runs; equal to the specified machine |
| ShopEngine.ShopBoard.CallAbilityActionAsAlly | common/rs/src/mtc/shop/board.rs:275-312 | an ally ability acts as the new emo, doubled when its owner is a triple; equal to the specified machine |
| ShopEngine.ShopBoard.TriggerSetActions | common/rs/src/mtc/shop/board.rs:314-351 | runs the set actions of the pointed emo once, or twice for a triple; equal to the specified machine |
| ShopEngine.ShopBoard.CallAbilityActionAsOneself | common/rs/src/mtc/shop/board.rs:353-372 | acts with the triple flag of the acting emo; equal to the specified machine |
| ShopEngine.ShopBoard.CallAbilityAction | common/rs/src/mtc/shop/board.rs:374-479 | each of the eight actions; equal to the specified machine |
| ShopEngine.ShopBoard.ChangeEmos | common/rs/src/mtc/shop/board.rs:374-479 | the actions that only change stats and abilities; equal to the specified machine |
| ShopEngine.ShopBoard.SetEmo | common/rs/src/mtc/shop/board.rs:481-507 | sets nothing on a full board, else inserts right of the acting emo or at the place it left, which ShopPlaces.SetWhereItBelongs tells by places; equal to the specified machine |
| ShopEngine.ShopBoard.ProcessTriple | common/rs/src/mtc/shop/board.rs:941-983 | merges exactly when three copies stand on the board, with the reward and the place left for the triple; equal to the specified machine |
| ShopEngine.ShopBoard.Merge3 | common/rs/src/mtc/shop/board.rs:941-983 | the triple stands where the new emo stood, less the copies removed before it; equal to the specified machine |
| ShopEngine.ShopBoard.RemoveTripleEmos | common/rs/src/mtc/shop/board.rs:985-998 | removing from the back takes out exactly the copies and keeps the rest in order; equal to the specified machine |
| ShopEngine.ShopBoard.StartShop | common/rs/src/mtc/shop/board.rs:55-78 | pre-shop abilities of all emos, collected first; equal to the specified machine |
| ShopEngine.ShopBoard.CallPreAbility | common/rs/src/mtc/shop/board.rs:684-727 | one pre-shop ability; equal to the specified machine |
| ShopEngine.ShopBoard.IncreaseStatsOfMenagerie | common/rs/src/mtc/shop/board.rs:729-770 | one emo of each of so many typs, in the shuffled order, is raised; equal to the specified machine |
| ShopEngine.ShopBoard.ChooseMenagerie | common/rs/src/mtc/shop/board.rs:729-770 | the chosen ids are the first of each new typ other than the acting emo; equal to the specified machine |
| ShopEngine.ShopBoard.SellEmo | common/rs/src/mtc/shop/board.rs:81-118 | one coin, removal with its log entry, then the sale abilities from the place left; equal to the specified machine |
| ShopEngine.ShopBoard.MoveEmo | common/rs/src/mtc/shop/board.rs:121-152 | swaps with the neighbour, with an error at the ends; equal to the specified machine |
| ShopEngine.ShopBoard.SwapEmos | common/rs/src/mtc/shop/common.rs:193-195 | the two emos have changed places, every other emo stands where it stood and the board is as long as before |
| ShopEngine.ShopBoard.Mov | common/rs/src/mtc/shop/player_operation.rs:152-174 | swapping in place follows the specified rearrangement and fails where it fails |
| ShopEngine.TriplePlace | common/rs/src/mtc/shop/board.rs:941-983 | the index of the new emo less the copies before it is the number of other emos before it |
| Moves.MovRearranges | common/rs/src/mtc/shop/player_operation.rs:152-174 | mov accepts exactly the lists of valid indexes of the board length, and whatever it accepts it only rearranges |
| Moves.MovOfPermutation | common/rs/src/mtc/shop/player_operation.rs:152-174 | for a permutation p the emo at place k afterwards is the one from place p[k] |
| Moves.MovPicksIffPermutation | common/rs/src/mtc/shop/player_operation.rs:152-174 | on a board of different emos, mov takes the emo of place p[k] to place k for every k exactly when p repeats no index |
| Moves.OneMoreMove | front/src/components/common/Mtc/Shop/tasks.ts:49-85 | splicing one more adjacent move into the list is doing that move after the list |
| Client.Submission.FinishMove | front/src/components/common/Mtc/Shop/tasks.ts:49-85 | a move directly after a move replaces it by the spliced list, otherwise the identity is spliced and appended |
| Client.SplicedOpsAgree | front/src/components/common/Mtc/Shop/tasks.ts:49-85 | the collapsed move operation leaves the board that the separate moves leave |
| Client.PlaceAgrees | common/rs/src/mtc/shop/player_operation.rs:87-136 | buying on a board rebuilt with fresh ids gives the same board as in the single pass |
| Client.DiscardAgrees | common/rs/src/mtc/shop/player_operation.rs:138-150 | so does selling |
| Client.ChainMatchesClient | common/rs/src/mtc/shop/player_operation.rs:37-84 | whatever the player does, the chain pass over the submitted operations, if accepted, computes the board the player saw |
| Catalog.CatalogIsLegal | common/rs/src/mtc/shop/catalog.rs:13-38 | five lines of seven, every off-board pool card at most once; it fails exactly when fewer than 35 cards are off the board |
| Catalog.OfferedFromPool | common/rs/src/mtc/shop/catalog.rs:13-38 | an offered card is in the pool and not on the board |
| Catalog.LinesDealOut | common/rs/src/mtc/shop/catalog.rs:26-37 | the lines deal out exactly the drawn cards |
| Catalog.TakeLine | common/rs/src/mtc/shop/catalog.rs:28-35 | pops seven cards from the end, last one first, or fails when they run out |
| Catalog.BuildCatalog | common/rs/src/mtc/shop/catalog.rs:13-38 | the nested loops give the specified catalog |
| PlayerOpsLaws.OfferedIff | common/rs/src/mtc/shop/player_operation.rs:87-122 | a card may be bought exactly when it lies on the current line, the player has three coins, has not sold it and does not have it on the board, and its base is known and not above the grade; what is bought is its base |
| PlayerOpsLaws.BuyKeeps | common/rs/src/mtc/shop/player_operation.rs:87-136 | an accepted purchase adds exactly the bought card, one the player never held, and keeps the board legal |
| PlayerOpsLaws.SellKeeps | common/rs/src/mtc/shop/player_operation.rs:138-150 | a sale moves the cards from the board to the sold list |
| PlayerOpsLaws.MovKeepsGood | common/rs/src/mtc/shop/player_operation.rs:152-174 | a rearrangement keeps cards, ids, stats and copies |
| PlayerOpsLaws.Apply1Keeps | common/rs/src/mtc/shop/player_operation.rs:41-82 | every operation keeps the board legal and the ledger of held and sold cards |
| PlayerOpsLaws.VisitKeeps | common/rs/src/mtc/shop/player_operation.rs:18-85 | board cards plus sold cards are the starting cards plus the bought ones, none twice, each of its emo base; ids stay far below 65536 |
| VisitEngine.Visitor.Buy | common/rs/src/mtc/shop/player_operation.rs:87-136 | all checks, the price, the cascade and its coins, in place; equal to the specification |
| VisitEngine.Visitor.Sell | common/rs/src/mtc/shop/player_operation.rs:138-150 | sold cards, the cascade and its coins, in place; equal to the specification |
| VisitEngine.Visitor.NextCatalogLine | common/rs/src/mtc/shop/player_operation.rs:176-194 | free mulligans of the first turn, else one coin; the counters are checked; equal to the specification |
| VisitEngine.Visitor.Upgrade | common/rs/src/mtc/shop/player_operation.rs:196-211 | the price, the last grade and the next price; equal to the specification |
| VisitEngine.Visitor.IsOnBoard | common/rs/src/mtc/shop/player_operation.rs:100-105 | finds a card on any emo; equal to the specification |
| VisitEngine.Visitor.Do | common/rs/src/mtc/shop/player_operation.rs:42-81 | one operation as its kind demands; equal to the specification |
| VisitEngine.VerifyPlayerOperations | common/rs/src/mtc/shop/player_operation.rs:18-85 | the loop accepts exactly the lists the specification accepts, with the same board, grade and price |
| Rng.DrawIsSelection | common/rs/src/mtc/shop/board.rs:729-770 | a draw takes no position twice |
| Rng.ShuffleIsPermutation | common/rs/src/mtc/shop/catalog.rs:17-24 | a shuffle is a permutation |
| Rng.EverySelectionIsDrawn | common/rs/src/mtc/shop/catalog.rs:17-24 | every selection without repetition is what some generator draws, so results for all generators are results for all legal choices |
| Battle.AttackIndex | common/rs/src/mtc/battle/board.rs:291-304 | the leftmost emo among those with the fewest survived attacks |
| Battle.AttractiveIndexes | common/rs/src/mtc/battle/board.rs:350-371 | exactly the indexes of attractive emos |
| Battle.LowestIndexes | common/rs/src/mtc/battle/board.rs:324-348 | exactly the indexes of the lowest attack are listed, though the first may be listed twice |
| Battle.DefenseIndex | common/rs/src/mtc/battle/board.rs:306-322 | a lowest attack for an emo that seeks it, else an attractive emo when there is one, else anyone |
| Battle.IndexOfAbility | common/rs/src/mtc/battle/board.rs:82-112 | an index with the ability, none exactly when it is absent |
| BattleTargets.TargetsAreExact | common/rs/src/mtc/battle/board.rs:729-796 | a target, the acting emo itself included, reaches exactly the emos that it describes, each once, from left to right; the one error case is named |
| BattleTargets.RandomIsLegal | common/rs/src/mtc/battle/board.rs:693-727 | a random choice takes as many different eligible emos as it may |
| BattleTargets.EveryChoiceHappens | common/rs/src/mtc/battle/board.rs:693-727 | any different eligible emos in any order are what some generator picks |
| BattleTargets.RandomGrantIsLegal | common/rs/src/mtc/battle/board.rs:1244-1295 | an ability granted at random goes to different eligible emos, a special one to such as do not have it; to as many as the count, twice as many for a triple, or to all of them when they are fewer |
| BattleLaws.EvalAppend | common/rs/src/mtc/battle/board.rs:1331-1352 | a list of tasks runs as its front and then its back on what the front leaves of the budget |
| BattleLaws.MoreBudget | common/rs/src/mtc/battle/board.rs:374-408 | a larger budget of steps changes no result |
| BattleLaws.EveryPoint | common/rs/src/mtc/battle/board.rs:374-408 | what every step keeps holds at every point of a cascade |
| BattleLaws.StepFits | common/rs/src/mtc/battle/board.rs:374-408 | a step keeps both boards at seven emos at most, each with health of at least one and the typ of its base |
| BattleLaws.AlwaysFit | common/rs/src/mtc/battle/board.rs:374-408 | that holds at every point of every cascade, finished or not |
| BattleLaws.StepCounted | common/rs/src/mtc/battle/board.rs:241-253 | no step lets an attack counter, on a board or carried by a pending spawn, outgrow the tick less the counts still due |
| BattleLaws.AlwaysCounted | common/rs/src/mtc/battle/board.rs:1356-1406 | within a tick no emo, standing or spawned, has counted more attacks than the tick number |
| BattleLog.StepTraced | common/rs/src/mtc/battle/board.rs:374-408 | each step logs entries that rewrite the replayed boards as it rewrote the boards |
| BattleLog.RetireTraced | common/rs/src/mtc/battle/board.rs:885-915 | a Damage to zero followed by a Remove replays to the board without the emo |
| BattleLog.LoseShieldTraced | common/rs/src/mtc/battle/board.rs:114-145 | a RemoveBattleAbility entry names the shield at its index and replays to the board without it |
| BattleLog.AlwaysTraced | common/rs/src/mtc/battle/board.rs:374-408 | at every point of every cascade the log leads from the first boards to the present ones |
| BattleLog.AttackTraced | common/rs/src/mtc/battle/board.rs:18-45 | the Attack entry names two standing emos |
| BattleTermination.SpreadBelow | common/rs/src/mtc/battle/board.rs:410-543 | a task that only spreads pushes tasks of lower classes, a bounded number of them |
| BattleTermination.RetireTasksBelow | common/rs/src/mtc/battle/board.rs:926-943 | retire actions of an emo stay below its own level |
| BattleTermination.BoardReacts | common/rs/src/mtc/battle/board.rs:945-988 | reactions of a board are bounded in number and class |
| BattleTermination.RetireLighter | common/rs/src/mtc/battle/board.rs:885-991 | a retired emo outweighs everything its retirement sets off |
| BattleTermination.SetLighter | common/rs/src/mtc/battle/board.rs:1026-1059 | a spawned emo and the reactions to it weigh less than what spawns it |
| BattleTermination.DamageLighter | common/rs/src/mtc/battle/board.rs:374-408 | so do a lost shield, a hit and a retirement against the damage and the emo they end |
| BattleTermination.StepLighter | common/rs/src/mtc/battle/board.rs:545-691 | every step over a stratified table lightens boards and pending tasks together |
| BattleTermination.CascadesEnd | common/rs/src/mtc/battle/board.rs:374-408 | every cascade over a stratified table ends after at most as many steps as it weighs |
| BattleTermination.EveryCascadeEnds | common/rs/src/mtc/battle/board.rs:207-256 | whatever a battle over a stratified table starts comes to an end, from any boards |
| BattleEndless.Endless | common/rs/src/mtc/battle/board.rs:1323-1354 | without stratification it need not: an emo that respawns itself and damages its board is in a cascade no budget finishes |
| BattleEndless.EndlessFight | common/rs/src/mtc/battle/march.rs:45-85 | over a well-formed table of that one base two legal boards meet in a march that no budget finishes, whatever the generator picks |
| BattleIndexes.CalmStep | common/rs/src/mtc/battle/board.rs:374-408 | a step whose indexes are in range and that hits nobody succeeds, makes no board smaller and pushes steps whose indexes are in range |
| BattleIndexes.DamageSucceeds | common/rs/src/mtc/battle/board.rs:374-408 | damage to a standing emo succeeds, and what it sets off looks up only what is there |
| BattleIndexes.NeverStale | common/rs/src/mtc/battle/board.rs:207-256 | over a table without damage to whole boards no lookup of the cascade of an attack fails |
| BattleIndexes.MarchFailsOnlyAtLimit | common/rs/src/mtc/battle/march.rs:45-85 | over such a table a march of legal boards is an error exactly when both boards still stand after tick 255 |
| BattleStale.RetirementFails | common/rs/src/mtc/battle/board.rs:917-988 | beside two emos that repeat the retire actions of an ally, the retirement of one that damages both boards ends in a lookup of an emo that is gone |
| BattleStale.StaleFight | data/emoBases.json:1361-1470 | over the table of the game, a board of base 40 and two of base 37, as the table has them, makes a march against a legal board an error in its first tick, whatever the generator picks |
| BattleTermination.SpecialKeepsLevel | common/rs/src/mtc/battle/board.rs:856-883 | granting or losing special abilities does not change what a retirement can spawn |
| BattleEngine.BattleBoards.IncreaseEmoStats | common/rs/src/mtc/battle/board.rs:798-825 | saturating raise with its entry; nothing for zero amounts; in place, equal to the specified machine |
| BattleEngine.BattleBoards.DecreaseEmoStats | common/rs/src/mtc/battle/board.rs:827-854 | lowered to no less than one, with its entry; in place, equal to the specified machine |
| BattleEngine.BattleBoards.AddAbilityToEmo | common/rs/src/mtc/battle/board.rs:856-883 | appended below the limit unless a special one is there already; in place, equal to the specified machine |
| BattleEngine.BattleBoards.IncreaseStats | common/rs/src/mtc/battle/board.rs:1096-1121 | every chosen emo in order; in place, equal to the specified machine |
| BattleEngine.BattleBoards.DecreaseStats | common/rs/src/mtc/battle/board.rs:1123-1148 | every chosen emo in order; in place, equal to the specified machine |
| BattleEngine.BattleBoards.IncreaseStatsByEmoCount | common/rs/src/mtc/battle/board.rs:1150-1196 | amounts times the matched emos of a side; in place, equal to the specified machine |
| BattleEngine.BattleBoards.AddBattleAbilityTo | common/rs/src/mtc/battle/board.rs:1198-1295 | to the target or to a random choice; in place, equal to the specified machine |
| BattleEngine.BattleBoards.CallNormalActionAsOneself | common/rs/src/mtc/battle/board.rs:513-543 | with the triple flag of the acting, perhaps retired, emo; in place, equal to the specified machine |
| BattleEngine.BattleBoards.CallNormalAction | common/rs/src/mtc/battle/board.rs:545-691 | each of the seven actions; a retired emo spawns at its own place, a standing one right of it; in place, equal to the specified machine |
| BattleEngine.BattleBoards.SetEmo | common/rs/src/mtc/battle/board.rs:1026-1059 | a new emo for the ally at the place, for the rival at the end with the counter of the last emo; in place, equal to the specified machine |
| BattleEngine.BattleBoards.SetEmosByAttackDiv | common/rs/src/mtc/battle/board.rs:1061-1094 | as many spawns as the attack contains the divisor, at most seven; in place, equal to the specified machine |
| BattleEngine.BattleBoards.AddEmo | common/rs/src/mtc/battle/board.rs:1408-1464 | nothing on a full board, an error beyond the end, else insertion and the reactions of the allies; in place, equal to the specified machine |
| BattleEngine.BattleBoards.CallAllySet | common/rs/src/mtc/battle/board.rs:1437-1460 | reactions to a set emo, not of the emo itself; in place, equal to the specified machine |
| BattleEngine.BattleBoards.CallGeneralAsAllyAction | common/rs/src/mtc/battle/board.rs:410-454 | acts as the ally with the triple flag of the owner; in place, equal to the specified machine |
| BattleEngine.BattleBoards.CallRetireActions | common/rs/src/mtc/battle/board.rs:456-511 | retire actions, each twice for a triple owner; in place, equal to the specified machine |
| BattleEngine.BattleBoards.RemoveShieldIfExist | common/rs/src/mtc/battle/board.rs:82-112 | removes the first shield with its entry and the reactions to it, and tells whether there was one; in place, equal to the specified machine |
| BattleEngine.BattleBoards.CallShieldRemovedAbility | common/rs/src/mtc/battle/board.rs:147-205 | reactions of the whole board, the triggering emo included; in place, equal to the specified machine |
| BattleEngine.BattleBoards.ReactToShield | common/rs/src/mtc/battle/board.rs:185-200 | excludes emos of the base that lost the shield when asked to; in place, equal to the specified machine |
| BattleEngine.BattleBoards.DamageEmo | common/rs/src/mtc/battle/board.rs:374-408 | shield, no damage, death or survival; survival is reported; in place, equal to the specified machine |
| BattleEngine.BattleBoards.RetireEmo | common/rs/src/mtc/battle/board.rs:885-915 | removal with its entry, then allies, then rivals; in place, equal to the specified machine |
| BattleEngine.BattleBoards.CallRetirePlayerAbilities | common/rs/src/mtc/battle/board.rs:917-991 | own retire actions, then allies that act as it, then allies that act by themselves, who all are named by BattleReactions.AlliesReact; in place, equal to the specified machine |
| BattleEngine.BattleBoards.CallAsAllies | common/rs/src/mtc/battle/board.rs:947-967 | the allies that act as the retired emo; in place, equal to the specified machine |
| BattleEngine.BattleBoards.CallAsOneselves | common/rs/src/mtc/battle/board.rs:969-988 | those that act by themselves, who are named by BattleReactions.AlliesReact and RivalsReact; in place, equal to the specified machine |
| BattleEngine.BattleBoards.CallRetireRivalAbilities | common/rs/src/mtc/battle/board.rs:993-1024 | the rivals that react to the retirement, who are named by BattleReactions.RivalsReact; in place, equal to the specified machine |
| BattleEngine.BattleBoards.DamageAllEmos | common/rs/src/mtc/battle/board.rs:1323-1354 | every emo that stood there at first and still stands when its turn comes; in place, equal to the specified machine |
| BattleEngine.BattleBoards.GetAttackEmoIndex | common/rs/src/mtc/battle/board.rs:291-304 | the scan finds the specified attacker; in place, equal to the specified machine |
| BattleEngine.BattleBoards.GetLowestAttackEmoIndex | common/rs/src/mtc/battle/board.rs:324-348 | the scan and the pick give a lowest attack; in place, equal to the specified machine |
| BattleEngine.BattleBoards.GetDefenseEmoIndex | common/rs/src/mtc/battle/board.rs:306-322 | the specified defender; in place, equal to the specified machine |
| BattleEngine.BattleBoards.AttackDamage | common/rs/src/mtc/battle/board.rs:207-256 | the defender first, then the attacker if its place is still taken, then its counter if it survived; in place, equal to the specified machine |
| BattleEngine.BattleBoards.Attack | common/rs/src/mtc/battle/board.rs:18-45 | one attack with its entry; an error when a board is empty; in place, equal to the specified machine |
| BattleEngine.BattleBoards.CallPreAbilities | common/rs/src/mtc/battle/board.rs:47-80 | the abilities before the first attack of one side; in place, equal to the specified machine |
| BattleEngine.BattleBoards.GetBoardAbilities | common/rs/src/mtc/battle/common.rs:100-114 | all battle abilities of a board with the index of their emo |
| BattleReactions.AlliesReact | common/rs/src/mtc/battle/board.rs:917-991 | when an emo has retired, exactly the allies with an ability on that event whose condition it meets react, once per ability, from the left: first those that act as it, then those that act by themselves |
| BattleReactions.RivalsReact | common/rs/src/mtc/battle/board.rs:993-1024 | so do exactly the rivals with an ability on the retirement of a rival, by themselves |
| BattleReactions.ShieldReactions | common/rs/src/mtc/battle/board.rs:114-205 | a lost shield is gone from its place, and exactly the abilities of the board on that event react, those of the emo itself included |
| BattleReactions.NewEmoIs | common/rs/src/mtc/battle/board.rs:1408-1464 | an emo comes in at the index unless the board is full, an error beyond its end, and exactly the ally abilities of the others on that event act through it |
| BattleReactions.RetirementIs | common/rs/src/mtc/battle/board.rs:374-408 | damage that leaves no health takes the emo off; exactly its own retire actions come first, then allies and rivals are asked |
| BattleReactions.RepeatedRetirement | common/rs/src/mtc/battle/board.rs:456-511 | an ally that repeats retire actions performs those of the retired emo, each twice when it is a triple |
| BattleReactions.PreActions | common/rs/src/mtc/battle/board.rs:47-80 | before the first attack a side performs exactly its abilities for that moment, from the left |
| BattleActions.RaiseReaches | common/rs/src/mtc/battle/board.rs:1096-1121 | exactly the emos that are described, or as many eligible ones as may be picked, have so much more, twice as much from a triple, up to 65535 |
| BattleActions.LowerReaches | common/rs/src/mtc/battle/board.rs:1123-1148 | so much less, but no less than one |
| BattleActions.RaiseByCountReaches | common/rs/src/mtc/battle/board.rs:1150-1196 | so much more for every matched emo of the own board but the acting one, or for every matched emo of the rival board, as the side says |
| BattleActions.GrantReaches | common/rs/src/mtc/battle/board.rs:1198-1295 | those reached have the ability added, but no special one twice and none beyond 255; a triple picks twice as many |
| BattleActions.SpawnStands | common/rs/src/mtc/battle/board.rs:1026-1059 | a spawn for the own side stands right of a standing actor or where a retired one stood, with the counter of the actor; one for the rivals at the right end of their board, with the counter of the emo there; a full board drops it |
| BattleActions.SpawnsByAttack | common/rs/src/mtc/battle/board.rs:1061-1094 | as many spawns as the attack contains the divisor, at most seven, an error for the divisor zero |
| BattleActions.DamageAllIs | common/rs/src/mtc/battle/board.rs:1297-1354 | damage to a whole board is meant for each emo that stands there, from the left, by its id |
| BattleActions.DamagedById | common/rs/src/mtc/battle/board.rs:1323-1354 | it hits the first emo with that id, and nobody exactly when there is none |
| BattleActions.DamageIs | common/rs/src/mtc/battle/board.rs:374-408 | damage takes the first shield, else health of an emo that survives; no damage changes nothing |
| BattleActions.BlowsAreExchanged | common/rs/src/mtc/battle/board.rs:207-256 | when both survive without shields, each has lost the attack of the other, and only the attacker has counted the attack |
| BattleActions.ActsAsTriple | common/rs/src/mtc/battle/board.rs:410-543 | what acts by itself has its own triple flag, what acts through an ally that of the owner |
| BattleActions.ShieldReactionIs | common/rs/src/mtc/battle/board.rs:185-200 | an emo of the base that lost the shield does not react exactly when the ability excludes it |
| BattleActions.AnyMayBeAttacked | common/rs/src/mtc/battle/board.rs:306-372 | every emo that may be attacked is attacked for some pick of the generator |
| March.EveryTick | common/rs/src/mtc/battle/march.rs:45-85 | at most 255 ticks; each begins with emos on both boards, counters below the tick, and a log that leads there |
| March.CountersFit | common/rs/src/mtc/battle/board.rs:249-252 | inside every tick all attack counters are at most the tick number, so at most 255 |
| March.SumIsExact | common/rs/src/mtc/battle/march.rs:119-125 | the saturating sum of at most seven grades is the exact sum, at most 42, and zero only for an empty board |
| March.MarchIsGood | common/rs/src/mtc/battle/march.rs:45-99 | a finished march has an empty board, exact grades of at most 42 not both positive, and a log that leads from the first boards to the last |
| March.OneGradeIsZero | common/rs/src/mtc/battle/march.rs:87-99 | from any boards whatever, a finished march leaves a board empty |
| March.MarchesEnd | common/rs/src/mtc/battle/march.rs:45-85 | over a stratified table every march ends |
| March.TicksAreTheMarch | common/rs/src/mtc/battle/march.rs:70-84 | the ticks that are reached are the loop of the march |
| MarchEngine.Tick.Next | common/rs/src/mtc/battle/march.rs:34-40 | counts up and reports an error at the largest u8 |
| MarchEngine.SumGradesOf | common/rs/src/mtc/battle/march.rs:119-125 | the summing loop gives the saturating sum, none for an unknown base |
| MarchEngine.RemainingGrades | common/rs/src/mtc/battle/march.rs:87-99 | both sums when a board is empty |
| MarchEngine.RunMarch | common/rs/src/mtc/battle/march.rs:45-85 | the loop over boards changed in place gives the specified result, whose players take turns by MarchTurns.MarchTakesTurns |
| MarchTurns.MarchTakesTurns | common/rs/src/mtc/battle/march.rs:26-31 | the log of a finished march shows at most 255 attacks, no two in a row by the same player, the longer board first |
| MarchTurns.TicksAlternate | common/rs/src/mtc/battle/march.rs:45-85 | so at every tick that is reached, whether the march finishes or not: as many attacks as ticks before it, by turns |
| MarchTurns.EqualBoardsToss | common/rs/src/mtc/battle/march.rs:101-117 | boards of equal length toss for the start, and either may win |
| MarchTurns.OpeningIs | common/rs/src/mtc/battle/march.rs:55-68 | whoever starts performs its abilities before the first attack first, exactly those of its board, and then the other side those of its own |
| OrganizerLaws.FightIsOneSided | common/rs/src/mtc/battle/organizer.rs:66-92 | a fight leaves a grade on at most one side, of at most 42 for legal boards |
| OrganizerLaws.GhostBoardIsFound | common/rs/src/mtc/battle/organizer.rs:98-118 | the ghost board is that of the turn, of the last turn of the ghost or of the end of its history, whichever comes first, or the empty default |
| OrganizerLaws.GhostBoardIsMissing | common/rs/src/mtc/battle/organizer.rs:98-118 | the lookup is out of range exactly for a ghost with a history, in turn zero or retired in turn zero |
| OrganizerLaws.PvgHurtsOne | common/rs/src/mtc/battle/organizer.rs:284-303 | a duel hurts at most one side; healths only fall, and a ghost retires in this turn exactly by losing all health |
| OrganizerLaws.GvgHurtsOne | common/rs/src/mtc/battle/organizer.rs:305-340 | the same between two ghosts |
| OrganizerLaws.PvgHurtsLoser | common/rs/src/mtc/battle/organizer.rs:265-303 | what is left of the ghost board, plus the grade of the ghost, is the loss of the player, and the other way round; whoever faces an empty board loses nothing, and a ghost retires in this turn exactly when nothing is left |
| OrganizerLaws.GvgHurtsLoser | common/rs/src/mtc/battle/organizer.rs:265-340 | the same between two ghosts, in numbers |
| OrganizerLaws.FightIs | common/rs/src/mtc/battle/organizer.rs:66-96 | a fight is the march of the two boards in order, the first one first, every emo with its attributes and the typ of its base; it leaves the sums of the grades of what stands on either side |
| OrganizerLaws.TurnPairs | common/rs/src/mtc/battle/organizer.rs:211-263 | the player meets the ghost of the index and the other two meet each other; each keeps its own seat |
| OrganizerLaws.FightersAre | common/rs/src/mtc/battle/organizer.rs:149-175 | the fighters are the emos of the board in order, with its attributes, the typ of their base, no attack counted, and consecutive ids |
| OrganizerLaws.DeadPlace | common/rs/src/mtc/battle/organizer.rs:177-209 | a dead player comes in after every ghost that is still active and every one beaten in this turn from more health than the player had |
| OrganizerLaws.AnyOtherMayBeNext | common/rs/src/mtc/battle/organizer.rs:121-147 | each active ghost other than the last opponent may be the next one |
| OrganizerLaws.PvgFailsOnlyInMarch | common/rs/src/mtc/battle/organizer.rs:284-303 | with legal boards the lookup succeeds and the sum of grades fits a u8, so only the march can fail |
| OrganizerLaws.GvgFailsOnlyInMarch | common/rs/src/mtc/battle/organizer.rs:305-340 | the same between two ghosts |
| OrganizerLaws.TurnWears | common/rs/src/mtc/battle/organizer.rs:11-64 | in a turn retired ghosts stay as they are and healths only fall; when all ghosts are retired the player is unhurt |
| OrganizerLaws.PlacesAreLegal | common/rs/src/mtc/battle/organizer.rs:177-209 | a place is given exactly when the player is dead or all ghosts are retired, is in 1 to 4, and is the first exactly in the second case, with the player alive |
| OrganizerLaws.TurnFailsOnlyInMarches | common/rs/src/mtc/battle/organizer.rs:211-263 | a turn of a match in progress succeeds exactly when its marches do |
| OrganizerLaws.SelectSucceeds | common/rs/src/mtc/battle/organizer.rs:121-147 | an opponent is found exactly when a ghost is active; it is active and another than before unless it is the only one |
| OrganizerEngine.Standings.DamagePlayerHealth | common/rs/src/mtc/battle/organizer.rs:274-282 | saturating loss of remaining grade plus grade, an error when the sum overflows; in place, equal to the specification |
| OrganizerEngine.Standings.DamageGhostHealth | common/rs/src/mtc/battle/organizer.rs:265-272 | the same for an active ghost, which retires at zero; in place, equal to the specification |
| OrganizerEngine.Standings.BattlePvgAt | common/rs/src/mtc/battle/organizer.rs:284-303 | the march and both losses, of which OrganizerLaws.PvgHurtsLoser says who bears them; in place, equal to the specification |
| OrganizerEngine.Standings.BattleGvgAt | common/rs/src/mtc/battle/organizer.rs:305-340 | the march and both losses; in place, equal to the specification |
| OrganizerEngine.Standings.CalcFinalPlace | common/rs/src/mtc/battle/organizer.rs:177-209 | the counting loops; in place, equal to the specification |
| OrganizerEngine.Standings.BattleAllHere | common/rs/src/mtc/battle/organizer.rs:11-64 | all battles of a turn and the place; in place, equal to the specification |
| OrganizerEngine.BuildBattleEmos | common/rs/src/mtc/battle/organizer.rs:149-175 | fighters with consecutive ids in order, none when a base is unknown |
| OrganizerEngine.MarchOf | common/rs/src/mtc/battle/organizer.rs:66-92 | builds both boards and marches them |
| Leaderboard.UpdateLeaderboard | contract/game/src/functions.rs:60-107 | the scan with two cursors, the rotation, the insertion and the truncation give the first 100 rows of the board without a cap; nothing is returned exactly when nothing changes |
| Leaderboard.RecordKnown | contract/game/src/functions.rs:85-96 | a known account moves from its row up to the first row it is not worse than |
| Leaderboard.RecordNew | contract/game/src/functions.rs:97-104 | a new account comes in before the first row it is not worse than |
| Leaderboard.RecordOrdered | contract/game/src/functions.rs:60-107 | rows stay sorted and accounts unique |
| Leaderboard.TopOfRecord | contract/game/src/functions.rs:97-104 | rows cut off never matter to the rows that stay |
| Leaderboard.CapLosesNothing | contract/game/src/functions.rs:58-107 | after any submissions the capped board is the top of the one that forgets nothing |
| Leaderboard.RowsAreTruthful | contract/game/src/functions.rs:58-107 | each row shows the largest EP its account ever submitted, best first, the later scorer first among equals, and every account is listed once |
| Matchmaking.Oldest | contract/game/src/lib.rs:398-405 | the first entry of the oldest block |
| Matchmaking.FindOldest | contract/game/src/lib.rs:398-405 | the scan finds it |
| Matchmaking.AddEntry | contract/game/src/lib.rs:390-413 | the entry overwritten or appended and its index |
| Matchmaking.AddIsSane | contract/game/src/lib.rs:381-420 | at most 20 entries, one per account, a stored ghost for every index |
| Matchmaking.AddIsMapUpdate | contract/game/src/lib.rs:381-420 | a band is a map from account to latest ghost with at most 20 keys that drops an entry of the oldest block when it needs room |
| Matchmaking.BandsAreUpToDate | contract/game/src/lib.rs:381-420 | after any submissions in block order every entry is the latest of its account, and who is missing gave way to 20 entries that are no older |
| GhostChoice.GatherBands | common/rs/src/mtc/ghost.rs:27-41 | the loop consults the bands from the player downwards until three ghosts are at hand |
| GhostChoice.ChooseGhosts | common/rs/src/mtc/ghost.rs:12-62 | the loops give the specified three seats |
| GhostChoice.PicksAreFair | common/rs/src/mtc/ghost.rs:43-53 | as many different ghosts as wanted or as there are, a lower band only once the bands above are exhausted |
| GhostChoice.ChoiceIsFair | common/rs/src/mtc/ghost.rs:12-62 | from sane bands the unwrap is safe: three seats, filled by the smaller of three and the ghosts available |
| Setup.BuildBuiltBaseIds | common/rs/src/mtc/setup.rs:38-65 | accepts exactly six allowed bases of different grades, in their order |
| Setup.BuildPool | common/rs/src/mtc/setup.rs:10-36 | the loops give the specified deck, an error for unknown bases or exhausted ids |
| Setup.DeckIsRegular | common/rs/src/mtc/setup.rs:20-35 | ids count up without a gap and each base has the cards of its grade as often as it is listed |
| Setup.PoolIsRegular | common/rs/src/mtc/setup.rs:10-36 | a pool names no id twice and holds the cards of every selected base |
| Setup.PoolHolds | common/rs/src/mtc/setup.rs:10-36 | a pool holds 7, 6, 6, 5, 5 or 4 cards, by grade, of a base for every time it is selected or fixed, and its ids count up from one |
| ContractScores.MatchStarts | contract/game/src/lib.rs:181-226 | a start that can build a pool gives 300 EP to a newcomer and takes 60, down to one, for an unfinished match; the match has 30 health, an upgrade at five coins, and ghosts with 14 health and 2 more per band, at most 30 |
| ContractScores.TurnEnds | contract/game/src/lib.rs:229-379 | after any messages: a turn visits the shop from what was last recorded, fights with the board of the visit and records it; a place in 1 to 4 ends the match with plus 70, plus 50, minus 30 or minus 50 EP, one less per 40 EP above 300 for the gains, within 1 and 65535, that EP on the leaderboard and the ghost in the band of the old EP; no place makes the upgrade a coin cheaper and finds another active opponent; any failure changes nothing |
| ContractScores.ScoreOfPlace | contract/game/src/lib.rs:364-371 | the score submitted for a finished match is the old EP changed by the amount of its place |
| ContractScores.GhostIsHistory | common/rs/src/mtc/ghost.rs:111-135 | the ghost is the history of the match, turn by turn, with grades, bases and attributes as recorded |
| ContractScores.GhostsAreRivals | contract/game/src/lib.rs:229-274 | a seat fights with the ghost chosen for it, a vacant one with an empty history |
| Types.ConditionIsMet | common/rs/src/mtc/utils.rs:39-68 | a condition that asks for nothing is met by everyone, and each thing it asks for has to be there |
| VisitCoins.Costs | common/rs/src/mtc/shop/player_operation.rs:87-212 | an accepted operation could be paid: three coins for a purchase, one for a line but none for two in the first turn, the stored price for an upgrade; coins are capped at 255; when lines and upgrades are accepted is exact |
| VisitCoins.Ledger | common/rs/src/mtc/shop/player_operation.rs:18-85 | over any list of operations what is left and what was spent is what was there and what came in, unless the cap is reached |
| VisitCoins.VisitLedger | common/rs/src/mtc/shop/player_operation.rs:18-85 | so over a whole visit, which begins with two coins more than the turn, at most eight, and what the abilities at its start earn |
| VisitCoins.ScreenPaysMore | front/src/components/common/Mtc/Shop/index.tsx:133-153 | the contract never charges more for the upgrades of a visit than the screen, which asks for the price of the grade to come |
| PlayerOpsLaws.BoughtWhereAsked | common/rs/src/mtc/shop/player_operation.rs:87-136 | an accepted purchase first enters the card, plain, with the stats of its base, at the place the player asked for |
| PlayerOpsLaws.SoldWhereAsked | common/rs/src/mtc/shop/player_operation.rs:138-150 | a sale first takes off the emo at the place the player named, and its cards are sold |
| ContractLaws.NewEpIsLegal | contract/game/src/functions.rs:30-56 | the panic is reached exactly for places outside 1 to 4; the first place wins 70 and the second 50, one less for every 40 EP above 300 but at least one, the third loses 30 and the fourth 50, but nobody falls below one |
| ContractLaws.NewEpKeepsOrder | contract/game/src/functions.rs:30-56 | a better place from at least as much EP never leads to less EP |
| ContractLaws.VisitIsLegal | contract/game/src/lib.rs:243-256 | an accepted visit leaves a legal hand and a grade between the old one and six |
| ContractLaws.TurnKeeps | contract/game/src/lib.rs:243-274 | a turn adds one legal entry to the history, leaves retired ghosts alone and keeps player and ghosts alive unless it gives a place |
| ContractLaws.NextTurnOpens | contract/game/src/functions.rs:15-28 | without a place the next opponent is found and the match stays open |
| ContractLaws.NewMatchIsOpen | contract/game/src/functions.rs:109-123 | a new match starts with health, three active ghosts and an empty history |
| ContractLaws.StartKeepsLegal | contract/game/src/lib.rs:181-226 | choosing rivals never fails: a start fails exactly when no pool can be built |
| ContractLaws.FinishMatchKeepsLegal | contract/game/src/lib.rs:358-379 | with a place in 1 to 4 nothing in finishing a match can fail |
| ContractLaws.OthersLeaveAlone | contract/game/src/lib.rs:181-430 | what one player sends changes no EP, seed, setting or match stored of another |
| ContractLaws.FinishKeepsLegal | contract/game/src/lib.rs:229-284 | finishing a turn fails exactly when the visit and battles of the turn do |
| ContractLaws.ReachableIsLegal | contract/game/src/lib.rs:181-430 | after any messages every match in progress is open, stores are sane and EPs are at least one |
| ContractRuns.StoredLeaderboard | contract/game/src/lib.rs:364-369 | the stored leaderboard is the top of the board of all submitted scores |
| ContractRuns.StoredBand | contract/game/src/lib.rs:373-375 | each stored band is what the ghosts left in it make of it |
| ContractRuns.StoresAreTruthful | contract/game/src/lib.rs:358-420 | after any messages in block order both stores tell the truth about all finished matches |
| ContractRuns.ReachableTurnFails | contract/game/src/lib.rs:229-284 | in a reachable match a turn fails exactly when 39 turns are recorded, the operations are rejected or a march fails |
| ContractRuns.ReachableAgrees | contract/game/src/lib.rs:243-256 | in every reachable match, whatever the player does with cards of the pool: the board the contract records for the submitted operations, if it accepts them, is the board on the screen |
| ContractLimit.IdleVisit | common/rs/src/mtc/shop/player_operation.rs:18-85 | with nothing on the board and no operations a visit is accepted and leaves nothing on the board |
| ContractLimit.IdleBattles | common/rs/src/mtc/battle/organizer.rs:11-64 | without emos a turn of battles leaves everyone as they are and gives no place |
| ContractLimit.NoFortiethTurn | contract/game/src/functions.rs:4-13 | after 39 recorded turns no message of the player finishes another one |
| ContractLimit.StuckForGood | contract/game/src/lib.rs:229-284 | whatever anybody sends, a match with 39 recorded turns stays as it is until its player starts a new one |
| ContractLimit.LimitIsReached | contract/game/src/lib.rs:229-284 | from any table and deck with 35 cards, a new player who finishes turns without operations has each of them recorded, and after the 39th the match stays as it is until the player starts a new one |
| ContractLimit.PoolIsLarge | common/rs/src/mtc/setup.rs:10-36 | with three fixed bases every pool has the 35 cards of a catalog |
| ContractFailures.FightFailsWhenStalled | common/rs/src/mtc/battle/organizer.rs:66-92 | over a table without damage to whole boards a fight of legal boards fails exactly when both still stand after tick 255 |
| ContractFailures.ReachableTurnStalls | contract/game/src/lib.rs:229-284 | over such a table, after any messages, a turn fails exactly when 39 turns are recorded, the operations are rejected or a march of the turn leaves both boards standing after tick 255 |
| ContractEngine.Game.CreateOrUpdatePlayerEp | contract/game/src/lib.rs:320-334 | the first EP, the penalty for an unfinished match, or the old EP; in place, equal to the specification |
| ContractEngine.Game.StartMtcMessage | contract/game/src/lib.rs:181-226 | all writes of a start, rolled back on a panic; in place, equal to the specification |
| ContractEngine.Game.AddMatchmakingGhost | contract/game/src/lib.rs:381-420 | the entry and its ghost; in place, equal to the specification |
| ContractEngine.Game.FinishMtc | contract/game/src/lib.rs:358-379 | EP, leaderboard, ghost and removal of the match, with the amounts that ContractScores.TurnEnds names; in place, equal to the specification |
| ContractEngine.Game.FinishMtcTurn | contract/game/src/lib.rs:422-430 | the cheaper upgrade and the next opponent; in place, equal to the specification |
| ContractEngine.Game.FinishMtcShopMessage | contract/game/src/lib.rs:229-284 | visit, battles and all writes, rolled back on a panic; in place, equal to the specification |
| ShopMild.RunMild | common/rs/src/mtc/shop/board.rs:624-653 | over a table whose battle abilities, granted ones included, are of one kind, no cascade of the shop brings another kind onto the board |
| ShopMild.StepMild | common/rs/src/mtc/shop/board.rs:374-479 | so for every single step |
| ContractMild.VisitMild | common/rs/src/mtc/shop/player_operation.rs:18-85 | so for a whole visit, whatever is submitted |
| ContractMild.ReachableIsMild | contract/game/src/lib.rs:181-430 | after any messages all recorded boards and stored ghosts carry battle abilities of that kind only |
| March.MarchMore | common/rs/src/mtc/battle/march.rs:45-85 | a march that ends ends the same with every larger budget |
| ContractTermination.BudgetDecides | contract/game/src/lib.rs:229-284 | a budget that suffices for a turn gives what every larger one gives |
| ContractTermination.EveryMessageEnds | contract/game/src/lib.rs:229-284 | over a stratified table, after any messages, whatever a player submits: the marches of the turn end, with one result |
| Base64.AlphabetInOrder | common/js/src/pow/base64.ts:7-14 | the characters of the sextets are the 64 of the alphabet in its order |
| Base64.BuildLookup | common/js/src/pow/base64.ts:10-14 | the table holds the index of each character and zero elsewhere |
| Base64.ReadAt | common/js/src/pow/base64.ts:47-50 | a character is read through the table; past the end of the text or of the table it reads as zero |
| Base64.EncodeBytes | common/js/src/pow/base64.ts:16-37 | the loop and the padding give the encoding of section 4 of RFC 4648 |
| Base64.TrimmedIsEncoded | common/js/src/pow/base64.ts:30-34 | cutting the filled-up text and adding the padding is the encoding |
| Base64.DecodeString | common/js/src/pow/base64.ts:39-59 | the loop writes the specified bytes; an error when the length would be negative |
| Base64.DecodeOfEncode | common/js/src/pow/base64.ts:16-59 | decoding an encoding gives the bytes back, for every byte array |
| Base64.EncodeIsCanonical | common/js/src/pow/base64.ts:16-37 | every encoding is canonically padded |
| Base64.RoundTripIffCanonical | common/js/src/pow/base64.ts:16-59 | encoding a decoding gives the text back exactly when it is canonically padded |
| Base64.EncodesNumbers | common/js/src/pow/base64.ts:16-37 | every four characters spell the 24-bit number that three bytes are, those past the end counting as zero |
| Base64.DecodesNumbers | common/js/src/pow/base64.ts:39-59 | any text whatever decodes to three bytes for every four characters, less the padding, each byte the part of the 24-bit number that its four characters spell; an error exactly when the padding is longer |

## Left out

- The user interface, ability texts, routing and animation: no state of the game.
- Accounts, hashing, block time, transactions and admin messages; the tables of bases are set once. Seeds, block numbers and the first emo id of each battle are inputs.
- SCALE encoding and the decoders between browser and engine: library behaviour.
- The chain pallets and their floating-point EP formula: outdated by the repository's own account, the same engine is reached through the contract.
- The internals and fairness of the random generator: every legal choice is covered, no choice is likelier than another.
- Equality of coins on the screen and in the contract: after an upgrade the screen takes the price of the grade to come and the contract that of the grade just reached, so boards are claimed to agree and `VisitCoins.ScreenPaysMore` says which side charges more.
- Ability lists longer than 255 and boards longer than 255, whose u8 indexes would wrap: boards have at most seven emos, and no ability list in the game comes near.
- Builds without overflow checks: a sum of bonuses in a merge that does not fit in a u16, and a sum of grades that does not fit in a u8, count as failures.
- BattleTermination.EveryCascadeEnds: goes one way, because whether a cascade of an unstratified table ends depends on the boards it meets.
- ContractEngine.Game.FinishMtcShopMessage: asks for a budget of steps within which the marches of the turn end; `ContractTermination.EveryMessageEnds` gives one over a stratified table and shows that the choice does not matter.
- BattleIndexes.NeverStale: goes one way; over a table with damage to whole boards it depends on the boards whether an index goes stale.
- Client.ChainMatchesClient: says what the chain computes when it accepts; acceptance itself depends on coins, which the client prices differently.
- Which of two errors a failing call meets first: both end in the same failure.
- The client's own id counter is unbounded here; it wraps at 65536 in a page that is never reloaded.
