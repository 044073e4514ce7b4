# Goban, modelled in Dafny

Goban is a Go server (the game) written in Go (the language), with a kanban board beside it. This
project models four of its parts and proves what they keep:

1. **The rules engine, scoring and the game run.** `Points`, `Regions` and `Boards` define groups
   (maximal connected sets), liberties, captures and verdicts on board values, for every board size.
   `GoEngine` and `GoScoring` are the engine's loops on mutable boards; each is proved against those
   definitions through one breadth-first search (`Regions.Search`) that is shown to visit exactly a
   connected component, each point once. `GoRules` and `GoKo` prove the Japanese rules' Articles 4, 5
   and 6 of it, `GoSymmetry` its symmetries. `GoGame` is the state machine of play, pass and resign
   requests, `GoOutcomes` what each request comes to, case by case, `GoHistory` what its move history
   tells, `GoRuns` and `GoPrisoners` runs in which the documentation fails. `Games`, `GameStore` and
   `GoHandlers` are the games, the store and the handlers as classes and methods that refine the
   state machine; `GameInterleaving` lets handlers overlap, on values, and `ConcurrentGames` on the
   objects themselves.
2. **The event hub.** `SseHub` is a transition system of atomic steps over a read-write lock and
   bounded channels; `SseSafety`, `SseDelivery` and `SseLimit` prove invariants of every run.
   `SseEmissions` and `SseCalls` tell from the calls alone what channels, subscribers and readers come
   to hold, and `SseAlone` what each call does when nothing else moves.
3. **The link graph.** `TaskLinks` is the link table with its cycle search.
4. **Tickets and the cached board.** `Columns` and `Tickets` hold the column names, the statuses and
   the claim, release and move services; `TicketRules` what runs of them keep. `BoardColumns` and
   `BoardServer` are the in-memory board columns and the handlers that commit to the store and then
   edit the cache.

A method that changes state is proved against a function or predicate on values; the lemmas say what
that function or predicate means and what it keeps over whole runs.

## Where the code does not do what it says

The model follows the code. Where a documented property is false of it, a lemma gives a concrete
counterexample, and where the property can be saved another says exactly when it holds:

- **Ko.** `GetKoPoint` returns the point just played, which is occupied, and `ValidateMove` tests
  occupancy first (services/go_engine.go:32, :102-103). The ko error is never reported
  (`GoGame.KoErrorNeverReported`) and immediate recapture is accepted, in play on every board size
  on offer (`GoRuns.RecaptureInPlay`). A reply repeats the position exactly in a ko shape
  (`GoKo.ReplyRepeatsIffKoShape`); with the captured point as guard it never would
  (`GoKo.CapturedPointGuardKeepsArticleSix`).
- **Prisoners.** `CalculateScore` credits Black with `whitePrisoners` and White with `blackPrisoners`
  (services/go_scoring.go:46-47), while models/game.go:25-26 and handlers/go_game.go:205-208 make
  `BlackPrisoners` the stones Black captured. The score credits the captor exactly when both counts
  are equal (`GoPrisoners.CreditsCaptorsIff`), and the winner it reports is the wrong one exactly
  when twice the difference of the counts outweighs the lead without them
  (`GoPrisoners.WinnerIsWrongIff`); `GoPrisoners.CaptureIsMiscredited` is a run of three moves where
  the credit goes wrong.
- **Status.** Two passes in a row are to end the game (models/game.go:30-31), but no handler looks at
  the status, and a pass does not look at the turn. Whatever the status, a game whose board has no
  dead stones can still change, except on a board of one point (`GoGame.EndsIff`): after any run, and
  so after two passes or a resignation, no game on 9, 13 or 19 ever ends (`GoGame.NoGameEnds`;
  `GoRuns.GoesOnAfterTwoPasses` and `GoRuns.GoesOnAfterResignation` are such runs). The run theorems
  hold of such runs too.
- **Resignation.** Its record looks like a stone at the first point without captures
  (handlers/go_game.go:349-354). Over any run the history replays to the game at every moment exactly
  when each resignation is made by a side that holds that point (`GoHistory.HistoryReplaysIff`);
  otherwise two different games can have one history (`GoHistory.HistoryIsAmbiguous`). The reported
  winner is the side that resigned (:363-366; `GoHandlers.ResignGame`).
- **Lost updates.** Nothing spans a handler's get and update. When nothing is stored under the id in
  between, the update has the effect of serving the request alone, whatever else interleaves
  (`GameInterleaving.UndisturbedUpdateIsServed`); in any case it stores the fetched history and one
  record, over whatever was stored in between (`GameInterleaving.UpdateStoresFetchedAndOne`;
  `GameInterleaving.FirstStoneIsLost` is such a run). Where nobody resigns, an update is served exactly
  if the stored history is still the fetched one (`GameInterleaving.ServedIffUnchanged`). What is
  stored is always a game that some sequential run reaches. The objects do what the values do: however
  the phases interleave, no handler's copy shares an object with a stored game or another copy
  (`ConcurrentGames.Handlers.Run`, `ConcurrentGames.Handlers.CopyIsPrivate`).
- **Link cycles.** The search climbs from the child and looks for the parent, which is the wrong
  question (store/sqlite_store.go:156, :171): a link and its reverse are both accepted, and what it
  refuses, self-links apart, would have done no harm (`TaskLinks.ReverseLinkAccepted`,
  `TaskLinks.RefusalsAreNeedless`). `TaskLinks.LinkKeepsAcyclicIff` is the exact condition, and with
  the two roles exchanged the same search keeps it (`TaskLinks.SwappedGuardKeepsAcyclic`).
- **Subscriber limit.** The check and the insertion are two critical sections. With at most k
  Subscribe calls in flight at once the count is at most limit - 1 + k (`SseLimit.SubscribersBounded`),
  for every k some run from the start attains that (`SseLimit.BoundAttained`), and so every run keeps
  the limit exactly when such calls never overlap (`SseLimit.LimitKeptIff`).
- **Claiming.** `Claim` does not look at the archived flag, so claiming an archived ticket can leave
  the claimer with one active ticket fewer (`TicketRules.ClaimLeavesMax`,
  `TicketRules.ArchivedClaimLosesOne`). Moving a ticket into
  progress can leave its assignee with two (`TicketRules.MoveGivesASecond`, and exactly when:
  `TicketRules.MoveKeepsAtMostOneIff`).
- **Missing tickets.** A ticket id without a row comes back from the transaction as a query error, so
  `Claim`, `Release` and `Move` answer with a fetch error rather than "not found", as the contracts in
  `Tickets.TicketStore` say.
- **Cache before store.** Create appends to the cache before the idempotency key is looked at or the
  row is stored, and delete cuts the cache before the row is deleted (handlers/tickets.go:53-71,
  :286-305). `BoardServer.Server.HandleCreateTicket` and `HandleDeleteTicket` state exactly when the
  cache still agrees after a hit or a failure; `BoardServer.KeyHitBreaksSync` and
  `BoardServer.FailedDeleteBreaksSync` end in servers where it does not.
- **Idempotency.** The PostgreSQL store looks an idempotency key up but its insert does not write it
  (store/postgres_store.go:590-595), although store/interface.go:27 promises the ticket with that key.
  A create repeated with its key is answered with the first ticket exactly if the store's inserts
  write keys, as SQLite's do; otherwise it makes a second ticket (`BoardServer.Server.CreateTwice`).

## Model

| member | source | states |
|---|---|---|
| Points.NeighborsAreAdjacent | services/go_engine.go:224-234 | the neighbour list of a point names exactly the orthogonally adjacent points of the board |
| Points.NeighborsAreFour | services/go_engine.go:224-234 | they are the points above, below, to the left and to the right that lie on the board |
| Points.NeighborsDistinct | services/go_engine.go:224-234 | and each of them once |
| Points.CoordKeyInjective | services/go_engine.go:253-255 | different points have different keys, so a visited map keyed by strings is a set of points |
| Regions.SearchIsComponent | services/go_engine.go:169-195 | a queue-and-visited search started at a point, with whole regions already visited, yields exactly the point's connected component, each point once |
| Regions.SearchCloses | services/go_engine.go:169-195 | from any intermediate state, whatever is adjacent to a point the search yields is visited or yielded |
| Regions.SearchWithin | services/go_engine.go:169-195 | from any intermediate state, the search stays inside every closed set that holds its queue and pending cells |
| GoEngine.NeighborList | services/go_engine.go:224-234 | the neighbour loop computes the neighbour list: up, down, left, right, clipped to the board |
| GoEngine.DeepCopyBoard | services/go_engine.go:242-250 | a copy is a new array with the same position |
| GoEngine.CountLiberties | services/go_engine.go:111-138 | the number of distinct empty points next to the maximal group of the point; 0 off the board or on an empty point |
| GoEngine.GetGroup | services/go_engine.go:169-195 | the group of the point in search order; empty off the board or on an empty point |
| GoRules.GroupSeqIsGroup | services/go_engine.go:169-195 | that sequence names every point of the maximal group exactly once |
| GoEngine.RemoveGroup | services/go_engine.go:199-221 | empties exactly the connected group, though it rewrites the board while it searches it, and returns the sequence GetGroup gives on the old board |
| GoEngine.RemoveDeadNeighbors | services/go_engine.go:149-162 | the capture loop: its captures and final board are those of looking at the neighbours one by one and taking dead groups off before going on |
| GoRules.OneByOneIsAllAtOnce | services/go_engine.go:149-162 | for any list of points, in any order and with repetitions, that removal captures exactly the stones dead before the first removal, and names each once |
| GoRules.OneByOneBoard | services/go_engine.go:149-162 | and leaves the board that removing all of them at once leaves |
| GoEngine.PlaceStone | services/go_engine.go:143-165 | a new board, the old one untouched: the stone down and all enemy groups next to it without a liberty removed at once; the captures in order |
| GoEngine.ValidateMove | services/go_engine.go:25-64 | the verdict: outside exactly off the board, occupied exactly where the array is not 0, ko exactly on an empty ko point, then suicide or accepted; suicide is read off the very board PlaceStone returns |
| GoEngine.GetKoPoint | services/go_engine.go:68-107 | the point just played, exactly when one other point changed and it was alone in its colour; otherwise nothing |
| GoKo.KoPointCases | services/go_engine.go:68-107 | for any two boards: recorded exactly when they differ at one point beside the move and no neighbour of it had its colour before |
| GoRules.CapturesAllDead | services/go_engine.go:149-162 | Article 5: on a board without dead stones a move captures exactly the enemy stones of the whole board that it leaves without a liberty |
| GoRules.CaptureGivesLiberty | services/go_engine.go:41-61 | any capture gives the placed stone a liberty |
| GoRules.SuicideIff | services/go_engine.go:41-61 | suicide is reported exactly when nothing is captured and the placed stone's group has no liberty right after placement |
| GoRules.ClearKeepsGroups | services/go_engine.go:199-221 | taking off whole groups leaves every other group, keeps its liberties, and gives new ones only to the other colour |
| GoRules.AcceptedMoveKeepsLiberties | services/go_engine.go:24-64 | Article 4 is kept: if every stone's group had a liberty and the move is accepted, every group on the new board has one: the new stone's, friendly ones and surviving enemies |
| GoRules.AcceptedIffAllAlive | services/go_engine.go:24-64 | among the points that may be played, a move is accepted exactly when it leaves no group without a liberty |
| GoKo.KoPointIffOneCapture | services/go_engine.go:68-107 | on boards that PlaceStone returns, a ko point is recorded exactly when one stone was captured, and it is the point just played |
| GoKo.OccupiedKoNeverFires | services/go_engine.go:32-39 | with an occupied ko point the verdict is that of having no ko point at all |
| GoKo.RepetitionIsRecapture | services/go_engine.go:68-107 | a reply that brings the old position back is on the one point the move captured |
| GoKo.CapturedPointGuardKeepsArticleSix | services/go_engine.go:32-39 | Article 6: with the captured point as guard no accepted reply recreates the position before the opponent's move |
| GoKo.ReplyRepeatsIffKoShape | services/go_engine.go:68-107 | with the guard that is recorded, a reply is accepted and repeats the position exactly in a ko shape: one stone taken, the taker alone, its one liberty the taken point |
| GoKo.RecaptureAccepted | services/go_engine.go:32-39 | on every board of at least 3 x 3 points a position without dead stones where an accepted capture is answered by an accepted recapture that restores it |
| GoRuns.RecaptureInPlay | services/go_engine.go:32-39 | and a run of accepted requests from a new game that does just this |
| GoSymmetry.SwapPlace | services/go_engine.go:143-165 | exchanging the colours commutes with placing a stone: same captures, exchanged board |
| GoSymmetry.SwapJudge | services/go_engine.go:25-64 | and leaves every verdict as it was |
| GoSymmetry.SwapTerritory | services/go_scoring.go:26-44 | and exchanges the territories |
| GoSymmetry.FlipCaptured | services/go_engine.go:143-165 | transposing the board transposes what a move captures |
| GoSymmetry.FlipPlace | services/go_engine.go:143-165 | and the board after the move |
| GoSymmetry.FlipJudge | services/go_engine.go:25-64 | and leaves every verdict as it was, with the ko point transposed |
| GoSymmetry.FlipTerritory | services/go_scoring.go:26-44 | and transposes the territories, which keep their sizes |
| GoScoring.FloodFillTerritory | services/go_scoring.go:77-98 | with only whole regions visited before, a fill adds exactly the maximal empty region of its point to the shared visited set and returns exactly the colours that border it |
| GoScoring.CountRegion | services/go_scoring.go:101-122 | the size of the maximal empty region of the point |
| GoScoring.RegionCounts | services/go_scoring.go:30-44 | one more region makes the visited set again a union of whole regions, and adds its size to the count of its owner only |
| GoScoring.ScorePoint | services/go_scoring.go:30-44 | one point of the scan: the counters go on being the owned part of the visited regions |
| GoScoring.CountTerritories | services/go_scoring.go:26-44 | each side's territory is the number of empty points whose maximal empty region touches that side's stones and not the other's |
| GoScoring.BoardIsAccountedFor | services/go_scoring.go:26-44 | black territory, white territory, neutral points and stones of a board of size n add up to n * n |
| GoScoring.LoneColorOwnsAll | services/go_scoring.go:26-44 | when only one colour is on the board it owns every empty point and the other none |
| GoScoring.EmptyBoardIsNobodys | services/go_scoring.go:26-44 | without stones nobody owns a point |
| GoScoring.CalculateScore | services/go_scoring.go:26-73 | both territories; komi 6.5; White wins exactly if Black's lead, territory and credited prisoners together, is at most 6 points, so there is never a draw; totals and margin by their numbers; each side is credited with the other counter |
| GoPrisoners.CreditsCaptorsIff | services/go_scoring.go:46-47 | a side is credited with the stones it captured exactly when both captured equally many |
| GoPrisoners.NewGameScore | services/go_scoring.go:8 | a new game of any size: no territory, no prisoners, White ahead by 6.5 |
| GoPrisoners.WinnerIsWrongIff | services/go_scoring.go:46-73 | the reported winner is not the one that crediting the captors gives exactly when twice the difference of the captures exceeds, in half points, the lead without them |
| GoPrisoners.CaptureIsMiscredited | models/game.go:25-26 | on every board of at least 3 x 3 points a run of three accepted moves after which Black has captured one stone and the score credits White with it |
| Games.EmptyBoard | models/game.go:53-58 | the fresh board of a game is empty |
| Games.Game.Fresh | models/game.go:37-50 | a new game: size 19 unless 1 to 19 was asked for, Black to move, nothing captured, nothing played |
| Games.CopyMoves | store/game_memory_store.go:51-63 | the copied move list holds the same records in an array of its own, with capture lists of their own |
| Games.Game.Clone | store/game_memory_store.go:41-70 | a clone has the same state and shares no object with its source: no board, move list, capture list or ko cell |
| Games.Game.Append | handlers/go_game.go:215-221 | appending a record extends the history by it, in place when the backing array has room; no other object is written |
| GameStore.MemoryGameStore.CreateGame | store/game_memory_store.go:73-87 | the store gains one new game under its id, with the starting turn asked for if any; the game handed out shares no object with a stored one, and the stored one is made of new objects only |
| GameStore.MemoryGameStore.GetGame | store/game_memory_store.go:91-100 | nothing if the id is not stored, else a copy with the stored state none of whose objects was ever stored |
| GameStore.MemoryGameStore.UpdateGame | store/game_memory_store.go:103-112 | replaces exactly the game of that id, if there is one; the objects of the given game become stored ones, no others |
| GameStore.MemoryGameStore.Undisturbed | store/game_memory_store.go:91-100 | work on objects that are not stored does not show through the store |
| GameStore.MemoryGameStore.NothingIsShared | store/game_memory_store.go:41-70 | two stored games share no object |
| GoHandlers.CreateGame | handlers/go_game.go:111-130 | a game of 9, 13 or 19 is stored: an empty board of that size, Black to move, nothing captured, passed or recorded; any other size is refused and nothing changes |
| GoHandlers.PlayOn | handlers/go_game.go:163-226 | a play either takes the step of the state machine on the working copy or reports the first failing check and changes nothing; a side that is not to move is told so |
| GoHandlers.PlayMove | handlers/go_game.go:148-252 | a play is answered by the first check that fails, and then nothing stored changes: no such game, no colour named, not that side's turn, off the board, occupied, ko, suicide; else the stored game shows the mover's stone, the captures gone and counted, the record, the ko point and the other side to move; no unsaved change is visible |
| GoHandlers.PassMove | handlers/go_game.go:254-321 | only an unknown player is refused; a missing one is the side to move; the record, the pass count, the turn and the status as documented, the ko point cleared, the rest unchanged |
| GoHandlers.ResignGame | handlers/go_game.go:323-378 | the same of a resignation, which changes only status and history; resigned and winner it reports are both the player named, or the side to move |
| GoHandlers.GetScore | handlers/go_game.go:380-393 | the score of the stored game from its board and both counters, with komi 6.5, by its numbers |
| GoOutcomes.PlayComesTo | handlers/go_game.go:148-252 | the step of the state machine for a play is that case analysis, with the captures and the ko point it records |
| GoOutcomes.PassComesTo | handlers/go_game.go:254-321 | the same for a pass |
| GoOutcomes.ResignComesTo | handlers/go_game.go:323-378 | the same for a resignation |
| GoOutcomes.NewIsUntouched | models/game.go:37-50 | a new game has the size asked for, if it is 1 to 19, else 19, and nothing has happened in it |
| GoGame.EveryRunIsSound | handlers/go_game.go:148-321 | in every run of play, pass and resign requests on any board size no group on the board is without a liberty, and a recorded ko point is occupied |
| GoGame.KoErrorNeverReported | handlers/go_game.go:148-252 | no request of any run is refused for ko |
| GoGame.StonesAreConserved | handlers/go_game.go:198-210 | in every run a side's stones on the board and its captured stones add up to the stones it has put down |
| GoGame.TerritoryAndAreaScores | services/go_scoring.go:26-44 | hence in every run territory plus captures and area scoring differ by the difference in stones put down |
| GoGame.StatusIsIgnored | handlers/go_game.go:148-378 | in the same position a request is answered alike, and does the same to the board, whatever the status |
| GoGame.PassRefusedIff | handlers/go_game.go:254-321 | a pass is refused exactly for an unknown player |
| GoGame.EndsIff | models/game.go:30-31 | a game without dead stones, completed, resigned or neither, can never change its board again exactly if the board has at most one point |
| GoGame.NoGameEnds | models/game.go:30-31 | so after any run on a new game some further requests change the board, unless a board of one point was asked for |
| GoRules.SomeMove | services/go_engine.go:25-64 | on every board of at least 2 x 2 points without dead stones some stone of one of the colours is accepted, ko apart |
| GoRuns.GoesOnAfterTwoPasses | models/game.go:31 | a run that completes the game by two passes and then has a stone accepted |
| GoRuns.GoesOnAfterResignation | handlers/go_game.go:323-378 | a run in which a stone is accepted after a resignation |
| GoHistory.HistoryTellsTheGame | handlers/go_game.go:148-321 | in every run of plays and passes, replaying the history from the empty board gives the board, every recorded capture list and both counters; passes are the trailing passes, the turn is the opponent of the last player, the status is completed exactly when two passes were adjacent, the ko point is that of the last stone |
| GoHistory.HistoryDeterminesTheGame | handlers/go_game.go:148-321 | so two such runs on boards of one size that leave the same history leave the same game |
| GoHistory.EveryStoneInTurn | handlers/go_game.go:165-172 | over every run of plays and passes the sides take turns: a first stone is Black's, any other was put down by the opponent of whoever played or passed before |
| GoHistory.HistoryReplaysIff | handlers/go_game.go:349-354 | over any run, resignations included, the history replays to board, captures and counters at every moment exactly when each resignation is made by a side that holds the first point |
| GoHistory.ResignReplaysIff | handlers/go_game.go:349-354 | after a history that has replayed so far, the next resignation keeps it so exactly when the side that resigns holds the first point |
| GoHistory.PlayingTheCornerRestores | handlers/go_game.go:349-354 | when the side to move resigns without that stone and then plays it after all, board and counters replay again |
| GoHistory.HistoryIsAmbiguous | handlers/go_game.go:349-354 | on every board of at least 2 x 2 points, resigning at once and playing the first point leave the same history and different boards |
| GameInterleaving.StoredGamesAreSequential | handlers/go_game.go:148-252 | however the get, work and update phases of any handlers interleave, every stored game is one that a sequential run from a new game reaches, and so has no group without a liberty |
| GameInterleaving.AloneIsServed | handlers/go_game.go:148-252 | the three phases with nothing in between have the effect that the handlers' contracts state |
| GameInterleaving.UndisturbedUpdateIsServed | handlers/go_game.go:148-252 | when nothing is stored under the id between a handler's get and its update, the update does to the games stored by then what the request does served alone, and the client is told the same, whatever else interleaves |
| GameInterleaving.UpdateStoresFetchedAndOne | handlers/go_game.go:148-252 | in any case the update stores the fetched history and one record, whatever was stored in between |
| GameInterleaving.ServedOnlyIfUnchanged | handlers/go_game.go:148-252 | an update has the effect of serving its request only if the stored history is still the fetched one |
| GameInterleaving.ServedIffUnchanged | handlers/go_game.go:148-252 | where nobody resigns that is exact, whatever came before and whatever interleaves |
| GameInterleaving.OverlappingUpdateIsLost | handlers/go_game.go:148-252 | when two handlers get a game before either stores it, the first one's accepted request leaves no trace |
| GameInterleaving.FirstStoneIsLost | handlers/go_game.go:148-252 | a run from the empty store where two first stones are accepted and only the second handler's is stored in the end |
| ConcurrentGames.Copies.WorkOn | handlers/go_game.go:148-226 | a handler's work takes the step on its own copy; every other handler's copy stays what it was and is still made of other objects |
| ConcurrentGames.Copies.NothingIsShared | store/game_memory_store.go:41-70 | the copies of two handlers share no object |
| ConcurrentGames.Handlers.CopyIsPrivate | store/game_memory_store.go:91-100 | no handler's copy shares an object with a stored game |
| ConcurrentGames.Handlers.GetGame | store/game_memory_store.go:91-100 | on the objects, a get does what it does to the values, whatever other handlers hold |
| ConcurrentGames.Handlers.WorkOnCopy | handlers/go_game.go:148-252 | so does the work on a copy: neither the store nor another copy shows it |
| ConcurrentGames.Handlers.UpdateGame | store/game_memory_store.go:103-112 | so does an update: it may be called after other handlers' updates, and no copy still held becomes part of the store |
| ConcurrentGames.Handlers.Run | handlers/go_game.go:148-252 | so does any interleaving of the phases of any handlers |
| ConcurrentGames.RunFromEmpty | handlers/go_game.go:148-252 | from the empty store every stored object ends as a game without dead stones |
| SseSafety.NoRunPanics | sse/sse.go:32-177 | in every interleaving of Emit, Init, Subscribe, Unsubscribe (once per subscriber), old and new broadcast loops and readers, no step sends on or closes a closed channel, or writes the nil subscriber map |
| SseSafety.ActKeepsInv | sse/sse.go:32-177 | every atomic step keeps the invariant: who may hold the lock, which channels are open, who owns the right to close them |
| SseSafety.SecondUnsubscribePanics | sse/sse.go:169-177 | a second Unsubscribe of the same subscriber does close a closed channel |
| SseSafety.LockHoldersGoOn | sse/sse.go:32-177 | whoever holds the lock, for reading or writing, can take its next step |
| SseSafety.RunsNeverDeadlock | sse/sse.go:32-177 | so after every run each holder of the lock can go on, and nobody waits for a thread that waits itself |
| SseDelivery.EveryRunAccounts | sse/sse.go:54-105 | in every run each subscriber's events are, for each broadcast channel, wanted events of that channel in its order without duplicates; every received event is offered to the subscribers then listed or about to be; each of these has it, does not want it or has its loss counted, and never two of these; nobody else gets it; the drop counter is broadcast drops plus those losses |
| SseDelivery.ActTraced | sse/sse.go:54-78 | every atomic step keeps that losses are of offered, wanted, undelivered events and that only offered events are delivered |
| SseDelivery.ActDelivered | sse/sse.go:54-78 | every atomic step keeps that order, for the subscriber a loop is serving and for all others |
| SseEmissions.EveryEmitIsAccountedFor | sse/sse.go:81-105 | in every run each channel's log is exactly, in send order, the events of the Emit calls whose sends found room, each once and unaltered; every call whose send has been decided is among them or is counted as refused, the latter exactly when the channel held as many events as it was made for |
| SseEmissions.EmitsAreCalls | sse/sse.go:81-105 | those events are the ones the calls were made with |
| SseEmissions.SubscribersReceiveEmitted | sse/sse.go:54-105 | so a subscriber is given only emitted events, of its own board if it named one, and those of one channel in the order of their sends, none twice |
| SseCalls.EverySizeIsAsAsked | sse/sse.go:32-45 | each channel has the size an Init call asked for, or 100; each subscriber the board and size a Subscribe call asked for, or 10 |
| SseCalls.OffersGoToTheRegistered | sse/sse.go:54-78 | each received event is offered to exactly the subscribers registered when its loop takes the lock |
| SseCalls.ClientsReadInOrder | sse/sse.go:54-78 | a client's successful reads have taken that many events from the front of what it was given |
| SseAlone.InitAlone | sse/sse.go:32-51 | Init alone installs a new empty channel of the size asked for, or 100, sets the limit to 100, empties the register, starts the loop and closes the previous channel |
| SseAlone.SubscribeAlone | sse/sse.go:133-156 | Subscribe alone, below the limit, registers one new subscriber with its board and size |
| SseAlone.SubscribeRefused | sse/sse.go:133-156 | at the limit it is refused and nothing changes |
| SseAlone.UnsubscribeAlone | sse/sse.go:169-177 | Unsubscribe alone takes the subscriber off the register and closes both its channels |
| SseAlone.EmitAlone | sse/sse.go:81-105 | Emit alone, with room, puts the event at the end of the installed channel and changes nothing else |
| SseAlone.EmitRefused | sse/sse.go:81-105 | without room it drops the event and counts it |
| SseAlone.EmitUnheard | sse/sse.go:90-95 | before any Init it is dropped and not counted |
| SseAlone.LoopServes | sse/sse.go:54-78 | a loop alone takes the next event and gives it to the subscriber if its board matches |
| SseAlone.LoopEnds | sse/sse.go:54-78 | the loop of a closed and empty channel ends |
| SseAlone.EventArrives | sse/sse.go:32-177 | from the start, for every size, board and event, a run in which the event reaches the one subscriber exactly if the board matches, is read, and the subscriber is gone and closed after Unsubscribe |
| SseLimit.SubscribersBounded | sse/sse.go:133-156 | with at most k Subscribe calls in flight at once the subscriber count never exceeds limit - 1 + k |
| SseLimit.SerialSubscribersWithinLimit | sse/sse.go:133-156 | calls that do not overlap never pass the limit |
| SseLimit.OverlappingCallsPassTheLimit | sse/sse.go:133-156 | from any state of the invariant one below the limit, eight steps of two overlapping calls leave one subscriber more than the limit |
| SseLimit.BoundAttained | sse/sse.go:133-156 | for every k a run from the start with at most k calls in flight at once ends with limit - 1 + k subscribers |
| SseLimit.LimitKeptIff | sse/sse.go:133-156 | the limit is kept by every run with at most k calls in flight exactly when k is at most 1 |
| TaskLinks.DetectCycle | store/sqlite_store.go:154-186 | ends on every finite link set, cyclic or not, and reports exactly whether the parent is the child or one of its ancestors |
| TaskLinks.QueryParents | store/postgres_store.go:272-304 | the rows of the parent query: every parent of the ticket, each once |
| TaskLinks.TaskLinkTable.AddTaskLink | store/sqlite_store.go:81-105 | self-links and what the search reports are refused without a change, every other pair is inserted |
| TaskLinks.TaskLinkTable.RemoveTaskLink | store/sqlite_store.go:108-119 | the pair is gone; a missing pair is an error |
| TaskLinks.TaskLinkTable.GetTaskLinks | store/sqlite_store.go:122-151 | exactly the parents and the children of the ticket, each once |
| TaskLinks.AboveOverLink | store/sqlite_store.go:81-105 | what one more link adds to ancestry: the climbs that pass over it |
| TaskLinks.LinkKeepsAcyclicIff | store/sqlite_store.go:81-105 | a link keeps acyclic links acyclic exactly when the child is not the parent or an ancestor of it |
| TaskLinks.RefusalsAreNeedless | store/sqlite_store.go:81-105 | on acyclic links every refusal other than a self-link concerns a link that would have kept them acyclic |
| TaskLinks.ReverseLinkAccepted | store/postgres_store.go:199-223 | for any two tickets, a link and then its reverse are both accepted and make a cycle |
| TaskLinks.SwappedGuardKeepsAcyclic | store/sqlite_store.go:154-186 | with parent and child exchanged in the search, every run of insertions and removals keeps the links acyclic |
| Columns.ColumnIdIsCanonical | models/ticket.go:50-70 | every column id is trimmed, lower case, ends in "-0" and is not the retired column, and resolving it again changes nothing |
| Columns.ColumnOfWords | models/ticket.go:21-71 | for every title, which column it stands for: "todo-0" for the empty title and "to do", "inprogress-0" for five spellings, an id for itself, all other words with the suffix |
| Columns.StatusOfWords | models/ticket.go:21-71 | whatever its spacing and case, a title with the words of one of the six statuses stands for the column of that status |
| Columns.OtherWords | models/ticket.go:21-71 | the other spellings of "in progress", the retired "doing", and "blocked" and "archived" |
| Columns.SpaceAround | models/ticket.go:54-58 | white space around a title does not count |
| Columns.DefaultTitle | config/config.go:200 | the six default titles stand for the columns of the six statuses |
| Columns.StatusColumns | services/move.go:73-90 | the column of each status and the status of each column by name; every other column counts as Todo |
| Columns.StatusRoundTrip | services/move.go:73-90 | the six valid statuses survive the way to their column and back |
| Tickets.TicketStore.ActiveIds | store/sqlite_store.go:375-398 | exactly the ids of a name's in-progress tickets that are not archived, each once |
| Tickets.TicketStore.Claim | services/claim.go:51-153 | when it succeeds, by name and role, and which error it returns when it does not; what it changes: nothing for one's own ticket, else the target goes to "inprogress-0" and to the claimer and one other active ticket of the claimer, if there is any, to "todo-0" and to nobody, all their other fields and all other tickets unchanged; nothing at all on an error |
| Tickets.TicketStore.Release | services/release.go:37-109 | when it succeeds, by name and role, and which error it returns when it does not; the ticket goes to "todo-0" and to nobody, its other fields and all other tickets unchanged; nothing changes if nobody holds it or on an error |
| Tickets.TicketStore.Move | services/move.go:102-183 | it succeeds exactly for a ticket that is not archived and is already there, or may be moved and the transaction commits; the ticket goes to the column of the status; else the first failing check is reported and nothing changes |
| TicketRules.ClaimLeavesMax | services/claim.go:51-153 | a first-time claim of a ticket that is not archived leaves the claimer with exactly max(1, k) active tickets; of an archived one with max(0, k - 1) |
| TicketRules.ArchivedClaimLosesOne | services/claim.go:51-153 | claiming an archived ticket leaves a claimer who held one active ticket with none |
| TicketRules.ClaimerCount | services/claim.go:104-129 | the number behind it, for every k |
| TicketRules.ClaimChangesAtMostTwo | services/claim.go:104-129 | a claim changes at most two tickets and neither adds nor removes any |
| TicketRules.OthersDoNotGain | services/claim.go:51-153 | nobody else gains an active ticket by a claim |
| TicketRules.RunKeepsAtMostOne | services/release.go:37-109 | over every run of claims and releases, at most one active ticket each is kept |
| TicketRules.MoveKeepsAtMostOneIff | services/move.go:102-183 | a move into progress keeps it exactly when the ticket has no assignee or the assignee holds no other active ticket |
| TicketRules.MoveGivesASecond | services/move.go:102-183 | a permitted move after which its user holds two active tickets, having held one |
| TicketRules.MoveAllowedIff | services/move.go:46-70 | for those entitled to move a ticket, a move to a valid status is refused exactly when it leaves Done or Cancelled without force or a human admin; a permitted one arrives at that status |
| BoardColumns.AgreementShowsLiveTickets | handlers/boards.go:91-126 | agreement read off a column: a ticket that is not archived is listed exactly once if the store has it in that board and column, else not at all |
| BoardColumns.SyncKeepsAgreement | handlers/boards.go:91-126 | storing a ticket of the same board and syncing it keeps cache and store in agreement |
| BoardColumns.CutKeepsAgreement | handlers/tickets.go:53-71 | dropping or archiving a ticket and cutting it from every column does too |
| BoardColumns.AddKeepsAgreement | handlers/boards.go:61-76 | adding a new ticket to store and cache does too |
| BoardColumns.ReplaceKeepsAgreement | handlers/comments.go:153-167 | overwriting the one cached entry of a ticket that keeps its place does too |
| BoardColumns.OneCutIsAll | handlers/archive.go:343-357 | stopping at the first entry found cuts the ticket from the whole cache |
| BoardServer.Server.constructor | handlers/boards.go:13-59 | every configured board with the columns of its titles; when no board has two columns of one id, the cache agrees with the store and lists nothing archived |
| BoardServer.DefaultIdsDistinct | config/config.go:200 | the default titles stand for six different columns |
| BoardServer.DefaultServer | config/config.go:194-211 | so with the default boards, whatever the store holds, each board has the columns of the six statuses and the cache agrees with the store |
| BoardServer.Server.AddTicketToMemory | handlers/boards.go:61-76 | the ticket at the end of the first column with its id, nothing for an unknown board or column |
| BoardServer.Server.SyncTicketInMemory | handlers/boards.go:91-126 | out of every column of its board, then at the end of its own |
| BoardServer.Server.HandleClaim | handlers/claim.go:27-86 | agreement is kept, with the freed ticket synced as well; in the store the target is claimed and at most one other ticket, an active one of the claimer, is back in "todo-0" with nobody |
| BoardServer.Server.HandleRelease | handlers/release.go:25-85 | agreement is kept; in the store the ticket is back in "todo-0" with nobody, and it succeeds exactly as the release does |
| BoardServer.Server.HandleMove | handlers/moves.go:32-132 | agreement is kept; the store changes as the move says; an invalid status is refused first |
| BoardServer.Server.ReplaceTicketInCache | handlers/comments.go:153-167 | the cached entry of the ticket, wherever it is, is overwritten and nothing else; with the store already holding the new ticket, the cache agrees again |
| BoardServer.Server.HandleUpdateTicket | handlers/tickets.go:89-189 | the named fields change, the others stay, agreement is kept |
| BoardServer.Server.HandleDeleteTicket | handlers/tickets.go:26-87 | agreement is kept when the delete commits; when it does not, exactly if the ticket is archived or has no column |
| BoardServer.Server.SyncArchivedTicketInMemory | handlers/archive.go:343-357 | cuts the ticket from the whole cache |
| BoardServer.Server.SingleArchive | handlers/archive.go:34-95 | for an admin or overseer the ticket is archived; agreement is kept |
| BoardServer.Server.BulkArchive | handlers/archive.go:98-173 | for an admin or overseer every listed ticket that exists is archived, the others are named, nothing else changes; agreement is kept |
| BoardServer.Server.FindKey | store/sqlite_store.go:619-692 | a live ticket whose row has that idempotency key, if the key is not empty and there is one |
| BoardServer.Server.HandleCreateTicket | handlers/tickets.go:212-321 | the new ticket is stored unless its key is in use, and the answer is it or the live ticket with that key; agreement is kept when it is stored; on a key hit or a failed commit, exactly if the cache has no column for it |
| BoardServer.Server.CreateTwice | store/interface.go:27 | a create repeated with its key is answered with the first ticket exactly if inserts write the key, else a second ticket is stored; exactly how that leaves cache and store |
| BoardServer.Server.Serve | handlers/boards.go:91-126 | every sequential run of claim, release, move, update, create, delete and archive requests keeps agreement, provided creates have fresh ids and keys not in use and creates and deletes commit |
| BoardServer.AppendDisagrees | handlers/tickets.go:286-305 | a cached ticket the store does not have disagrees exactly when there was a column for it |
| BoardServer.EarlyCut | handlers/tickets.go:53-71 | a ticket cut from the cache that the store keeps disagrees exactly when it is not archived and has a column |
| BoardServer.KeyHitBreaksSync | handlers/tickets.go:286-305 | a create on a loaded server whose key hits leaves cache and store in disagreement |
| BoardServer.FailedDeleteBreaksSync | handlers/tickets.go:53-71 | so does a delete that does not commit |

## Left out

- HTTP routing, JSON, authentication, rate limits, request ids, logs and metrics: no state of their own that the properties depend on.
- Cryptography, random ids and clocks: ids are fresh parameters, timestamps are dropped; the order of rows that SQL sorts by time is left open, so results hold for every order.
- SQL, schema and migrations: the ticket table is a map and the link table a set of pairs; a transaction commits whole or not at all, and a parameter says whether it does.
- The SQLite and PostgreSQL stores are one model, but for whether inserts write the idempotency key; otherwise both run the same statements and the same search. SQLite's LIKE ignores case, the model's prefix test does not; stored column ids are lower case.
- Columns.ColumnIdIsCanonical: trimming and lowering cover ASCII only; Unicode spaces and case are not modelled.
- The event hub is modelled on values, as a transition system, because its steps belong to many goroutines; event payloads, the response stream and `fctx.Done` are not modelled.
- Games.Game.Append: how far a full backing array grows is a choice of the Go runtime; the model doubles it. A board is one two-dimensional array rather than a list of rows.
- Cached columns are values: pointers to one ticket shared between the cache and a caller are not modelled.
- BoardServer.Server.SyncArchivedTicketInMemory: the archived flag it sets on the entry it removes is not modelled, because no cached column holds that entry any more.
- The string-keyed visited maps of the searches are sets of points, which `Points.CoordKeyInjective` justifies; the two copies of the capture loop in placing and validating are one method.
- Player and status strings are parsed at the boundary into datatypes; komi and totals are counted in half points, since the source's only fractions are halves.
- Ticket fields that no rule looks at (title, labels, subtasks, comments and so on) are one opaque field.
- BoardServer.Server.Serve: handlers run one after another; the gap between a commit and its cache sync is not interleaved.
- BoardServer.Server.HandleCreateTicket: the default board and column names are filled in, and the idempotency key is picked from its three places in the request, before the model's call.
- Unarchive (it never touches the cache), pagination, comments, board views, runs, activity logs, validators, configuration, the command-line clients and the web page: per-branch facts without an invariant of their own.
