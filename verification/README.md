# RakshaQuant trading core: a verified model

A Dafny model of the part of RakshaQuant that every order and fill passes through, and of the durable
state that has to agree with it: the position book, the order management system (OMS) over an
unreliable broker, the event log and its read tables, the market tape, the risk state and kill
switches, pre-trade sizing, the exit manager, the shadow ledger, the calendar and the session schedule.

Check it with `dafny verify dfyconfig.toml` (Dafny 4.11).

## How it is laid out

Each component has a specification made of functions on values, and, where the source changes things in
place, a class whose methods are proved to compute exactly those functions. What the source promises is
then proved about the functions, over every run.

| file | models |
|---|---|
| `Domain.dfy`, `Sums.dfy` | the value types; sums over the values of a dictionary |
| `PositionBook.dfy` | `src/oms/position_book.py`: lots, the closing loop, the mutable book |
| `BookProofs.dfy`, `BookCharges.dfy`, `BookReport.dfy` | the accounting identity; FIFO order, charge allocation and when it goes negative; the positions and pieces a fill reports |
| `Oms.dfy`, `OmsService.dfy` | `src/oms/oms.py`: the protocol as steps; the mutable OMS |
| `OmsRestart.dfy`, `OmsOnce.dfy`, `OmsSafety.dfy`, `LateFill.dfy`, `OmsForward.dfy`, `OmsFacts.dfy` | restart refinement; exactly once; no short, and what one late fill does; forward only; what single steps do and announce |
| `Projections.dfy`, `TradeRows.dfy`, `EventStore.dfy`, `StoredTables.dfy` | `src/store/projections.py`, `src/store/event_store.py` |
| `Pnl.dfy`, `TradeRecord.dfy` | P&L conservation across book, events and risk tracker; when every closed piece gets its event |
| `Tape.dfy` | `src/store/tape.py` |
| `RiskState.dfy`, `RiskTracker.dfy`, `RiskHistory.dfy` | `src/risk/state.py`, and its figures and breaches from the bare history |
| `KillSwitch.dfy`, `Flattener.dfy`, `FlattenClash.dfy` | `src/risk/kill_switch.py` |
| `RiskEngine.dfy` | `src/risk/engine.py`, `src/risk/snapshot.py`, the capacity checks of `src/risk/checks/` |
| `ExitManager.dfy`, `ExitStops.dfy`, `LostExit.dfy` | `src/oms/exit_manager.py`, alone and beside the OMS |
| `ShadowLedger.dfy` | `src/evaluation/shadow_ledger.py` |
| `Calendar.dfy`, `Lifecycle.dfy` | `src/domain/calendar.py`, `src/risk/events.py`, `src/engine/lifecycle.py` |

## Choices

- `Decimal` is an exact real; `quantize` is real rounding to 0.0001, ties to even. Timestamps and dates are integers.
- The OMS runs in steps: each stretch of the source between two awaits is one atomic step, and a run is any
  interleaving of them with restarts anywhere. The order id (`sha256`) is an arbitrary function of the intent id, the gate's
  quantity and every broker answer are arbitrary inputs.
- An exception the source lets out is an outcome (`raised`, `WrongBook`, `None`), and what was already changed
  before it stays changed.
- The broker's contract (`OmsSafety.Fair`) is assumed only where a result names it: an unseen fill is for a live
  order of this book, of its side and instrument, for at most what remains; a failed placement was not preceded
  by updates for that order; entries are buys.
- Saving and loading state is the identity.
- Where P&L has to reach the trade log, fills carry charges on the 0.0001 grid (`BookCharges.OnGrid`); the cost schedule
  rounds them to the paisa (`src/brokers/simulated/costs.py:28`). Such a fill, for a known order, is chargeable
  (`Pnl.Chargeable`) when, against the position, its last charge is not negative: a sum over the lots it meets.

## What the code does not promise

Proved as results of their own, with the exact condition, and a concrete case where that is not one already:

- A fill carrying another book's id updates its order before the book refuses it, and no event says so
  (`OmsRestart.FillKeepsSyncExactly`, `ForeignFillUnrecorded`).
- The last piece of a fill over several lots can be charged less than nothing, and `TradeClosed` refuses negative
  charges (`BookCharges.LastPieceCanBeNegative`). `BookCharges.FillAcceptedExactly` says exactly when from the lots and the
  fill alone, `TradeRecord.RecordedExactly` over whole runs, `Pnl.FillGap` what it costs.
- Such a fill raises after the book has moved and before the fill listeners are called, so the exit manager goes on managing
  a position that has shrunk or gone (`ExitManager.ListenAgreesExactly`, `ManagedMatchesBook`,
  `LostExit.ManagedWithoutPosition`).
- A late fill brings an ended order back to life (`OmsSafety.EndedWorksAgainExactly`), and one such fill can end in a short
  (`LateFill.LateFillGoesShort`); `OmsSafety.FillCoveredExactly` and `PlacementCoveredExactly` say exactly which fills and
  placement answers break the cover.
- A cancel or expiry that reports another filled quantity makes the `orders` row disagree with the OMS
  (`Projections.UpdateCarriesExactly`).
- A flush that fails on a later stream records the batches it had written twice when retried
  (`Tape.TapeWriter.FlushAgain`); from part 1,000,000 on rows are written but never read (`Tape.WritePartAppends`).
- The automatic re-arm also lifts an operator's halt that a daily loss escalated (`KillSwitch.RearmLiftsOperatorHalt`).
- Resuming a strategy whose switch is armed acknowledges nothing, so its streak can trip it with fewer new losses than
  the limit (`KillSwitch.ArmedResumeFails`); `ResumeClearsExactly` says when the streak is cleared.
- An exit counts for the streak by its first piece alone (`RiskState.FirstPieceDecides`); `FirstPieceRightExactly` says when
  that is the result of the whole exit.
- A stop order still live at a session start undoes the trailing update, exactly when it has the position's size and a
  lower trigger (`ExitManager.LiveStopUndoesTrail`, `StopFallsExactly`).
- Flatten intent ids leave the product out, so an attempt at a second product of one instrument is dropped as a duplicate
  (`Flattener.DuplicateExactly`, `FlattenClash.TwoProductsCollide`, `CollisionReached`).
- Outside calendar coverage, shifting sessions forward and back can end elsewhere (`Calendar.ShiftBackExactly` for one
  session from any trading day, `RoundTripPastEnd` for any number past the last session, `OutOfCoverageDrifts`).
- A transition of the session schedule is skipped when its time has come before the hooks ahead of it are done, EXIT
  included; one listed at the same time as an entered one is always skipped, so without a delay after the close a run
  under way by then never enters REPORT (`Lifecycle.EnteredExactly`, `SameTimeSkipped`, `LongHookSkipsTheRest`).
- The gross, sector, allocation and cash checks say nothing of an order without a price, and the cash check nothing of a
  sale: the limits hold because other checks block the unpriced and, unless shorts are allowed, opening sales
  (`RiskEngine.OwnBatchWithinLimits`, `ShortsEscapeCash`).

## Model

| member | source | states |
|---|---|---|
| `PositionBook.Book.constructor` | src/oms/position_book.py:81-86 | a new book: its cash is the starting cash, no lots, no fills seen |
| `PositionBook.Book.Apply` | src/oms/position_book.py:90-171 | the whole effect of one fill: refused for another book, nothing for a fill seen before, else cash, lots, realised P&L and pieces |
| `PositionBook.Book.ReduceThenOpen` | src/oms/position_book.py:107-171 | closes against the position, then opens, adds or flips with the rest |
| `PositionBook.Book.CloseLots` | src/oms/position_book.py:111-154 | the closing loop computes the recursive closing of the lots, for every fill |
| `PositionBook.Book.GetEquity` | src/oms/position_book.py:197-209 | cash plus quantity times mark over every key, or an error exactly when an open position has no mark |
| `BookProofs.CloseAllWorth` | src/oms/position_book.py:111-154 | the loop conserves realised P&L less cost and charges at the fill's price, takes equal shares off fill and lots, and leaves no exit charges on a finished fill |
| `BookProofs.FillKeepsWorth` | src/oms/position_book.py:101-171 | a fill moves a key's worth by exactly the cash it moves and the net position by its signed quantity, whether it adds, reduces or flips |
| `BookProofs.ApplyKeepsBalance` | src/oms/position_book.py:90-171 | cash stays the starting cash plus the worth of every key |
| `BookProofs.RunBalanced` | src/oms/position_book.py:80-171 | so after every run of fills |
| `BookProofs.AccountingIdentity` | src/oms/position_book.py:11-12 | equity less starting cash is realised P&L plus (mark - price) times signed quantity less unallocated charges over the open lots, after any run and for any marks |
| `BookReport.AverageStandsForLots` | src/oms/position_book.py:211-225 | a position's average price is there exactly when it is not flat, and at every mark the position at its average gains what the lots gain at their own prices: the identity's open term before charges |
| `BookReport.AddingAverages` | src/oms/position_book.py:157-169 | a fill that adds makes the new average times the new size the old one's plus its own price times quantity |
| `BookReport.ReportedPosition` | src/oms/position_book.py:170-171 | the position a fill reports is the old quantity moved by the fill, with the P&L its pieces add, dated by it; no other key moves |
| `BookReport.RepeatedOrForeign` | src/oms/position_book.py:90-99 | a fill seen before or of another book moves no cash, lot or seen id and closes nothing |
| `BookReport.PiecesReported` | src/oms/position_book.py:126-148 | every closed piece carries its number, key, opening side, both prices and times, the closing decision and reason, and the gross they make |
| `BookCharges.FillIsFifo` | src/oms/position_book.py:107-169 | seen as a queue of single shares, a fill takes the oldest shares off in order, reports exactly those as closed, and puts its rest at the back |
| `BookCharges.ExitChargesExact` | src/oms/position_book.py:109-163 | over one fill the exit shares plus what a flipped or opened lot carries are exactly the fill's charges |
| `BookCharges.LotChargesConserved` | src/oms/position_book.py:114-120 | in every run, a lot's entry allocations plus what it still carries are exactly its opening charges |
| `BookCharges.ExitSharesNear` | src/oms/position_book.py:121-125 | every piece is within half a quantum of its exact share; the one that finishes the fill, or a flipped lot, within half a quantum per earlier piece, so exact when it is the only one |
| `BookCharges.EntryShareNear` | src/oms/position_book.py:116-120 | a piece takes all of a lot's charges with its last share, else its exact part to within half a quantum |
| `BookCharges.QuantizeTies` | src/oms/position_book.py:119-124 | rounding leaves the 0.0001 grid alone and sends halfway cases to the even neighbour |
| `BookCharges.LastPieceCanBeNegative` | src/oms/position_book.py:121-125 | a concrete fill, charged one paisa, whose fourth piece has charges of -0.0001 |
| `BookCharges.FillAcceptedExactly` | src/oms/position_book.py:109-148 | on lots without negative charges, every piece gets charges its event accepts if and only if the fill opens, flips, or its last charge, worked out from lots and fill before booking, is not negative |
| `BookCharges.FillKeepsGriddedExactly` | src/oms/position_book.py:109-163 | lots on the 0.0001 grid stay on it and not negative if and only if the fill does not flip the position with less than nothing left of its charges |
| `BookCharges.OffGridLotGoesNegative` | src/oms/position_book.py:114-120 | a concrete lot off the grid that a sale of nine of its ten shares leaves with negative charges |
| `BookCharges.TradesRecordable` | src/domain/events.py:509-528 | half a quantum per share for each open lot is always enough |
| `OmsService.OMS.Submit` | src/oms/oms.py:194-228 | submission up to the broker call is the Submit step, result included |
| `OmsService.OMS.PlaceReturned` | src/oms/oms.py:227-254 | the answer to a placement, or its failure, is the Placed step |
| `OmsService.OMS.Reducible` | src/oms/oms.py:256-269 | the loop over the orders computes the position less what live reduce-only orders hold |
| `OmsService.OMS.OnUpdate` | src/oms/oms.py:286-315 | a broker update is the Update step |
| `OmsService.OMS.OnFill` | src/oms/oms.py:317-359 | a fill is the FillArrived step, repeated, stray or known, with its exceptions |
| `OmsService.OMS.FillOrder` | src/oms/oms.py:334-381 | the order, the book and the events after a fill of a known order |
| `OmsService.OMS.UpdateFilled` | src/oms/oms.py:341-347 | filled quantity, average, broker id and forced status in one change |
| `OmsService.OMS.EmitTrades` | src/oms/oms.py:360-381 | one TradeClosed per piece, in order, up to the first that cannot be built |
| `OmsService.OMS.AdoptFills` | src/oms/oms.py:483-489 | the missed fills, one by one, until one raises |
| `OmsService.OMS.ResolveFound` | src/oms/oms.py:457-471 | resolving a found UNKNOWN order is the lookup step followed by the adoption step |
| `OmsService.OMS.ResolveAbsent` | src/oms/oms.py:472-481 | one failed lookup of an UNKNOWN order |
| `OmsService.OMS.Restore` | src/oms/oms.py:387-413 | on a fresh OMS the loop over the log computes its replay; otherwise it is refused and changes nothing |
| `OmsService.OMS.RestoreOne` | src/oms/oms.py:394-447 | the replay of one event |
| `OmsService.OMS.Advance` | src/oms/oms.py:535-545 | moves along the table, or not at all |
| `OmsRestart.PlacedReplays` | src/oms/oms.py:227-254 | the event of a placement's outcome replays to what the outcome did |
| `OmsRestart.UpdateReplays` | src/oms/oms.py:286-315 | so does the event of an update |
| `OmsRestart.FillReplays` | src/oms/oms.py:317-359 | so do the events of a fill, for known and unknown orders, overfills included |
| `OmsRestart.TagTradesReplay` | src/oms/oms.py:457-470 | so do those of a resolution that adopts fills and acknowledges |
| `OmsRestart.StepSynced` | src/oms/oms.py:387-447 | every step keeps memory and the replay of the log the same up to version, broker id and UNKNOWN counters |
| `OmsRestart.RestartRefinement` | src/oms/oms.py:387-447 | after any run, restarts included, restoring the log on a fresh OMS gives the same book and the same orders up to those fields |
| `OmsRestart.FillKeepsSyncExactly` | src/oms/oms.py:334-352 | one fill keeps log and memory in step if and only if it is this book's, seen, for no known order, or leaves the order as it is |
| `OmsRestart.ForeignFillUnrecorded` | src/oms/oms.py:341-352 | a concrete run: the order is half filled in memory and untouched in the log |
| `OmsRestart.ForeignEventsIgnored` | src/oms/oms.py:394-411 | other books' events in the same log change nothing: restore reads it as if filtered |
| `OmsOnce.FillKeepsOnce` | src/oms/oms.py:317-347 | a fill, delivered again or not, keeps the book's seen fills equal to the recorded ones and every order equal to its recorded fills |
| `OmsOnce.FillCompletes` | src/oms/oms.py:334-347 | a fill leaves its order FILLED exactly when its recorded fills reach its size |
| `OmsOnce.StepSentOnce` | src/oms/oms.py:199-228 | no step sends an order id to the broker that was sent before |
| `OmsOnce.ExactlyOnce` | src/oms/oms.py:317-347 | in every run: each fill is recorded and booked once, filled quantity is the sum of distinct fills capped at the size, absent overfill the average is their weighted mean, each order is placed at most once across restarts |
| `OmsSafety.RoutedIsLeast` | src/oms/oms.py:204-215 | a routed quantity is positive and exactly the least of gate, request and reducible position |
| `OmsSafety.SubmittedExactly` | src/oms/oms.py:194-225 | a submission is routed if and only if it is this book's, gated, new, any request positive, the gate lets some through and a reduction has something to reduce, and is then the intent's order sent now with nothing filled; it is a duplicate of the held order if and only if its id is known |
| `OmsSafety.ReducibleIs` | src/oms/oms.py:256-269 | what may be reduced is the position less what live reduce-only orders hold, and nothing on the wrong side |
| `OmsFacts.SubmitDoes` | src/oms/oms.py:217-228 | a routed order is held, logged and sent under its id; any other submission does nothing |
| `OmsFacts.BlockedBecause` | src/oms/oms.py:194-215 | which refusal a refused submission gets, first cause first |
| `OmsSafety.SubmitKeepsCovered` | src/oms/oms.py:204-269 | a submission never lets live reduce-only orders hold more than the position |
| `OmsSafety.FillKeepsCovered` | src/oms/oms.py:317-352 | nor does a fair fill, of an entry or of an exit |
| `OmsSafety.NeverShort` | src/oms/oms.py:204-269 | in every fair run, restarts included, for every key: 0 <= what live reduce-only orders hold <= the position |
| `OmsSafety.EndedWorksAgainExactly` | src/oms/oms.py:317-347 | an ended order works again after a fill if and only if the fill is new, names it and leaves some of it to fill, whichever book it is for |
| `OmsSafety.FillCoveredExactly` | src/oms/oms.py:317-352 | any new fill at all, late, too large, stray, foreign, of another side or instrument than its order, keeps live reduce-only orders within the positions if and only if what it claims fits in what no order holds, of its own position and its order's |
| `OmsSafety.PlacementCoveredExactly` | src/oms/oms.py:227-254 | so does the answer to a placement if and only if it is not an unknown outcome of an ended reduce-only order whose rest no longer fits |
| `LateFill.LateFillGoesShort` | src/oms/oms.py:341-352 | a concrete run of seven steps, all fair but one late fill: 16 shares of live exits on a position of 6, then a short of 4 |
| `OmsSafety.AbsentTwice` | src/oms/oms.py:472-481 | an unknown order is never given up on the first failed lookup, and on the second exactly when the timeout has passed |
| `OmsForward.TableMovesForward` | src/oms/oms.py:63-97 | every table move goes forward, or stays between a partial fill and a pending cancel; the ended statuses are the last phase |
| `OmsForward.ForwardOnly` | src/oms/oms.py:535-545 | between any two moments of a fair run no order is lost, resized or moved back, and none that ended works again |
| `OmsForward.FillTellsBrokerId` | src/oms/oms.py:341-346 | after a fill its order has the fill's broker id, or keeps the one it had |
| `OmsForward.BrokerIdStays` | src/oms/oms.py:276-280 | until a restart no order loses its broker id, so it can be cancelled |
| `OmsFacts.MovesByTarget` | src/oms/oms.py:63-97 | the table by target: from which statuses each one may be reached, if and only if |
| `OmsFacts.AdvancedExactly` | src/oms/oms.py:535-545 | an unforced move goes where the table allows or nowhere, one version further exactly when it moves |
| `OmsFacts.PlacedExactly` | src/oms/oms.py:227-254 | the order, the counter and the event after every answer to a placement |
| `OmsFacts.UpdatedExactly` | src/oms/oms.py:286-315 | the order and the event after a broker update: its id if none was known, its status exactly when the table allows and it is no fill's |
| `OmsFacts.FoundExactly` | src/oms/oms.py:457-462 | a found order gets the broker's id and nothing else yet |
| `OmsFacts.AckFoundExactly` | src/oms/oms.py:463-471 | then, if still live, the broker's status; it is no longer looked up, and one acknowledgement goes out |
| `OmsFacts.FillEventsAre` | src/oms/oms.py:334-381 | a fill announces an overfill exactly when it is one, then itself with the order's new figures, the position and the trades |
| `OmsFacts.StrayFillIs` | src/oms/oms.py:320-333 | a fill of no known order changes no order, alerts first, and is booked to the delivery position |
| `OmsFacts.ReconcileNotes` | src/oms/oms.py:491-530 | a completed reconciliation ends with its verdict, and an alert exactly on drift |
| `OmsFacts.StepVersioned` | src/oms/oms.py:547-551 | no step but a restart changes an order without raising its version |
| `Projections.OrderFillCarries` | src/store/projections.py:140-149 | a fill's events leave its row, the fills table and the position row as the OMS and the book have them |
| `Projections.UpdateCarriesExactly` | src/store/projections.py:121-139 | an update leaves the tables right if and only if a cancel or expiry reports the fills already delivered |
| `Projections.TablesAgree` | src/store/projections.py:61-219 | after every completed step of every such run each orders row has the order's size, status, filled quantity and average, each positions row is the book's position, and the fills table holds exactly the seen fills |
| `TradeRows.TradesTableIsLog` | src/store/projections.py:222-254 | in every run the trades table holds exactly the logged pieces, each as logged and under an id of its own |
| `TradeRows.FillRowsAre` | src/store/projections.py:165-194 | for any log the fills table holds, for each id reported, the fill first reported under it |
| `EventStore.EventStore.RegisterProjector` | src/store/event_store.py:54-60 | refused exactly when a table already has a projector |
| `EventStore.EventStore.Project` | src/store/event_store.py:111-114 | every projector takes the event, or the whole fails |
| `EventStore.EventStore.Insert` | src/store/event_store.py:86-109 | one event is stored and projected if and only if it has no seq and every projector takes it |
| `EventStore.EventStore.AppendMany` | src/store/event_store.py:72-109 | all events are stored with the next numbers and projected, or nothing changes; all are if and only if none has a seq and every projector takes the whole batch; rows stay the fold of the log |
| `EventStore.EventStore.Replay` | src/store/event_store.py:121-126 | the replay loop computes each projector's fold of the log, or fails exactly when one fold does |
| `EventStore.EventStore.RebuildProjections` | src/store/event_store.py:116-131 | with projectors complete it always succeeds and gives back exactly the tables kept event by event; a failure changes nothing |
| `StoredTables.StoreKeepsTables` | src/store/event_store.py:86-114 | the rows the store keeps for the OMS projectors are the projection of the log |
| `StoredTables.StoredTablesAgree` | src/store/event_store.py:86-131 | in every such run those rows agree with the OMS and the book |
| `Pnl.FillRealizes` | src/oms/position_book.py:126-148 | a fill realises exactly the net of the pieces it closes |
| `Pnl.FillGap` | src/oms/oms.py:317-381 | any fill, in any state, widens the gap between booked and emitted P&L by exactly the net of the pieces without an event |
| `Pnl.FillRaisesExactly` | src/oms/oms.py:350-381 | an own fill of a known order ends in an exception if and only if it ends inside the position with a negative last charge |
| `TradeRecord.RecordedExactly` | src/oms/oms.py:350-381 | in every fair run with charges on the grid, every closed piece gets its TradeClosed if and only if each fill was chargeable when it arrived |
| `Pnl.BookMatchesTrades` | src/oms/oms.py:350-381 | in every run whose fills are for known orders and chargeable when they arrive, realised P&L is the sum of TradeClosed |
| `Pnl.HearPnl` | src/risk/state.py:188-232 | hearing an OMS step's events, orders and rejects among them, moves the tracker by exactly the net of its trades |
| `Pnl.HeardFacts` | src/risk/state.py:188-195 | what the tracker is told of an order, a rejection and a trade, and that nothing else reaches it |
| `Pnl.PnlAgrees` | src/oms/oms.py:561-573 | in every joint run of OMS and tracker, events fed as emitted, with ticks, new days and restarts of both in any order: book, TradeClosed and tracker over all days agree, and each day is the sum over its strategies |
| `Tape.WritePartAppends` | src/store/tape.py:92-105 | a flushed part appends its rows for readers if and only if its number has six digits; its number is above the stamp and unused |
| `Tape.WriteCompactedKeeps` | src/store/tape.py:115-120 | replacing the compacted file changes neither what is read nor the next part number |
| `Tape.UnlinkKeeps` | src/store/tape.py:121-122 | nor does deleting any absorbed part |
| `Tape.TapeRefinesLog` | src/store/tape.py:156-198 | after any flushes and any compactions cut short anywhere, a reader gets exactly the flushed rows in order, each once, and no part number is used twice |
| `Tape.MergedIsDone` | src/store/tape.py:107-124 | a finished compaction leaves no live part, its stamp is the highest merged, and doing it again changes nothing |
| `Tape.TapeWriter.Add` | src/store/tape.py:84-90 | rows join the end of their own day and stream's buffer |
| `Tape.TapeWriter.Flush` | src/store/tape.py:92-105 | exactly the written streams get their batch appended; it succeeds, and empties the buffers, if and only if there are no more batches than writes that succeed |
| `Tape.TapeWriter.FlushAgain` | src/store/tape.py:92-105 | after a failed flush and a successful one each stream has gained its batch, twice exactly if the first call wrote it; rows are recorded once exactly when it had written none |
| `Tape.TapeWriter.MergeParts` | src/store/tape.py:113-122 | the compacted file, then the deletions, as far as the operations go; with enough the files are the merged ones |
| `Tape.TapeWriter.CompactStream` | src/store/tape.py:107-124 | with a crash after any number of file operations no stream reads differently and no next number changes; with enough of them the stream is merged, with fewer exactly that many have happened |
| `Tape.TapeWriter.Compact` | src/store/tape.py:107-124 | the same over both streams of a day, and both are merged when the operations suffice; other days are untouched |
| `RiskTracker.DailyRiskTracker.StartDay` | src/risk/state.py:136-173 | keeps today's state, rolls an earlier one, refuses a later one |
| `RiskTracker.DailyRiskTracker.EnsureToday` | src/risk/state.py:175-184 | today's state, rolled from the hint or the last mark, or an error when nothing was started |
| `RiskTracker.DailyRiskTracker.RecordOrder` | src/risk/state.py:197-208 | the recorded order's step |
| `RiskTracker.DailyRiskTracker.RecordReject` | src/risk/state.py:210-215 | the recorded reject's step |
| `RiskTracker.DailyRiskTracker.RecordTrade` | src/risk/state.py:217-232 | the recorded trade's step |
| `RiskTracker.DailyRiskTracker.AcknowledgeStreak` | src/risk/state.py:234-248 | the acknowledgement's step, and whether it did anything |
| `RiskTracker.DailyRiskTracker.RiskTick` | src/risk/state.py:252-309 | the loop over strategies finds and returns exactly the breaches of the tick's step |
| `RiskState.RunSound` | src/risk/state.py:122-184 | in every run: low <= last <= peak, low <= start of day <= peak, the day's P&L is the sum over its strategies (rolled days too), and the saved state is the held one |
| `RiskState.RestartInvisible` | src/risk/state.py:122-125 | a restart between any two operations changes neither the state nor any later breach |
| `RiskHistory.FiguresAre` | src/risk/state.py:136-232 | after any orderly history with restarts, today's opening, last, highest and lowest equity, entries, instruments, orders, rejects and every strategy's P&L and streak are those of the bare list of operations |
| `RiskHistory.MarksAre` | src/risk/state.py:234-248 | the marks kept are those of the breaches today's ticks returned, less a running streak acknowledged since |
| `RiskHistory.DayRefused` | src/risk/state.py:136-184 | a day is refused exactly when it lies before the tracker's, or nothing says what it starts from; a day left behind is rolled |
| `RiskHistory.EquityBreachesExactly` | src/risk/state.py:265-281 | a tick returns the daily loss if and only if equity is at or below the opening less the limit, the drawdown if and only if the fall from the highest equity ever seen reaches its limit, once a day, with the configured actions |
| `RiskHistory.StormExactly` | src/risk/state.py:282-290 | and the reject storm if and only if that many of the day's rejects lie inside the window |
| `RiskHistory.StrategyBreachesExactly` | src/risk/state.py:292-309 | and a strategy's loss or streak if and only if what it made and holds, or its losing exits in a row, reach the limit |
| `RiskHistory.BreachesAreThose` | src/risk/state.py:265-309 | and nothing else |
| `RiskState.PeakNeverFalls` | src/risk/state.py:154-161 | the peak never falls within or across days |
| `RiskState.BreachOncePerDay` | src/risk/state.py:299-309 | a returned breach is not returned again that day, whatever happens, unless its streak is acknowledged |
| `RiskState.StepLosses` | src/risk/state.py:217-232 | an operation lengthens a streak if and only if it is the first piece of a losing exit, and then by one |
| `RiskState.StreakNeedsNewLosses` | src/risk/state.py:217-248 | after an acknowledgement no streak breach before as many further losing closes as the limit, pieces of one exit counting once, over any days |
| `RiskState.FirstPieceDecides` | src/risk/state.py:223-231 | an exit of any number of pieces counts once, as the win, loss or neither its first piece is, and all its pieces count for P&L |
| `RiskState.FirstPieceRightExactly` | src/risk/state.py:223-231 | that is the exit's own effect on the streak if and only if piece and total agree on being a loss, and on being a win unless there is no streak |
| `RiskState.PnlConserved` | src/risk/state.py:136-232 | rolled days plus today always hold every trade recorded since the day was started |
| `KillSwitch.KillSwitchRegistry.TripTo` | src/risk/kill_switch.py:130-153 | escalates, or changes nothing |
| `KillSwitch.KillSwitchRegistry.Resume` | src/risk/kill_switch.py:155-165 | re-arms, unless armed already or the HALT file is there |
| `KillSwitch.KillSwitchRegistry.ApplyAll` | src/risk/kill_switch.py:167-175 | the loop over the breaches |
| `KillSwitch.KillSwitchRegistry.CheckHalt` | src/risk/kill_switch.py:177-187 | a HALT file leaves the global switch tripped |
| `KillSwitch.KillSwitchRegistry.BeginDay` | src/risk/kill_switch.py:189-209 | the loop over the switches re-arms exactly the earlier days' daily-loss trips, if configured |
| `KillSwitch.ApplyExactly` | src/risk/kill_switch.py:167-175 | every switch ends exactly at the higher of where it was and the most asked of it, a halt or a flatten, by the codes that are about it; asked no more it keeps its record, raised it carries the code that raised it |
| `KillSwitch.TripExactly` | src/risk/kill_switch.py:130-153 | one trip moves its switch to the higher level, with cause and day only then, and no other |
| `KillSwitch.HaltFileExactly` | src/risk/kill_switch.py:177-187 | a HALT file moves the global switch to the higher of its level and what the file says, and no other |
| `KillSwitch.LoweredExactly` | src/risk/kill_switch.py:130-239 | an operation lowers a switch if and only if it is its resume or a configured re-arm of a daily loss from an earlier day |
| `KillSwitch.LoweredRecord` | src/risk/kill_switch.py:155-209 | a lowered switch is armed from that day without a cause; a resume or a new day leaves every other record whole |
| `KillSwitch.Latched` | src/risk/kill_switch.py:4-9 | over whole runs with restarts, a switch not so lowered never falls |
| `KillSwitch.LatchedWithoutRearm` | src/risk/kill_switch.py:4-9 | without the re-arm only its own resume lowers a switch |
| `KillSwitch.RearmLiftsOperatorHalt` | src/risk/kill_switch.py:195-208 | a concrete run in which an operator's halt is lifted by the re-arm |
| `KillSwitch.ResumeClearsExactly` | src/risk/kill_switch.py:155-165 | after a resume the strategy's streak is nil if and only if its switch was tripped or it had none |
| `KillSwitch.ResumeSticks` | src/engine/runner.py:514-520 | then its switch is armed and its streak breach does not come back before the limit's worth of new losing closes, however long the run |
| `KillSwitch.ArmedResumeFails` | src/risk/kill_switch.py:157-165 | otherwise some continuation with fewer losing closes than the limit raises the breach |
| `Flattener.MoveKeepsNumbered` | src/risk/kill_switch.py:288-291 | an attempt number is spent and saved before its order, so none is sent twice even after a crash in between |
| `Flattener.FlattenSafe` | src/risk/kill_switch.py:273-314 | in every run, crashes anywhere: at most one working FLATTEN order per position, and no attempt of a day and position sent twice |
| `Flattener.CheckExactly` | src/risk/kill_switch.py:316-323 | a position is passed over if and only if a live FLATTEN order is on its very instrument and product |
| `Flattener.DuplicateExactly` | src/risk/kill_switch.py:330-348 | in every run, an attempt handed to the OMS is taken for a duplicate, and changes nothing there, if and only if an earlier routed attempt, at another product, has the same owner, instrument, day and number |
| `Flattener.SingleProductNeverDuplicate` | src/risk/kill_switch.py:341-348 | in a single-product book no attempt is lost that way |
| `FlattenClash.TwoProductsCollide` | src/risk/kill_switch.py:341-348 | a concrete world: the second product's attempt is a duplicate, with nothing working on it and all of it still held |
| `FlattenClash.CollisionReached` | src/risk/kill_switch.py:273-291 | and a run that can happen leads there |
| `RiskEngine.ApprovedIsLargest` | src/risk/engine.py:119-161 | an approval is the largest whole number of lots within the request and every cap, and nothing is approved over a block |
| `RiskEngine.BrokenCheck` | src/risk/engine.py:84-95 | a check that throws lets no opening through and changes nothing for a reduction |
| `RiskEngine.BatchReserves` | src/risk/snapshot.py:158-176 | every budget's reservation, gross, cash, heat, a sector's or a strategy's, is exactly what the approvals take of it |
| `RiskEngine.BatchCounts` | src/risk/snapshot.py:158-176 | one order per approval, one entry and its instrument per approved priced opening |
| `RiskEngine.ReservationsBalance` | src/risk/snapshot.py:158-176 | reserved gross = cash = sum over sectors = sum over strategies = approved opening notional, for every batch and list of checks |
| `RiskEngine.ApprovalFits` | src/risk/engine.py:100-111 | whatever is reserved already, a priced opening that some check of the list caps is approved for no more than is left of the budget |
| `RiskEngine.BatchWithinLimit` | src/risk/engine.py:100-111 | with a check anywhere in the list that blocks or caps each priced opening to the headroom left, a whole batch reserves no more than the room there was, for any budget |
| `RiskEngine.BatchSpendsWithinLimit` | src/risk/engine.py:100-111 | with another that blocks unpriced openings, the approvals themselves take no more, and each has a price |
| `RiskEngine.OwnCheckCaps` | src/risk/checks/portfolio.py:46-91 | the gross, sector, heat and cash checks and the strategy allocation are such capping checks, cash for buys |
| `RiskEngine.RoomIsLargest` | src/risk/checks/base.py:83-87 | such a check blocks exactly at its limit and below it caps to the most shares that fit |
| `RiskEngine.OwnCheckExactly` | src/risk/checks/portfolio.py:46-91 | each capacity check blocks exactly when nothing is left after the reservations, and else caps to the most shares that fit, cash with its buffer |
| `RiskEngine.RiskCheckExactly` | src/risk/checks/order.py:34-58 | the risk per trade caps to the most shares that may lose no more than its budget |
| `RiskEngine.GuardsExactly` | src/risk/checks/order.py:34-151 | the stale, short and stop checks block exactly what they are for, openings only |
| `RiskEngine.StaleBlocksUnpriced` | src/risk/checks/system.py:89-97 | the stale-data check is such a blocking one |
| `RiskEngine.OwnBatchWithinLimits` | src/risk/checks/portfolio.py:46-91 | so with the engine's own checks, among any others, a batch on top of what is held stays within each of those limits; for cash exits may be in it, and opening sales unless shorts are allowed |
| `RiskEngine.ShortsEscapeCash` | src/risk/checks/portfolio.py:83-91 | where shorts are allowed, a concrete opening sale takes more cash than there is |
| `RiskEngine.HeatNotOffset` | src/risk/checks/order.py:34-70 | with the two stop checks in the list every approved opening has a positive stop distance, so no heat offsets another's |
| `RiskEngine.Reservations.Add` | src/risk/snapshot.py:158-176 | what one approval reserves, counted or not |
| `RiskEngine.ReserveCounts` | src/risk/snapshot.py:158-176 | which counters a reservation moves, counted or not |
| `RiskEngine.EvaluateOne` | src/risk/engine.py:70-98 | the loop over the checks, those that throw included |
| `RiskEngine.EvaluateBatch` | src/risk/engine.py:100-111 | the loop over the proposals, reserving as it goes |
| `ExitManager.Manager.OnFill` | src/oms/exit_manager.py:151-169 | the listener: an entry is managed, a reduction updates or drops the position |
| `ExitManager.Manager.EntryFill` | src/oms/exit_manager.py:171-212 | levels, lineage and what is kept of a position added to |
| `ExitManager.EntryManaged` | src/oms/exit_manager.py:171-221 | after an entry fill: the book's size and average, stop and target whole ticks at their own factors' distance, stop rounded down and at least a tick, target up; a position added to keeps its entry date, partial flag and stop order |
| `ExitManager.ExitListened` | src/oms/exit_manager.py:157-169 | an exit fill drops a position that is gone, else resizes it, notes a partial and asks for its stop again |
| `ExitManager.Manager.OnSessionStart` | src/oms/exit_manager.py:242-268 | every managed position exits on time or trails its stop, and exactly those left without a stop join the waiting |
| `ExitManager.Manager.RefreshStops` | src/oms/exit_manager.py:270-314 | every waiting position adopts a live stop of its size or sends one, recording its id; exactly those that got neither wait on |
| `ExitManager.SessionStartIs` | src/oms/exit_manager.py:245-266 | at its hold limit a position exits at its price; before it the highest close seen is kept and the stop raised, to the tick, to the trailing distance below it when that is higher |
| `ExitManager.RefreshIs` | src/oms/exit_manager.py:277-313 | a refresh adopts a live stop of the same size or sends a new version at the same price, never both |
| `ExitManager.ListenAgreesExactly` | src/oms/oms.py:350-383 | after a fair fill the manager agrees with the book if and only if the fill was chargeable or its position is not managed |
| `ExitManager.ManagedMatchesBook` | src/oms/exit_manager.py:151-212 | in every fair run with charges on the grid, each managed quantity is the book's and positive after every step, if and only if every fill reached was chargeable on arrival or for a position not managed |
| `ExitManager.ChargeableNoticed` | src/oms/oms.py:350-383 | in particular when every fill is chargeable as it arrives |
| `LostExit.ManagedWithoutPosition` | src/oms/oms.py:350-383 | a concrete fair run after which 206 shares are managed and none are held |
| `ExitStops.StopsNeverFall` | src/oms/exit_manager.py:242-314 | beside the OMS, over session starts with prior stops expired, refreshes, exit fills, other orders and restarts in any order, without an entry fill: stop and highest close never fall while the position is managed |
| `ExitManager.StopFallsExactly` | src/oms/exit_manager.py:277-288 | a session start lowers a stop if and only if it adopts a live one of the same size with a lower trigger |
| `ExitManager.LiveStopUndoesTrail` | src/oms/exit_manager.py:263-288 | after a session start the stop is below the trailed price if and only if a live stop of the position's size triggers below it, and then it is that trigger; the highest close stays raised |
| `ShadowLedger.LifeCycle` | src/evaluation/shadow_ledger.py:125-245 | over any run pending, open and settling are disjoint by signal and within seen, each signal's events are those of its place, and decision < entry < exit |
| `ShadowLedger.InOrderOnce` | src/evaluation/shadow_ledger.py:145-202 | settled <= closed <= opened <= 1 for every signal at every moment |
| `ShadowLedger.StopNeverFalls` | src/evaluation/shadow_ledger.py:164-178 | while a trade stays open its stop never falls |
| `ShadowLedger.Shadow.TrackAll` | src/evaluation/shadow_ledger.py:125-141 | every new BUY signal with a positive ATR joins the queue exactly once with its own facts; nothing else joins or changes |
| `ShadowLedger.Shadow.OnQuote` | src/evaluation/shadow_ledger.py:145-162 | the queue and the open trades lose exactly the items due on the instrument, the others keep their order, each item whose notional buys a share opens a trade at the end, each trade that ends waits to settle, with one event each |
| `ShadowLedger.WaitingAreThose` | src/evaluation/shadow_ledger.py:148-152 | what still waits after a quote is what waited and is another instrument's or not decided before it |
| `ShadowLedger.OpenAreThose` | src/evaluation/shadow_ledger.py:153-160 | what stays open is what was open and is not due, and what ends is the rest |
| `ShadowLedger.NewTradeFacts` | src/evaluation/shadow_ledger.py:206-216 | a trade opens at the quote with the shares the notional pays for, its stop and target a policy's distance away |
| `ShadowLedger.TrailedIs` | src/evaluation/shadow_ledger.py:170-177 | a session keeps the highest close seen and raises the stop exactly to the trailing distance, or keeps it |
| `ShadowLedger.AtSessionIs` | src/evaluation/shadow_ledger.py:164-178 | a trade is marked for its time exit exactly from its hold limit on, and then its price is left alone |
| `ShadowLedger.SettlingAre` | src/evaluation/shadow_ledger.py:229-247 | an ended trade waits under its own id from its entry day to the quote's day, with its times in the event |
| `ShadowLedger.Shadow.OnSessionStart` | src/evaluation/shadow_ledger.py:164-178 | each open trade falls due for its time exit or, short of its hold, has its trailed stop and highest close; nothing else changes |
| `ShadowLedger.Shadow.SettleAlpha` | src/evaluation/shadow_ledger.py:180-202 | exactly the known items leave, in order, with one event each; the unknown stay; nothing else changes |
| `Calendar.Scan` | src/domain/calendar.py:144-150 | the bounded search for a trading day, or a coverage error |
| `Calendar.SessionExactly` | src/domain/calendar.py:111-124 | a special session decides; otherwise weekdays that are no holiday trade at the usual times; uncovered days are neither |
| `Calendar.NextIsAdjacent` | src/domain/calendar.py:126-128 | the next trading day is found if and only if it is the first, only closed covered days lie between, and it is near enough |
| `Calendar.PreviousIsAdjacent` | src/domain/calendar.py:130-132 | the same backwards |
| `Calendar.StepsInvert` | src/domain/calendar.py:126-150 | between trading days next and previous undo each other |
| `Calendar.Shift` | src/risk/events.py:148-163 | the loops of shift_sessions, weekday stand-in included |
| `Calendar.ShiftRoundTrip` | src/risk/events.py:148-163 | within coverage, k sessions one way and k back return to a trading day, for every k of either sign |
| `Calendar.CoveredRoundTrip` | src/domain/calendar.py:111-150 | from a trading day in a covered span without 31 days on end and no session: k there and k back return for every k of either sign the span has sessions for, and k + 1 sessions are counted |
| `Calendar.ShiftBackExactly` | src/risk/events.py:148-163 | from any trading day, covered around or not, one session there and back returns if and only if a session is found or the weekday stand-in leads back, by the one day next to it |
| `Calendar.RoundTripPastEnd` | src/risk/events.py:148-163 | past the last session, a weekday, either way: any number of sessions there and back return if and only if at most one lies past it or the second weekday past it is clear of the covered days |
| `Calendar.OutOfCoverageDrifts` | src/risk/events.py:148-163 | a concrete calendar whose end breaks the round trip over two sessions |
| `Calendar.ListTradingDays` | src/domain/calendar.py:134-142 | the trading days of a range, or an error exactly when a day of it is not covered |
| `Calendar.TradingDaysAre` | src/domain/calendar.py:134-142 | they are exactly the range's trading days, in order |
| `Calendar.CountMatchesShift` | src/domain/calendar.py:134-142 | from a trading day to its k-th successor there are exactly k + 1 trading days |
| `Lifecycle.ScheduleAgrees` | src/engine/lifecycle.py:80-133 | for every session and valid configuration, the state at t from the open on is the last listed transition at or before t |
| `Lifecycle.StatesAreScheduled` | src/engine/lifecycle.py:80-133 | every state exactly in the calendar's and the configuration's own times: entries in the configured window when it fits, the report from its delay to the exit |
| `Lifecycle.ListedInOrder` | src/engine/lifecycle.py:99-116 | listed states only move on and their times never go back |
| `Lifecycle.Run` | src/engine/lifecycle.py:182-214 | the driving loop: PRE_OPEN, what a late start finds, then every transition still ahead at its turn, up to a stop |
| `Lifecycle.DayInOrder` | src/engine/lifecycle.py:182-214 | however late it starts and however long its hooks take, states are entered in order, each at most once, none before its time |
| `Lifecycle.EnteredExactly` | src/engine/lifecycle.py:202-210 | without a stop a transition is entered if and only if the clock has not reached it when the hooks before it are done, or a late start finds it |
| `Lifecycle.SameTimeSkipped` | src/engine/lifecycle.py:206-210 | a transition at the time of the one before it is never entered |
| `Lifecycle.LongHookSkipsTheRest` | src/engine/lifecycle.py:206-210 | nothing a hook outlasts is entered after it |

## Left out

- Flattener: the hash of an intent id is any function, distinct on distinct ids where a result says so; the loop of one step over positions is a sequence of check, spend and send moves for single positions; escalation alerts, releasing resting exits and choosing the owner are not modelled.
- OmsService.OMS.ResolveFound: one order's turn of the resolution loop is one method; the loop itself is any sequence of such steps. The two halves are separate steps in runs, as an await lies between them.
- ExitManager.Manager.OnSessionStart: whether a time exit or a new stop is accepted is an input of both methods; submitting and cancelling are OMS steps, and each position's turn is atomic.
- ExitManager.Manager.RefreshStops: the live stop and whether the new order is accepted are inputs; `ExitStops` reads the live stop from the OMS's orders and sends the new one there.
- Calendar.RoundTripPastEnd: a last session on a special weekend day is left to the one-session result.
- Tape: one reader function over part numbers stands for listing, sorting and matching file names; temporary files and the rename are one atomic write.
- EventStore: seq numbers restart at one after the last stored event; SQLite, locking and migrations are not modelled. A projector reads and writes only its own tables.
- RiskState: the observed and limit figures of a breach and its message are not modelled; breaches of a tick are a set.
- ShadowLedger: P&L, charges and return figures of closed and settled trades are not modelled.
- Decimal precision: the context's 28 digits and the rounding of intermediate quotients are not modelled.
- The other risk checks, the cost schedule, the simulated broker and the fill model: checks and charges are parameters, the broker a contract.
- The reconciliation report's list of differences (only the adoption of missed fills and the recorded verdict are modelled).
- Cancelling orders and standing a position down: they change nothing in the OMS until the broker answers.
- A crash between storing an event and the listeners hearing it; listener failures inside the OMS; asyncio shielding and timeouts.
- The exit manager's partial exits, targets and restart reconciliation, trading on quotes.
- Strategies, trade policy, market data, announcements, LLM calls, reports, the web API and the command line: none of them holds the state modelled here.
