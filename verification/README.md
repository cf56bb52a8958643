# razortrade: a verified model of the trading ledger

razortrade is a small automated trading daemon. Strategies write signals; a processor checks them against risk limits
and submits orders to a futures venue; the venue's private feed reports fills; the fills move order and position rows;
a supervisor watches the resulting P&L. This project models the parts of it whose correctness spans many steps, and
proves what holds over every run of them.

| module | what it models |
|---|---|
| `Ledger`, `LedgerLaws` | the positions table and its five fill transitions, refined to a journal of lots per row |
| `OrderFills` | filled quantity, average price, fees and status of one order |
| `Stamps` | the fixed-width timestamps that the database compares as text, and decimal numerals |
| `MarketData`, `OrderBuilder` | the market snapshot a signal is priced from, and the entry or exit order built on it |
| `Submission` | the order submission protocol: processor, network, venue, orphan catcher, clock, crashes |
| `Approval`, `Answers` | what must precede a submission, and what each answer leaves in the database |
| `Pacing`, `Resubmission`, `Completion` | how far apart the submissions of one signal are, what stops and rejections leave behind, and which signals can still finish |
| `FillsRing`, `Reconcile`, `Bookings`, `LateFills`, `DroppedFills` | the bounded ring of fills and the loop that drains it into the tables |
| `OrderBook` | the sequence-checked replica of the venue's order book |
| `Nonce` | the lock-free nonce generator |
| `RiskGate`, `Supervisor`, `Watchers` | the pre-trade budget check, the checklist, the kill switch and its event log |
| `Indicators` | Donchian channels, Wilder's average true range, the entry and exit rules |

Conventions. Money and quantities are `real`; the rounding of the decimal type appears only as an explicit bound in
`OrderFills.RoundingStaysBounded`. Database tables are sequences of rows, oldest first. Concurrent tasks are atomic
steps in any interleaving. State that the source updates in place is held in a class (`PositionTable`, `FillsBuffer`,
`Reconciler`, `LocalOrderBook`, `NonceGenerator`, `KillSwitch`), whose methods are proved to compute a function of the
old state; the run invariants are lemmas about those functions. Times are microseconds since the start of year 0.

Where a promise is not kept by the code, the model follows the code, a lemma gives a run that breaks it where one is
short, and a theorem gives the exact condition:

- a row's P&L is not its cash flow but bounds it from one side, with equality exactly while every add is at the
  average (`LedgerLaws.ReachableRow`);
- a stop can bring a signal's next submission forward exactly when it leaves an exposed submission in the two tables
  (`Resubmission.TooEarlyIffExposed`), and the 90 s spacing holds on every run whose stops leave none (`Pacing`);
- a rejected signal may be executed exactly when some submission of it was not refused
  (`Resubmission.RejectedMayExecuteIff`), and a pending one is never processed once the fill feed has completed
  its row (`Completion.ProcessedIffCompletable`);
- a resubmitted exit keeps its row's quantity exactly when its position kept its size
  (`Submission.VenueHoldsTheStoredTerms`);
- nonces stop rising exactly once the largest 64-bit value is passed (`Nonce.RisingIffBelowTheEdge`);
- a synced book is crossed exactly while a crossed snapshot stands (`OrderBook.CrossedOnlyAfterCrossedSnapshot`);
- an aborted drain is safe to retry exactly when pending fills ascend (`Reconcile.RetriesSkipNoneIffAscending`), and
  a fill that comes in at or below the watermark is never due (`LateFills.DueIffEnteredAbove`), nor one that a full
  ring pushed out unrecorded (`DroppedFills.NoneLostIff`);
- a booking torn between its writes counts twice when retried, unless nothing was written or there was no order
  (`Reconcile.TearIsHarmlessIff`); a fill whose orphan lookup fails is recorded without its order
  (`Reconcile.MatchedIff`);
- the budget check dominates the supervisor exactly when the hard threshold is within the budget
  (`RiskGate.DominatesIff`), and covers trades open together exactly when the sum of their worst cases fits
  (`RiskGate.SafeTogetherIff`);
- tasks evaluating the kill switch at the same time keep the log orderly exactly when none is overtaken between
  its reading and its record (`Watchers.OrderlyIffNeverOvertaken`);
- a panic close reaches every position exactly when no two of its orders fall in one second, because their client ids
  carry only the event and the second (`Supervisor.EveryCloseAcceptedIff`).

The comments on the timestamp say 26 characters; the format has 27 (`Stamps.CanonicalIso`). A ring of capacity zero
never drops.

## Model

| member | source | states |
|---|---|---|
| `Ledger.HitRefinesNetOff` | crates/rt-persistence/src/repo.rs:846-1007 | for every open row and fill, whichever of Added, Reduced, Closed, Flipped the code takes, the row it leaves and the row it may start are those of netting the fill against the row's lots |
| `Ledger.ApplyRefinesPost` | crates/rt-persistence/src/repo.rs:760-1011 | one fill on the table is one posting in the journal, read row by row |
| `Ledger.RunRefinesJournal` | crates/rt-persistence/src/repo.rs:760-1011 | after any run of fills the table is the journal of those fills |
| `Ledger.ApplyReports` | crates/rt-persistence/src/repo.rs:780-1011 | on every sound table, for every fill, the report names the open row of the instrument with its quantity and entry, or the row this fill closed; its P&L is what the row gained; and Opened, Added, Reduced, Closed, Flipped are exactly the passages of the open quantity from zero, up, down, to zero and through zero |
| `Ledger.PositionTable.ApplyFill` | crates/rt-persistence/src/repo.rs:760-1011 | the in-place update computes the specified table and report and keeps at most one open row per instrument |
| `Ledger.PositionTable.SumRealizedBySleeve` | crates/rt-persistence/src/repo.rs:1077-1093 | the loop totals the realised P&L of exactly the sleeve's rows, open or closed |
| `LedgerLaws.AveragingIdentity` | crates/rt-persistence/src/repo.rs:846-880 | averaging two entry prices arithmetically understates the harmonic value by exactly a square term |
| `LedgerLaws.ValueAgainstCashFlow` | crates/rt-persistence/src/repo.rs:1239-1242 | realised P&L plus quantity over entry differs from the true coin cash flow by exactly the accumulated drift, downwards for longs and upwards for shorts; the drift is zero if and only if every add was at the average |
| `LedgerLaws.EntryWithinAdds` | crates/rt-persistence/src/repo.rs:846-880 | the entry price lies between the lowest and highest opening or adding price of the row |
| `LedgerLaws.ReachableRow` | crates/rt-persistence/src/repo.rs:846-1007 | every row of every reachable table: quantity is its net lots, entry among its adds, long value at most and short value at least its cash flow (equality if and only if adds are at the average), and once closed the same for its recorded P&L |
| `LedgerLaws.ReachableTable` | crates/rt-persistence/src/repo.rs:780-1011 | every reachable table: one open row per instrument at most, open if and only if quantity is not zero, open quantity the sum of all signed fills, and the rows' cash flows add up to that of the fills |
| `LedgerLaws.SleevePnlIsReportedPnl` | crates/rt-persistence/src/repo.rs:1077-1093 | per sleeve, realised P&L summed over rows is the sum of the per-fill reports credited to the sleeve that opened the row |
| `LedgerLaws.CashIsConserved` | crates/rt-persistence/src/repo.rs:760-1011 | the lots partition the fills, also across flips: summed over an instrument's rows, cash flow is that of its fills |
| `LedgerLaws.TwoFillsAreOne` | crates/rt-persistence/src/repo.rs:771-1011 | two fills at one price leave the table that one fill of their sum leaves, through all pairs of transitions |
| `LedgerLaws.SplitsDoNotMatter` | crates/rt-persistence/src/repo.rs:771-1011 | replacing a fill by any split of it leaves the identical table: rows, entries, realised P&L |
| `LedgerLaws.ExitsClose` | crates/rt-persistence/src/repo.rs:879-952 | closing-side fills that sum to the position go through Reduced steps to exactly one Closed with quantity zero, never Flipped, and touch no other row |
| `OrderFills.ExactTotals` | crates/rt-persistence/src/repo.rs:683-691 | after any fills on an untouched order, filled quantity, fees and average times filled are the exact sums |
| `OrderFills.ArrivalOrderDoesNotMatter` | crates/rt-persistence/src/repo.rs:683-698 | any two arrival orders of the same fills leave the same order state |
| `OrderFills.StatusOnlyAdvances` | crates/rt-persistence/src/repo.rs:693-698 | after fills the status is filled if and only if it was filled before or the quantity is reached, and partially filled otherwise |
| `OrderFills.RoundingStaysBounded` | crates/rt-persistence/src/repo.rs:683-690 | if each division is off by at most eps, the average after n fills is within (n - 1) * eps of exact |
| `Stamps.TextOrderIsTimeOrder` | crates/rt-core/src/time.rs:30-32 | for valid civil times in four-digit years, text order of the stamps is time order, and equal text is equal time |
| `Stamps.StampOrder` | crates/rt-core/src/time.rs:30-32 | the same for instants: comparing printed stamps as text decides comparing the instants |
| `Stamps.FromInstant` | crates/rt-core/src/time.rs:30-32 | every instant has a valid civil time that names exactly that instant |
| `Stamps.SampleStamp` | crates/rt-core/src/time.rs:16-18 | the documented example instant prints as the documented stamp |
| `Stamps.YearStartCounts` | crates/rt-core/src/time.rs:30-32 | the days before a year count the leap days of the Gregorian calendar |
| `Stamps.KnownDays` | crates/rt-core/src/time.rs:30-32 | known days fall where they do, the system clock's epoch included |
| `OrderBuilder.ClientIdInjective` | crates/rt-daemon/src/signal_processor.rs:1098-1111 | different signals have different client ids |
| `OrderBuilder.ClientIdReads` | crates/rt-daemon/src/signal_processor.rs:1098-1098 | a client id is rt-s and the decimal numeral of the signal id |
| `OrderBuilder.EntrySize` | crates/rt-daemon/src/signal_processor.rs:1019-1063 | an entry's size is a whole number q in 1..10000 with q <= notional * fx < q + 1 |
| `OrderBuilder.EntryIsBuiltIff` | crates/rt-daemon/src/signal_processor.rs:1019-1090 | an entry is built exactly for a positive rate, a notional of 1 to below 10001 dollars and a positive price on its own side; each error tells the first of these that fails |
| `MarketData.RatesAreStored` | crates/rt-daemon/src/market_data.rs:128-201 | the rates are exactly the decimals stored under their names in the signal's metadata |
| `MarketData.RateErrors` | crates/rt-daemon/src/market_data.rs:174-201 | metadata that is missing, lacks the rate or cannot be read as one is told apart |
| `MarketData.SnapshotErrs` | crates/rt-daemon/src/market_data.rs:87-127 | a missing book, a missing ticker, a missing last price and an unsynced book are told apart, in this order |
| `OrderBuilder.EntryTermsAreStable` | crates/rt-daemon/src/market_data.rs:82-127 | however book and ticker move between two attempts, an entry keeps symbol, side, client id and quantity, because the snapshot takes its rate from the signal; only the limit price may move |
| `OrderBuilder.EntryIsPassive` | crates/rt-daemon/src/signal_processor.rs:1072-1084 | priced off a snapshot of an uncrossed book, a buy limit is below every ask and a sell limit above every bid |
| `OrderBuilder.EntriesStayPassive` | crates/rt-daemon/src/signal_processor.rs:1072-1084 | the same for the book after any run of messages, unless a crossed snapshot is the last message for the product |
| `OrderBuilder.EntryJoinsTheBest` | crates/rt-daemon/src/signal_processor.rs:1072-1118 | an entry is post-only, not reduce-only, and its limit is the best price of its own side of the whole book |
| `OrderBuilder.ExitOrderFlattens` | crates/rt-daemon/src/signal_processor.rs:924-999 | an exit order built from the open leverage rows, filled in any split of its quantity, takes the position to zero by Reduced steps and one Closed |
| `OrderBuilder.ExitIsBuiltIff` | crates/rt-daemon/src/signal_processor.rs:924-999 | an exit is a reduce-only market order; it is built exactly for the closing side of a position of at least one contract, and each error tells why not |
| `OrderBuilder.OpenPositionCanBeExited` | crates/rt-daemon/src/signal_processor.rs:924-999 | every open leverage row of at least one contract can be exited, and only on its closing side |
| `Submission.StepKeeps` | crates/rt-daemon/src/signal_processor.rs:318-683 | every step of processor, venue, orphan catcher, fill writer, clock or crash keeps the protocol invariant and takes nothing recorded back |
| `Submission.OneOrderPerSignal` | crates/rt-daemon/src/signal_processor.rs:318-683 | in every reachable state a signal has at most one order row, every submission carries the signal's own client id and row, the venue holds at most one order for the signal, and a processed signal's row names that order |
| `Submission.RunIsFaithful` | crates/rt-daemon/src/signal_processor.rs:453-683 | in every reachable state the terms of each row and each submission are exactly what the builder makes of the snapshot and portfolio of that attempt |
| `Submission.VenueHoldsTheStoredTerms` | crates/rt-daemon/src/signal_processor.rs:516-588 | in every reachable state the venue's order came from one of the signal's submissions and has the terms of the stored row: always for an entry, and for an exit exactly when the position that submission was built from had the size of the one behind the row |
| `Resubmission.ExitTermsMayDiffer` | crates/rt-daemon/src/signal_processor.rs:924-999 | a concrete run: an exit resubmitted after its position shrank rests at the venue with another quantity than its row |
| `Submission.RowPrecedesSubmission` | crates/rt-daemon/src/signal_processor.rs:516-604 | whenever a submission leaves, the row it belongs to is already in the table |
| `Approval.SubmissionsAreApproved` | crates/rt-daemon/src/signal_processor.rs:190-281 | over every run, each submission was let through by a gate step with the checklist's approval for exactly its signal, guard time, snapshot and positions, and the processor did nothing else between that step and the sending |
| `Approval.TurnedAwayIsRefused` | crates/rt-daemon/src/signal_processor.rs:190-281 | a signal whose checklist rejects, that has no snapshot or no broker for its sleeve gets no row and no submission, is refused by the next write unless the process stops first, and is never submitted afterwards |
| `Answers.GuardDecides` | crates/rt-daemon/src/signal_processor.rs:158-188 | an expired signal is refused when its turn comes; an unexpired one goes on with the clock as guard time |
| `Answers.FoundRowDecides` | crates/rt-persistence/src/repo.rs:523-543 | of a signal's row: uncertain is looked up, pending submission is skipped, acknowledged, submitted or partially filled makes the signal processed, and any other status is not found |
| `Answers.SecondRowIsKeptOut` | crates/rt-persistence/migrations/20260420000001_orders_cli_ord_id.sql:8-10 | with a row of the client id in the table no second one is written and nothing is sent |
| `Answers.SubmissionIsTimed` | crates/rt-daemon/src/signal_processor.rs:588-602 | a submission carries the order as built, its attempt's guard time and the time it leaves |
| `Answers.AcceptanceIsRecorded` | crates/rt-daemon/src/signal_processor.rs:604-622 | an accepted submission leaves the venue's number and status in the row, the signal processed and its cooldown cleared, and changes nothing else |
| `Answers.TimeoutIsRecorded` | crates/rt-daemon/src/signal_processor.rs:645-663 | an unanswered one leaves the row uncertain, the signal pending and a cooldown of 90 s from now, and changes nothing else |
| `Answers.RefusalIsRecorded` | crates/rt-daemon/src/signal_processor.rs:664-683 | a refused or otherwise failed one leaves the row failed and the signal rejected, and changes nothing else |
| `Answers.FoundOrderIsAdopted` | crates/rt-daemon/src/signal_processor.rs:370-400 | an order the venue lists is adopted, acknowledged if it was in doubt, and the signal processed |
| `Answers.FailedLookupCools` | crates/rt-daemon/src/signal_processor.rs:407-425 | a failed lookup starts a cooldown of 90 s and changes nothing else |
| `Answers.OrphanIsAdopted` | crates/rt-persistence/src/repo.rs:372-396 | the orphan catcher does the same to the row, and never replaces a known broker id |
| `Answers.FillMovesStatus` | crates/rt-persistence/src/repo.rs:693-698 | a fill moves a row to filled or partially filled, and a filled row stays filled |
| `Pacing.RunIsOrderly` | crates/rt-daemon/src/signal_processor.rs:143-188 | over every run, stops included: guard times follow arrival and precede expiry, and a stored cooldown is either older than a submission or ends at least 90 s after it |
| `Pacing.BlockedStays` | crates/rt-daemon/src/signal_processor.rs:318-444 | a signal whose row is not uncertain, that is settled or expired, or whose cooldown reaches a limit stays so under every step, and is submitted only with a guard time at or after the limit |
| `Pacing.RunIsPaced` | crates/rt-daemon/src/signal_processor.rs:165-188 | over every run whose crashes and aborted writes leave no submission exposed, the guard time of each submission is at least 90 s after the submission before it |
| `Pacing.EarlyStopsAreHarmless` | crates/rt-daemon/src/signal_processor.rs:453-588 | a stop while the processor rests, has not sent yet or has stored the final status leaves nothing exposed |
| `Pacing.SubmissionsAreSpaced` | crates/rt-daemon/src/signal_processor.rs:657-663 | on such a run two submissions of one signal are at least 90 s apart |
| `Pacing.SubmissionsAreBounded` | crates/rt-daemon/src/signal_processor.rs:165-188 | on such a run a signal that lives L is submitted at most ceil(L / 90 s) times |
| `Resubmission.TooEarlyIffExposed` | crates/rt-daemon/src/signal_processor.rs:318-444 | after any run that ends with the processor at rest, some continuation submits a signal again within 90 s of a submission exactly when the signal is pending and unexpired, its row is uncertain, and neither the clock nor the stored cooldown has reached 90 s after it |
| `Resubmission.CrashBreaksSpacing` | crates/rt-daemon/src/signal_processor.rs:645-663 | a concrete run: a crash after the uncertain outcome is stored and before the cooldown is, and the signal is submitted twice within 90 s |
| `Resubmission.RejectedMayExecuteIff` | crates/rt-daemon/src/signal_processor.rs:664-683 | after any run, a rejected signal has or may yet get an order at the venue exactly when some submission of it was not refused by the venue |
| `Resubmission.RejectedThoughExecuted` | crates/rt-kraken-futures/src/rest.rs:420-449 | a concrete run: an order that landed on a timeout and was filled is not listed as open, is submitted again and refused, and its signal is rejected though it was executed |
| `Completion.ProcessedIffCompletable` | crates/rt-daemon/src/signal_processor.rs:318-444 | after any run that ends with the processor at rest, a pending signal with an order row can still end up processed exactly when it is unexpired by the time it can be picked up, its row is not filled, and the row is uncertain, has a broker id, or has a submission the venue has not refused |
| `Completion.FilledIsNeverProcessed` | crates/rt-persistence/src/repo.rs:523-543 | a concrete run: the fill feed adopts and completes a timed-out order, the lookup does not return filled rows, and nothing that can happen ever marks the signal processed |
| `FillsRing.RingHoldsYoungest` | crates/rt-kraken-futures/src/private_state.rs:125-187 | over any feed the ring is the last min(capacity, n) accepted fills and its mark the highest of all accepted |
| `FillsRing.RingAscends` | crates/rt-kraken-futures/src/private_state.rs:125-187 | if snapshots ascend, the ring ascends strictly whatever live batches contain, and its mark is its last number |
| `FillsRing.FillsBuffer.ApplyFills` | crates/rt-kraken-futures/src/private_state.rs:138-172 | the loop leaves the specified ring and reports how many fills were taken, how many were duplicates, and a gap if and only if a taken fill jumped ahead of its predecessor |
| `FillsRing.FillsBuffer.ApplySnapshot` | crates/rt-kraken-futures/src/private_state.rs:125-133 | the loop leaves the specified ring |
| `Reconcile.BookKeepsExact` | crates/rt-daemon/src/fill_reconciler.rs:155-430 | booking an unrecorded fill, matched, adopted by the orphan catcher or unmatched, keeps every table the exact fold of the recorded fills |
| `Reconcile.EveryFillOnce` | crates/rt-daemon/src/fill_reconciler.rs:103-430 | over any run of snapshots, live fills, disconnects, ticks, aborts, restarts and other writers no fill id is recorded twice, every order's totals are those of its recorded fills and the positions are their fold in record order |
| `Reconcile.FilledIsSumOfRecorded` | crates/rt-persistence/src/repo.rs:593-734 | over any such run filled quantity, fees and value of each order are sums over its distinct recorded fills |
| `Bookings.TotalsAreOfRecordedFills` | crates/rt-persistence/src/repo.rs:683-691 | over any such run quantity, fees and average times quantity of each order are the sums over the quantities, fees and values of its recorded fills |
| `Bookings.BookingTells` | crates/rt-persistence/src/repo.rs:693-698 | a booked fill leaves its order filled exactly when it was or its recorded quantities reach the order's, partially filled otherwise, and leaves every other order alone |
| `Bookings.TickTellsStatus` | crates/rt-persistence/src/repo.rs:693-698 | the same for every order after any run and any tick, aborted or not |
| `Bookings.PositionIsNetOfRecordedFills` | crates/rt-daemon/src/fill_reconciler.rs:166-240 | over any run the open position of an instrument is what the recorded fills of its orders bought minus sold |
| `Bookings.CleanTickRecordsAll` | crates/rt-daemon/src/fill_reconciler.rs:103-430 | after any run a tick without database errors records every fill of the synced ring above the watermark |
| `Reconcile.ReplayChangesNothing` | crates/rt-daemon/src/fill_reconciler.rs:128-153 | draining fills that are all recorded changes no table |
| `Reconcile.RetriesSkipNoneIffAscending` | crates/rt-daemon/src/fill_reconciler.rs:109-118 | for every set of pending fills: no abort makes a retry skip one if and only if their numbers ascend strictly |
| `Reconcile.TicksSkipNone` | crates/rt-daemon/src/fill_reconciler.rs:404-430 | with an ascending ring, every fill that was above the watermark and that a tick, aborted anywhere, leaves unrecorded is above the new watermark |
| `Reconcile.RunsSkipNone` | crates/rt-daemon/src/fill_reconciler.rs:103-430 | the same after every run of feed, ticks, aborts and restarts whose snapshots ascend, since the ring then ascends |
| `LateFills.DueIffEnteredAbove` | crates/rt-daemon/src/fill_reconciler.rs:109-118 | after any such run an unrecorded fill in the ring is above the watermark exactly when it was above the watermark of the moment it came in |
| `LateFills.NoneStrandedIff` | crates/rt-daemon/src/fill_reconciler.rs:109-118 | so every unrecorded fill in the ring is due exactly when none of them came in at or below the watermark |
| `LateFills.LostFillIsStranded` | crates/rt-kraken-futures/src/ws.rs:530-545 | a concrete run: a live fill is lost, a later one moves the watermark, and the lost one comes with the next snapshot and is picked up by no tick |
| `DroppedFills.PushedOutIsRecordedIff` | crates/rt-kraken-futures/src/private_state.rs:174-180 | after any run, an accepted fill that the full ring has pushed out is recorded exactly when it was recorded at that moment |
| `DroppedFills.NoneLostIff` | crates/rt-kraken-futures/src/private_state.rs:174-180 | so every accepted fill is recorded or still in the ring exactly when each one was recorded before it was pushed out |
| `DroppedFills.BurstLosesAFill` | crates/rt-kraken-futures/src/private_state.rs:174-180 | a concrete run: two live fills between two ticks of a ring that holds one |
| `Reconcile.TearIsHarmlessIff` | crates/rt-daemon/src/fill_reconciler.rs:155-430 | a booking that fails between its separate writes and is retried leaves the tables exact exactly when nothing had been written or the fill belonged to no order |
| `Reconcile.MatchedIff` | crates/rt-daemon/src/fill_reconciler.rs:259-416 | a recorded fill reached an order if and only if its broker id was known or the orphan lookup worked and found a row without one |
| `Reconcile.Reconciler.BookFill` | crates/rt-daemon/src/fill_reconciler.rs:155-430 | the in-place writes of one fill are the specified booking |
| `Reconcile.Reconciler.Tick` | crates/rt-daemon/src/fill_reconciler.rs:91-434 | the loop with its early return leaves the specified tables and watermark and says whether it finished |
| `OrderBook.DeliverKeepsMirror` | crates/rt-kraken-futures/src/orderbook.rs:112-214 | one genuine message, in or out of turn, keeps the replica equal to the venue's book at its number |
| `OrderBook.SyncedMirrorsVenue` | crates/rt-kraken-futures/src/orderbook.rs:112-214 | however messages are lost, repeated or reordered, a synced book is the venue's book after exactly last_seq changes |
| `OrderBook.SyncedIff` | crates/rt-kraken-futures/src/orderbook.rs:112-214 | after any messages the book is synced exactly when a snapshot of its product came and every message since the last one was in turn - no disconnect, each delta the next number and leaving the book uncrossed - and then it is that snapshot with those deltas |
| `OrderBook.ExportsIff` | crates/rt-kraken-futures/src/orderbook.rs:241-275 | and exactly then it exports, at any depth |
| `OrderBook.ChangedLevels` | crates/rt-kraken-futures/src/orderbook.rs:179-192 | a delta's quantity replaces the level at its price, zero removes it, no other level moves |
| `OrderBook.SnapshotAnswers` | crates/rt-kraken-futures/src/orderbook.rs:112-139 | a snapshot is answered with an error exactly when foreign or crossed, and taken unless foreign |
| `OrderBook.DeltaAnswers` | crates/rt-kraken-futures/src/orderbook.rs:143-201 | each answer to a delta tells what it met; a refused one leaves sides and number alone |
| `OrderBook.NoDataUntilSnapshot` | crates/rt-kraken-futures/src/orderbook.rs:241-247 | once not synced, the book exports nothing until a snapshot of its product |
| `OrderBook.CrossedOnlyAfterCrossedSnapshot` | crates/rt-kraken-futures/src/orderbook.rs:133-201 | a synced book is crossed if and only if the last message for the product was a crossed snapshot |
| `OrderBook.BestFirstIsTop` | crates/rt-kraken-futures/src/orderbook.rs:241-275 | an exported side is exactly the best min(depth, n) levels, strictly sorted, and nothing omitted is better |
| `OrderBook.UncrossedSeparates` | crates/rt-kraken-futures/src/orderbook.rs:217-240 | comparing the two best prices decides whether every bid is below every ask |
| `OrderBook.ExportIsPassive` | crates/rt-kraken-futures/src/orderbook.rs:227-275 | joining one's own side of an uncrossed export stays clear of every price on the other |
| `OrderBook.LocalOrderBook.ApplySnapshot` | crates/rt-kraken-futures/src/orderbook.rs:112-139 | the in-place update and its error are the specified ones; a crossed snapshot is reported but stays synced |
| `OrderBook.LocalOrderBook.ApplyDelta` | crates/rt-kraken-futures/src/orderbook.rs:143-201 | the in-place update and each of its five outcomes are the specified ones |
| `OrderBook.LocalOrderBook.ToSnapshot` | crates/rt-kraken-futures/src/orderbook.rs:241-275 | the exported levels are the best ones of each side, or an error when not synced |
| `Nonce.RisingIffBelowTheEdge` | crates/rt-kraken-futures/src/auth.rs:120-140 | for any threads, interleaving and clock readings, issued nonces rise strictly in swap order if and only if none but the last is the largest 64-bit value |
| `Nonce.NoncesIncrease` | crates/rt-kraken-futures/src/auth.rs:120-140 | short of that edge nonces are pairwise distinct, rise in swap order, are at least the caller's clock, and a call that returned before another started got the smaller one |
| `Nonce.CandidateIsLeast` | crates/rt-kraken-futures/src/auth.rs:129-129 | the value tried is the least one above the last and not below the clock |
| `Nonce.RetryGoesThrough` | crates/rt-kraken-futures/src/auth.rs:128-140 | a call whose swap failed issues its nonce with the next swap if nothing intervenes |
| `Nonce.OrderIsLostAtTheEdge` | crates/rt-kraken-futures/src/auth.rs:129-129 | a concrete run past the edge issues a smaller nonce second |
| `Nonce.NonceGenerator.CompareExchangeWeak` | crates/rt-kraken-futures/src/auth.rs:130-135 | the weak compare-and-swap: swaps exactly when the cell holds the expected value and it does not fail spuriously, and reports what it found |
| `Nonce.NonceGenerator.Next` | crates/rt-kraken-futures/src/auth.rs:120-140 | under any schedule of other threads' swaps and spurious failures the loop stops at the first attempt that can go through, and returns and leaves in the cell the candidate for the cell as it then was |
| `RiskGate.GateDominatesSupervisor` | crates/rt-risk/src/checks/hard_limit.rs:44-110 | with the hard threshold within the budget, a leverage trade the gate approves finds the supervisor silent on the same portfolio and keeps its worst case above the budget |
| `RiskGate.WorstCaseIsOfThePosition` | crates/rt-risk/src/checks/hard_limit.rs:91-97 | the projected loss is what a position of notional times leverage loses at the configured adverse move with fees and funding, and at least what it loses at any smaller move |
| `RiskGate.WorstCaseScales` | crates/rt-risk/src/checks/hard_limit.rs:91-97 | it scales with the leverage |
| `RiskGate.GateDecides` | crates/rt-risk/src/checks/hard_limit.rs:44-110 | each answer of the gate exactly by leverage cap, sleeve, effective P&L, drawdown and projected P&L |
| `RiskGate.SupervisorDecides` | crates/rt-risk/src/kill_switch.rs:104-159 | each decision of the supervisor exactly by effective P&L, kill switch, realised P&L and drawdown |
| `RiskGate.LeverageFigures` | crates/rt-core/src/portfolio.rs:138-175 | the leverage figures are those of the first leverage entry, or zero |
| `RiskGate.DrawdownIsLostFraction` | crates/rt-core/src/portfolio.rs:147-156 | the drawdown is the fraction of its high that the unit value has lost |
| `RiskGate.DominatesIff` | crates/rt-risk/src/kill_switch.rs:104-159 | the gate dominates the supervisor for every signal and portfolio if and only if the hard threshold is within the budget |
| `RiskGate.BudgetIsNeverReached` | crates/rt-risk/src/checks/hard_limit.rs:60-107 | along any run of approved trades, each losing at most its worst case, effective P&L never reaches the budget and neither P&L trigger fires |
| `RiskGate.SafeTogetherIff` | crates/rt-risk/src/checks/hard_limit.rs:84-104 | trades open at the same time, each losing at most its worst case, keep effective P&L above the budget exactly when the sum of their worst cases does |
| `RiskGate.OneApprovedTradeIsSafe` | crates/rt-risk/src/checks/hard_limit.rs:84-104 | for one trade the gate's approval implies that condition |
| `RiskGate.ApprovedTradesMayBreakBudget` | crates/rt-risk/src/checks/hard_limit.rs:84-104 | for two it does not: a portfolio on which the gate approves both and their losses together reach the budget |
| `RiskGate.EvaluateChecklist` | crates/rt-risk/src/checklist.rs:235-263 | the loop records every check's outcome in order, with the kill-switch rejection in front, and approves if and only if the gate is open and no check rejects |
| `Supervisor.LogStaysOrderly` | crates/rt-daemon/src/main.rs:475-603 | over every serial run of evaluations and resolutions at most one hard and one soft event are unresolved, and each panic close belongs to its own hard event |
| `Supervisor.EvaluationRecords` | crates/rt-daemon/src/main.rs:475-603 | each evaluation adds exactly the event of the limit breached, under its name, and closes the positions exactly for a new hard event with a broker |
| `Supervisor.ShutUntilResolved` | crates/rt-risk/src/checklist.rs:240-256 | after any run, once an evaluation finds a breach there is an event such that no checklist approves a leverage signal until that event is resolved, whatever else is evaluated or resolved |
| `Supervisor.ResolvingOpens` | crates/rt-persistence/src/repo.rs:167-199 | resolving the one open event opens the gate again, resolving one of several does not |
| `Supervisor.ApprovedTradeLeavesLogAlone` | crates/rt-daemon/src/main.rs:475-603 | after any run, a leverage trade approved by a checklist that holds the hard limit finds an evaluation that adds no event |
| `Supervisor.KillSwitch.EvaluateOnce` | crates/rt-daemon/src/main.rs:475-603 | the in-place evaluation leaves the specified log and starts a panic close exactly when it records one |
| `Watchers.OrderlyIffNeverOvertaken` | crates/rt-daemon/src/main.rs:490-574 | over every interleaving of any number of evaluating tasks and resolutions, there is at most one unresolved event of each kind all along exactly when no task records a kind of which one recorded since its own reading is still unresolved |
| `Watchers.RecordedAtOnceIsSerial` | crates/rt-daemon/src/main.rs:475-603 | reading and recording in one go is the serial evaluation |
| `Watchers.PanicsStayPaired` | crates/rt-daemon/src/main.rs:543-590 | however they interleave, each panic close belongs to its own hard event |
| `Watchers.TwoTasksPanicTwice` | crates/rt-daemon/src/main.rs:490-574 | two tasks that read one breach before either records it start two panic closes |
| `Supervisor.PanicCloseAll` | crates/rt-daemon/src/main.rs:614-728 | one order per open position, each exactly opposite to it, under the event's client id |
| `Supervisor.EveryCloseAcceptedIff` | crates/rt-daemon/src/main.rs:655-662 | a venue that refuses a seen client id accepts every close order if and only if no two are sent in the same second |
| `Indicators.AverageTrueRange` | tools/indicators.py:77-121 | the three loops compute Wilder's average or the specified input error |
| `Indicators.TrueRangeIsLargest` | tools/indicators.py:59-74 | the true range is the largest of the bar's range and its distances from the last close |
| `Indicators.TrueRangeIsSpan` | tools/indicators.py:59-74 | on a real bar it is the span of the prices, the last close included |
| `Indicators.RangesFollowTheBars` | tools/indicators.py:108-112 | the series has one range per bar after the first, each with the close of the bar before it |
| `Indicators.AtrErrs` | tools/indicators.py:94-106 | each input error, first one first |
| `Indicators.WilderIsWeighted` | tools/indicators.py:108-121 | the average is a weighted sum of all true ranges |
| `Indicators.WeightsAreNonNegative` | tools/indicators.py:108-121 | its weights are non-negative |
| `Indicators.WeightsSumToOne` | tools/indicators.py:108-121 | its weights sum to one |
| `Indicators.WilderIsMonotone` | tools/indicators.py:108-121 | raising any true range never lowers the average |
| `Indicators.WilderIsBetween` | tools/indicators.py:108-121 | the average lies between the smallest and the largest true range |
| `Indicators.ShorterChannelIsInside` | tools/indicators.py:54-56 | a shorter channel lies inside a longer one and is not inverted |
| `Indicators.DonchianBounds` | tools/indicators.py:43-56 | the channel is the tightest around the last bars of the period |
| `Indicators.DonchianErrs` | tools/indicators.py:43-53 | each input error, first one first |
| `Indicators.BreakoutIff` | tools/donchian_signal.py:171-211 | a breakout is reported exactly when the last close is above every high, or below every low, of the bars before it, with the average true range |
| `Indicators.BreakoutErrs` | tools/donchian_signal.py:171-182 | there is an answer exactly when both periods are positive and shorter than the series |
| `Indicators.ExitIff` | tools/donchian_exit.py:109-128 | a long is closed exactly below the exit channel, a short exactly above it |
| `Indicators.EntriesAndExitsAgree` | tools/donchian_signal.py:184-210 | a breakout is an exit for a position of the other side and never for its own |

## Left out

- Ledger.PositionTable.ApplyFill: takes fills of positive quantity and price, as the venue sends them; decimal overflow, unparsable columns and the rounding of the decimal type are not modelled.
- Submission.StepKeeps: the protocol is a state machine on values, so the order and signal rows are not objects updated in place; the processor is in Paper or Live mode and every order row carries a client id.
- MarketData.SnapshotForSignal: what the decimal parser makes of a metadata value is part of the value; timestamps of book and ticker are not modelled.
- Reconcile.EveryFillOnce: a fill's order, position and record writes succeed or fail together; `Reconcile.TearIsHarmlessIff` says exactly when a failure between them does no harm.
- Reconcile.Reconciler.Tick: a database error strikes before a fill's first write; the other cases are those of `Reconcile.TearIsHarmlessIff`.
- Supervisor.LogStaysOrderly: evaluations are serial; `Watchers.OrderlyIffNeverOvertaken` is about concurrent ones.
- DroppedFills.NoneLostIff: the venue gives a fill id always the same sequence number.
- Completion.ProcessedIffCompletable: the clock stays within four-digit years.
- Watchers.OrderlyIffNeverOvertaken: an evaluation's two reads, of the portfolio and of the hard trigger, are one step.
- RiskGate.BudgetIsNeverReached: trades follow one another; `RiskGate.SafeTogetherIff` is about trades open together.
- Supervisor.PanicCloseAll: the clock is a parameter and unparsable quantities are not modelled; positions after the close are not followed, since these orders get no order row.
- Nonce.NonceGenerator.Next: what other threads do between two attempts is a parameter; a clock before the epoch is not modelled.
- OrderBuilder.EntrySize: the error for a notional that overflows the decimal type is not modelled.
- Order status across writers is not claimed to advance: the submission writes overwrite it unconditionally.
- The other pre-trade checks (staleness, spread, volatility, funding, notional cap, liquidation distance, duplicate position) each compare one figure with one configured threshold; the checklist theorem holds for any list of checks, these included.
- HTTP, WebSocket, SQLite, JSON, signing, logging, configuration, audit rows and order timestamps are input and output.
- The dashboard, equity and NAV writers, position sizing, drift logging and reconnect backoff are not modelled.
