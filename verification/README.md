# Verified models of a Solana copy-trading bot

This project models the parts of the bot that keep state or do arithmetic, and proves what they
guarantee over all inputs, all runs and all interleavings. `dafny verify dfyconfig.toml` checks it.

| file | what it models |
|---|---|
| `Confirmation.dfy` | the send/confirm protocol as a state machine: handles, send task, height poller, confirmation passes |
| `ConfirmationInvariants.dfy` | key, routing and conservation invariants; exactly when a step panics |
| `ConfirmationSafety.dfy` | expiry without a status query, and bounded lifetime, over every interleaving |
| `ConfirmationAnswers.dfy` | where every answer comes from, and that sends are inserted in order, over every run |
| `ConfirmationTask.dfy` | the service and its confirmation loop as they run, step for step in the state machine |
| `LogParser.dfy`, `LogForest.dfy`, `LogText.dfy` | the CPI log parser, invocation forests that it inverts, and the line patterns on text |
| `BondingCurve.dfy` | Pump quotes and whole trading runs |
| `BlockingExecutor.dfy` | the in-place clearing loop and conservation of ids |
| `Pagination.dfy` | paging through an address's signatures while new ones arrive |
| `SlotLeaders.dfy` | the leader tracker |
| `SlotEstimator.dfy` | the slot poller and estimator |
| `Watchers.dfy` | the watcher-task manager |
| `TradeHistory.dfy` | the live trade history and its replay from files |
| `TickArrays.dfy` | Orca tick-array selection |
| `ComputePrice.dfy` | the compute-unit price |

## How the code is modelled

- Concurrent tasks become events of a state machine, one per atomic action; a run is any sequence
  of enabled events. The scan of a concurrent map is one event: an insert racing with it counts as
  earlier if the scan saw the entry and as later otherwise. Removals come from one task only. The
  reply to a status query is one event too; an insert between its removals amounts to one before or
  after it, except for two re-inserts of signatures of the same query.
- Code that updates fields or loops is also written imperatively, and each method is proved equal
  to the specification functions that the lemmas are about.
- Remote calls are parameters with a stated contract, or arbitrary values where the source expects
  nothing of them. Channels are sequences. Keys and signatures are numbers compared for equality.
- Integers are unbounded. A 64-bit operation that can leave its range in the bonding curve, the
  trade history and the start slot is an explicit error (a panic when overflow is checked); a
  truncating cast and the executor's age subtraction wrap explicitly.

## Where the code does not do what one would expect

Each of these is a lemma with a concrete input or family of inputs, next to the exact condition
under which the expected property holds.

- A fresh transaction can be reported expired without a status query if it is inserted before the
  confirmation loop loads its first height, or under a signature the running pass has already
  condemned; in no other case (`FreshInsertIff`, `LateStartLosesFreshTransaction`). The second
  cannot happen while a signature fixes its last valid height (`FreshDatedInsertIff`).
- A handle from `subscribe_all` has no channel, so answering its transaction panics
  (`StepPanicsIff`, `SubscribeAllPanics`).
- Parsing the log for one program misreads other programs' output: a line containing " invoke" or
  ending in " success" loses events or panics, unless the program itself wrote it (`HarmlessIff`,
  `NoiseIff`).
- The buy-out price overpays when fewer real tokens are left than asked for
  (`BuyOutOverpaysBeyondReserve`), and is truncated, in the extreme to nothing, when it exceeds 64
  bits (`BuyOutPriceIsTruncated`); `BuyOutIsLeastPurchase` gives the exact condition.
- The lower tick bound is exclusive: the partial array at the bottom is refused, and a swap upwards
  from there gets no arrays although usable ones lie ahead (`LowestArrayIsRefused`, `EmptyWalk`).
- With a positive leader offset every lagged notification moves the start slot (`LaggedDrifts`).
- Initial watch requests that repeat an address leak a watcher (`QuitStopsEverythingIff`).
- A history dropped by `remove_history` comes back on replay (`ReplayRestoresDropped`).

## Model

| member | source | states |
|---|---|---|
| ConfirmationSafety.NeverExpiredBeforeQuery | crates/biscuit/src/wire/confirm_txn.rs:37-53 | in every interleaving, an entry inserted after the first height load, when no stored height exceeds its last valid height and its signature is not condemned, is never reported expired before a status query for it |
| ConfirmationSafety.ExpiryWithoutQueryIffAtRisk | crates/biscuit/src/wire/confirm_txn.rs:39-164 | from any state, a pending entry can be reported expired with no further status query if and only if it is at risk, a condition on the phase and the heights held |
| ConfirmationSafety.FreshInsertIff | crates/biscuit/src/wire/confirm_txn.rs:37-53 | for a fresh insert, expiry without a query is possible exactly before the first height load or under a condemned signature |
| ConfirmationSafety.FreshDatedInsertIff | crates/biscuit/src/wire/send_txn/service.rs:110-137 | over every run in which a signature fixes its last valid height, a fresh insert is never condemned, so expiry without a query is possible exactly before the first height load |
| ConfirmationSafety.LateStartLosesFreshTransaction | crates/biscuit/src/wire/confirm_txn.rs:35-53 | a concrete fresh transaction that can be reported expired unqueried because the first height is loaded late |
| ConfirmationSafety.RiskIsReal | crates/biscuit/src/wire/confirm_txn.rs:39-164 | constructs, from any state, a run that expires an entry at risk without querying it |
| ConfirmationSafety.SafeStep | crates/biscuit/src/wire/confirm_txn.rs:42-123 | no step other than a query or a new insert puts a safe entry at risk or expires it |
| ConfirmationSafety.BoundedLifetime | crates/biscuit/src/wire/confirm_txn.rs:109-164 | no entry survives two consecutive passes that both read a height above its last valid height, whatever the replies and errors |
| ConfirmationInvariants.ConservationAndRouting | crates/biscuit/src/wire/confirm_txn.rs:61-161 | over every run, inserts of absent signatures equal pending + confirmed + unconfirmed, per signature each is answered at most once, and every channel holds exactly the answers addressed to it, in order |
| ConfirmationInvariants.InvariantStep | crates/biscuit/src/wire/confirm_txn.rs:39-164 | every step keeps keys equal to stored signatures, work lists free of repetition, held heights bounded, routing and accounting |
| ConfirmationInvariants.NoPanicFromStart | crates/biscuit/src/wire/confirm_txn.rs:84-160 | no run whose handles come from subscribe fails a subscriber unwrap or reaches the unreachable arm |
| ConfirmationInvariants.StepPanicsIff | crates/biscuit/src/wire/confirm_txn.rs:84-160 | a step panics exactly when it answers an entry whose source has no channel |
| ConfirmationInvariants.SubscribeAllPanics | crates/biscuit/src/wire/send_txn/service.rs:73-81 | a concrete run in which confirming the first transaction of a subscribe_all handle panics |
| ConfirmationInvariants.ReplyAnswers | crates/biscuit/src/wire/confirm_txn.rs:61-101 | a reply answers a pending signature exactly when the status at its own position confirms it, with that slot and error |
| ConfirmationInvariants.ConfirmAllEffect | crates/biscuit/src/wire/confirm_txn.rs:61-73 | a reply removes exactly the confirmed pending signatures and changes nothing else of the protocol state |
| ConfirmationAnswers.EveryAnswerIsEarned | crates/biscuit/src/wire/confirm_txn.rs:61-161 | over every run, each broadcast answer was added by one event: an expired one by the expiry of that pending entry, a confirmed one by a reply whose status at the entry's own position is satisfied and has that slot and that error, "already processed" counting as none |
| ConfirmationAnswers.ExpiryAnswers | crates/biscuit/src/wire/confirm_txn.rs:125-161 | an expiry reports the entry expired to its source and on the broadcast, removes it and counts it as unconfirmed |
| ConfirmationAnswers.InsertsFollowSends | crates/biscuit/src/wire/send_txn/service.rs:110-215 | over every run, transactions are inserted once each in the order of sending, and the map holds the last one inserted under each signature |
| ConfirmationTask.ConfirmationService.Subscribe | crates/biscuit/src/wire/send_txn/service.rs:53-69 | hands out the next source id with a channel of its own |
| ConfirmationTask.ConfirmationService.SubscribeAll | crates/biscuit/src/wire/send_txn/service.rs:73-81 | hands out the next source id without a channel |
| ConfirmationTask.ConfirmationService.SendTransaction | crates/biscuit/src/wire/send_txn/service.rs:110-137 | queues a transaction of any handle for the send task |
| ConfirmationTask.ConfirmationService.ReceiveNext | crates/biscuit/src/wire/send_txn/service.rs:212-215 | moves the next queued transaction into the unconfirmed map under its signature |
| ConfirmationTask.ConfirmationService.Store | crates/biscuit/src/wire/rpc/poll_blockhash.rs:65-67 | stores the block height, larger or smaller, and touches nothing else |
| ConfirmationTask.ConfirmationService.StartTask | crates/biscuit/src/wire/confirm_txn.rs:35-37 | the confirmation loop starts from the height stored at that moment |
| ConfirmationTask.ConfirmationService.ScanToVerify | crates/biscuit/src/wire/confirm_txn.rs:41-53 | selects exactly the entries whose last valid height is not below both the height read and the last one, once each |
| ConfirmationTask.ConfirmationService.IssueQuery | crates/biscuit/src/wire/confirm_txn.rs:54-58 | queries the next 256 signatures, or all that are left |
| ConfirmationTask.ConfirmationService.HandleReply | crates/biscuit/src/wire/confirm_txn.rs:58-106 | the reply loop is the reply step of the state machine and panics exactly when that does; an RPC error changes nothing |
| ConfirmationTask.ConfirmationService.ScanToExpire | crates/biscuit/src/wire/confirm_txn.rs:111-123 | condemns exactly the entries whose last valid height is below both, once each |
| ConfirmationTask.ConfirmationService.ExpireFirst | crates/biscuit/src/wire/confirm_txn.rs:125-161 | removes the next condemned entry, which is found, counts it as unconfirmed and answers that it expired, panicking exactly when its source has no channel |
| ConfirmationTask.ConfirmationService.Pass | crates/biscuit/src/wire/confirm_txn.rs:39-166 | an undisturbed turn of the loop terminates, does nothing on an empty map, is a run of the state machine, and does not panic if all transactions have channels |
| LogForest.ParseUndoesFlatten | crates/biscuit/src/parser/v1/logs/mod.rs:112-154 | for every transaction, successful or failed at any depth with whatever the runtime logs of the failure, unfiltered parsing of its flattened forest never panics and gives each program exactly the payloads it emitted, in order |
| LogForest.RunComplete | crates/biscuit/src/parser/v1/logs/mod.rs:194-235 | a completed invocation leaves the stack as it was and records exactly what it emitted |
| LogForest.FirstProgramDoesNotMatter | crates/biscuit/src/parser/v1/logs/mod.rs:195-216 | the parse finds the same events whatever program its stack starts with, so pushing the first one twice is harmless |
| LogForest.FilteredParseOfTransaction | crates/biscuit/src/parser/v1/logs/mod.rs:44-57 | if no program but the target prints noise, filtered parsing yields exactly the target's payloads |
| LogForest.HarmlessIff | crates/biscuit/src/parser/v1/logs/mod.rs:121-136 | an output line of a program is harmless to parsing for a target if and only if neither pattern matches it or the program is the target |
| LogParser.FilteredIsRestriction | crates/biscuit/src/parser/v1/logs/mod.rs:112-154 | on every log whose lines of other programs are quiet, filtered parsing is the unfiltered result restricted to the target |
| LogParser.ParseTransactionLogs | crates/biscuit/src/parser/v1/logs/mod.rs:112-154 | the loop over the lines computes the specified result, panics included |
| LogParser.ParsePanicsIff | crates/biscuit/src/parser/v1/logs/mod.rs:112-235 | exactly on which logs parsing panics, and that a log not starting with an invocation has no events |
| LogParser.GetLogsForProgram | crates/biscuit/src/parser/v1/logs/mod.rs:44-57 | the first value of the filtered map is the target's list, on every log |
| LogParser.ProgramCpiStack.Pop | crates/biscuit/src/parser/v1/logs/mod.rs:227-230 | pops the top, failing exactly on an empty stack |
| LogText.InvokeLine | crates/biscuit/src/parser/v1/logs/mod.rs:157-167 | the greedy invoke pattern captures exactly the program of an invoke line |
| LogText.SuccessLine | crates/biscuit/src/parser/v1/logs/mod.rs:168-172 | a success line is read as a pop and nothing else |
| LogText.InvokePattern | crates/biscuit/src/parser/v1/logs/mod.rs:27 | the matcher accepts exactly the texts of the invoke pattern and captures the longest match |
| LogText.SuccessPattern | crates/biscuit/src/parser/v1/logs/mod.rs:28 | the matcher accepts exactly the texts of the success pattern |
| LogText.ClassifyLog | crates/biscuit/src/parser/v1/logs/mod.rs:91-103 | a log line carries what its payload decodes to |
| LogText.ClassifyData | crates/biscuit/src/parser/v1/logs/mod.rs:91-103 | a data line carries what its payload decodes to |
| LogText.NoiseIff | crates/biscuit/src/parser/v1/logs/mod.rs:121-136 | an output line is noise exactly when one of the two regular expressions matches it |
| LogText.WrittenLogParses | crates/biscuit/src/parser/v1/logs/mod.rs:91-173 | the text log of a transaction, whatever payloads its programs print, parses to exactly the decoded payloads of each program, in order |
| LogText.WrittenLogParsesFor | crates/biscuit/src/parser/v1/logs/mod.rs:44-57 | parsed for one program, it gives exactly that program's decoded payloads if no other program prints noise |
| BondingCurve.RunKeepsProduct | crates/biscuit/src/swap/pump/bonding_curve.rs:22-51 | over every run of quoted trades the product never decreases, strictly increases once someone pays, and the token reserve stays positive |
| BondingCurve.NoFreeSol | crates/biscuit/src/swap/pump/bonding_curve.rs:13-52 | a run that leaves no more virtual tokens than at the start pays out at most what it took in, strictly less once someone paid |
| BondingCurve.RunConservesReserves | crates/biscuit/src/swap/pump/bonding_curve.rs:13-52 | over every run both virtual reserves change by exactly what the quotes move |
| BondingCurve.RoundTripLoses | crates/biscuit/src/swap/pump/bonding_curve.rs:13-52 | buying and selling straight back returns strictly less at every fee |
| BondingCurve.SplittingNeverHelps | crates/biscuit/src/swap/pump/bonding_curve.rs:13-33 | after any list of purchases one purchase for the sum has a quote and yields at least as many tokens, the real-reserve cap included |
| BondingCurve.BuyQuote | crates/biscuit/src/swap/pump/bonding_curve.rs:13-33 | exactly when a purchase has a quote, and that no cast or subtraction fails then |
| BondingCurve.BuyOutInvertsBuy | crates/biscuit/src/swap/pump/bonding_curve.rs:62-69 | a purchase yields at least t tokens if and only if it pays at least the exact price of t and the real reserve covers t |
| BondingCurve.BuyOutIsLeastPurchase | crates/biscuit/src/swap/pump/bonding_curve.rs:62-69 | exactly when a zero-fee buy-out price is returned, and exactly when it is the least purchase yielding what the real reserve can give of the amount |
| BondingCurve.BuyOutWithinReserve | crates/biscuit/src/swap/pump/bonding_curve.rs:62-69 | if the real reserve covers the amount, it is the least purchase if and only if the curve is open and the price can be paid |
| BondingCurve.PriceBeyondReserve | crates/biscuit/src/swap/pump/bonding_curve.rs:62-69 | beyond the real reserve the untruncated price agrees with that of the reserve exactly when rounding absorbs the difference |
| BondingCurve.BuyOutOverpaysBeyondReserve | crates/biscuit/src/swap/pump/bonding_curve.rs:62-69 | a concrete curve on which it is not |
| BondingCurve.TruncatedPriceIsUnreachable | crates/biscuit/src/swap/pump/bonding_curve.rs:64-66 | a truncated price belongs to an amount that no 64-bit purchase buys |
| BondingCurve.BuyOutPriceIsTruncated | crates/biscuit/src/swap/pump/bonding_curve.rs:64-66 | a concrete curve whose buy-out price is truncated to zero |
| BondingCurve.BuyOutAddsFee | crates/biscuit/src/swap/pump/bonding_curve.rs:62-69 | exactly when a price with a fee is returned, and that it is the price without plus its share rounded down |
| BondingCurve.SaleKeepsProduct | crates/biscuit/src/swap/pump/bonding_curve.rs:44-46 | a sale never overdraws the SOL reserve and pays the most that does not lower the product |
| BondingCurve.NetIsShareRoundedUp | crates/biscuit/src/swap/pump/bonding_curve.rs:35-52 | at every fee, exactly when a sale has a quote, and that it pays the share left by the fee rounded up |
| BondingCurve.QuoteErrors | crates/biscuit/src/swap/pump/bonding_curve.rs:13-52 | a completed curve refuses with its own error, an open one only on overflow, and nothing costs nothing |
| BondingCurve.RemainderKeepsProduct | crates/biscuit/src/swap/pump/bonding_curve.rs:22-29 | a purchase leaves the least reserve that keeps the product strictly above the old one |
| BlockingExecutor.Compact | crates/biscuit/src/wire/send_txn/blocking_executor.rs:125-153 | the two-index loop turns the list into the stable filter by each entry's own status and age, lists the removed ids in order and counts successes and failures |
| BlockingExecutor.SelectIsStableFilter | crates/biscuit/src/wire/send_txn/blocking_executor.rs:131-153 | that filter keeps exactly the flagged positions, in increasing order |
| BlockingExecutor.KeptIff | crates/biscuit/src/wire/send_txn/blocking_executor.rs:131-153 | an entry is kept exactly if it has no status and was sent at most thirty seconds ago on the wrapping clock, and cleared otherwise |
| BlockingExecutor.ClearingPartitions | crates/biscuit/src/wire/send_txn/blocking_executor.rs:131-156 | kept and cleared ids partition the pending ids |
| BlockingExecutor.ExactlyOnePlace | crates/biscuit/src/wire/send_txn/blocking_executor.rs:65-156 | every sent id is, once, in exactly one of pending, in flight, cleared and drained |
| BlockingExecutor.FetchStatuses | crates/biscuit/src/wire/send_txn/blocking_executor.rs:115-124 | each entry gets the answer for its own signature in the request of its 200 entries |
| BlockingExecutor.NewIdsAreFresh | crates/biscuit/src/wire/send_txn/blocking_executor.rs:65-83 | new ids are distinct and pending exactly for the transactions that were sent |
| BlockingExecutor.NewEntries | crates/biscuit/src/wire/send_txn/blocking_executor.rs:65-83 | the new entries are those of the sent transactions with their own signature and time, by increasing id |
| BlockingExecutor.TransactionExecutor.PushTransactions | crates/biscuit/src/wire/send_txn/blocking_executor.rs:65-83 | every transaction draws the next id; the sent ones become pending; conservation is kept |
| BlockingExecutor.TransactionExecutor.ClearSignatures | crates/biscuit/src/wire/send_txn/blocking_executor.rs:110-154 | a clearing pass filters the pending list, adds to the counters and keeps conservation |
| BlockingExecutor.TransactionExecutor.Publish | crates/biscuit/src/wire/send_txn/blocking_executor.rs:156 | publishes the removed ids, in order, and keeps conservation |
| BlockingExecutor.TransactionExecutor.DrainCleared | crates/biscuit/src/wire/send_txn/blocking_executor.rs:85-87 | hands over all cleared ids and empties the list |
| Pagination.GetSignaturesForAddress | crates/biscuit/src/wire/rpc/utils.rs:80-172 | terminates and returns, position by position, the first signatures strictly between before and until as of the first call, oldest first if asked forward and newest first otherwise, with the right reason; errors only when a call within the limit of 1000 fails |
| Pagination.CollectPages | crates/biscuit/src/wire/rpc/utils.rs:109-163 | the paging loop collects a prefix of the segment without gap or duplicate |
| Pagination.NextSegment | crates/biscuit/src/wire/rpc/utils.rs:123-163 | asking again from the last signature yields the rest of the segment although new signatures have arrived |
| Pagination.SegmentIsBetween | crates/biscuit/src/wire/rpc/utils.rs:123-130 | the segment holds exactly the signatures after before and not at or after until |
| Pagination.SegmentIsContiguous | crates/biscuit/src/wire/rpc/utils.rs:123-130 | the segment is a contiguous part of the history in the history's order |
| SlotLeaders.GetLeaders | crates/biscuit/src/wire/rpc/poll_slot_leaders.rs:36-63 | returns the first distinct leader keys of the known window slots in slot order, each with its latest contact up to the first slot that completes them |
| SlotLeaders.DedupInOrder | crates/biscuit/src/wire/rpc/poll_slot_leaders.rs:36-63 | the distinct keys come in the order of their first slot |
| SlotLeaders.KnownSplits | crates/biscuit/src/wire/rpc/poll_slot_leaders.rs:40-51 | the known leaders of a range are those of its slots in order, unknown slots skipped |
| SlotLeaders.NodeMapIsLatest | crates/biscuit/src/wire/rpc/poll_slot_leaders.rs:177-180 | of several contacts of a key the last one counts |
| SlotLeaders.NoSlotMissing | crates/biscuit/src/wire/rpc/poll_slot_leaders.rs:160-204 | in every run of a new tracker, after a complete refresh at slot s no window slot is missing while the window ends within s + 1000, whatever events follow |
| SlotLeaders.WindowIsScheduled | crates/biscuit/src/wire/rpc/poll_slot_leaders.rs:112-204 | with truthful answers that window holds exactly the scheduled leaders |
| SlotLeaders.RefreshKeepsLoadedSlot | crates/biscuit/src/wire/rpc/poll_slot_leaders.rs:160-188 | a refresh installs from the start slot that it loaded, however far the tracker moves meanwhile |
| SlotLeaders.RefreshEnds | crates/biscuit/src/wire/rpc/poll_slot_leaders.rs:160-192 | a refresh that failed or was answered installs nothing more |
| SlotLeaders.CleanUpRemovesPast | crates/biscuit/src/wire/rpc/poll_slot_leaders.rs:193-204 | a clean-up leaves exactly the slots from the one it read on |
| SlotLeaders.LaggedDrifts | crates/biscuit/src/wire/rpc/poll_slot_leaders.rs:116-124 | a lagged notification moves the start slot exactly when the offset is positive, by four slots per leader |
| SlotLeaders.StartSlotIsLargest | crates/biscuit/src/wire/rpc/poll_slot_leaders.rs:112-127 | over every run the start slot never decreases and reaches that of every notification; unless the offset is positive it is one of them |
| SlotLeaders.LeaderSchedule.OnSlot | crates/biscuit/src/wire/rpc/poll_slot_leaders.rs:121-124 | the start slot becomes the larger of the old one and that of the notified slot, and never decreases |
| SlotLeaders.LeaderSchedule.InstallLeaders | crates/biscuit/src/wire/rpc/poll_slot_leaders.rs:177-188 | inserts the known leaders of the loaded slots |
| SlotLeaders.LeaderSchedule.CleanUpSlotLeaders | crates/biscuit/src/wire/rpc/poll_slot_leaders.rs:193-204 | removes exactly the slots before the start slot |
| SlotEstimator.NotificationsProgress | crates/biscuit/src/wire/rpc/poll_slots.rs:67-109 | notifications never repeat, neither component decreases, and at most 32 timeouts notify between two fresh slots |
| SlotEstimator.EstimatorInvariant | crates/biscuit/src/wire/rpc/poll_slots.rs:67-109 | the estimate stays 0 to 32 slots ahead in every state and notification |
| SlotEstimator.EstimatorTracksLargestSlot | crates/biscuit/src/wire/rpc/poll_slots.rs:71-107 | the processed slot is the largest seen, and a silent timeout found the estimate exactly 32 ahead |
| SlotEstimator.EstimateIsBestGuess | crates/biscuit/src/wire/rpc/poll_slots.rs:67-109 | over every run the estimate is the largest, over all slots heard, of the slot plus the timeouts that notified since |
| SlotEstimator.EstimateSlots | crates/biscuit/src/wire/rpc/poll_slots.rs:67-109 | the estimator loop sends exactly the specified notifications |
| SlotEstimator.PollCommitmentSlots | crates/biscuit/src/wire/rpc/poll_slots.rs:18-44 | the poller loop sends exactly the specified slots and fails when specified |
| SlotEstimator.PollerIsMonotone | crates/biscuit/src/wire/rpc/poll_slots.rs:22-31 | sent slots strictly increase and no answered slot exceeds the last one sent |
| SlotEstimator.PollerSendsRecords | crates/biscuit/src/wire/rpc/poll_slots.rs:22-31 | until it gives up the poller sends exactly the answered slots that exceed all earlier ones |
| SlotEstimator.PollerFailsAfterElevenErrors | crates/biscuit/src/wire/rpc/poll_slots.rs:33-38 | the poller fails exactly at the first eleven errors in a row |
| Watchers.OneWatcherPerAddress | crates/biscuit/src/wire/rpc/poll_transactions.rs:298-372 | from distinct addresses, after any commands the running tasks are exactly the accounts' tasks, one per address |
| Watchers.RunningIffWatched | crates/biscuit/src/wire/rpc/poll_transactions.rs:298-357 | from distinct addresses, after any commands an address has a running task if and only if it is among the initial ones plus all added minus all removed |
| Watchers.AccountsAreWatched | crates/biscuit/src/wire/rpc/poll_transactions.rs:256-357 | the accounts are exactly the addresses to be watched, and every request has spawned one task |
| Watchers.LatestRequestRuns | crates/biscuit/src/wire/rpc/poll_transactions.rs:306-350 | the task of an account is that of its latest request |
| Watchers.QuitStopsEverythingIff | crates/biscuit/src/wire/rpc/poll_transactions.rs:256-292 | after Quit nothing keeps running if and only if the initial addresses were distinct |
| Watchers.CommandsKeepLeaks | crates/biscuit/src/wire/rpc/poll_transactions.rs:298-357 | no sequence of commands creates or repairs a leaked watcher |
| Watchers.WatcherTasks.ProcessAdd | crates/biscuit/src/wire/rpc/poll_transactions.rs:306-350 | adding spawns a task per request and signals the one it displaces |
| Watchers.WatcherTasks.ProcessRemove | crates/biscuit/src/wire/rpc/poll_transactions.rs:351-357 | removing signals the account's task, if any |
| Watchers.WatcherTasks.ProcessQuit | crates/biscuit/src/wire/rpc/poll_transactions.rs:358-370 | quitting removes every account, each removal finding its key, and signals its task |
| TradeHistory.ServeAndReplay | crates/biscuit/src/services/copy/storage/file.rs:23-98 | serving and storing any requests and rebuilding from any directory listing: the rebuilt history is the live one plus the dropped trades, and without removals the live one |
| TradeHistory.ReplayAgreesWithLive | crates/biscuit/src/services/copy/storage/file.rs:41-98 | without removals, replaying the stored trades with files and directories in any order rebuilds exactly the live history |
| TradeHistory.ReplayRestoresDropped | crates/biscuit/src/services/copy/history.rs:265-271 | in every run the replayed volumes are the live ones plus those of the dropped trades, so they agree exactly when these total nothing |
| TradeHistory.LiveReflects | crates/biscuit/src/services/copy/history.rs:228-263 | in every run a live entry holds the total of its trades since the last removal, and exists exactly if there are any |
| TradeHistory.LiveVolumes | crates/biscuit/src/services/copy/history.rs:228-263 | over every run each of the four live volumes is the sum, over the accepted requests of its direction since the last removal, of what the origin traded or of what was executed without the moonbag |
| TradeHistory.AcceptIff | crates/biscuit/src/services/copy/history.rs:113-127 | which offers are accepted, what they store and why the others are refused |
| TradeHistory.LiveBuysPlusDust | crates/biscuit/src/services/copy/history.rs:234-248 | tracked buys plus dust equals everything bought |
| TradeHistory.TotalPermutation | crates/biscuit/src/services/copy/storage/file.rs:74-93 | the replayed total does not depend on the order of the files |
| TradeHistory.HistoricalTrades.InsertTradeInner | crates/biscuit/src/services/copy/history.rs:211-263 | adds the trade's volumes without its dust under wallet and token, or reports which error it is and changes nothing |
| TradeHistory.HistoricalTrades.InsertTrade | crates/biscuit/src/services/copy/history.rs:97-209 | accepts exactly the tracked tokens with a valid dust share, records them and yields what is stored |
| TradeHistory.FileStorage.Store | crates/biscuit/src/services/copy/storage/file.rs:23-39 | files an accepted trade under its wallet and token |
| TradeHistory.FileStorage.BootstrapHistory | crates/biscuit/src/services/copy/storage/file.rs:41-98 | the directory loops rebuild, for each directory, the total of its files |
| TickArrays.GetTickArrayKeys | crates/biscuit/src/swap/orca/utils.rs:53-82 | the longest run of at most three in-range arrays from the shifted tick in swap direction |
| TickArrays.ArraysAreConsecutive | crates/biscuit/src/swap/orca/utils.rs:60-89 | arrays are 88 spacings apart in swap direction; the first contains the tick going down, and the tick one spacing further going up |
| TickArrays.EarlyBreakIsFinal | crates/biscuit/src/swap/orca/utils.rs:64-79 | once the first array is accepted, an early break means every further array is out of range |
| TickArrays.EmptyWalk | crates/biscuit/src/swap/orca/utils.rs:89-108 | when the first array is refused, usable arrays lie ahead exactly if the walk starts below the range going up or above it going down |
| TickArrays.AcceptedRange | crates/biscuit/src/swap/orca/utils.rs:89-108 | exactly which array starts are accepted |
| TickArrays.LowestArrayIsRefused | crates/biscuit/src/swap/orca/utils.rs:89-99 | the array of the lowest tick is refused although the next one up is in range |
| ComputePrice.NeverOverspends | crates/biscuit/src/swap/builder.rs:268-279 | the charged fee never exceeds the requested one |
| ComputePrice.PriceIsLargest | crates/biscuit/src/swap/builder.rs:268-279 | the price is the largest 64-bit number that over one unit more leaves 999999 micro-lamports of the fee |
| ComputePrice.ChargeIsRoundedUp | crates/biscuit/src/swap/builder.rs:269-270 | the charge is the price of the units in whole lamports, rounded up |
| ComputePrice.ShortfallIsBounded | crates/biscuit/src/swap/builder.rs:268-279 | unless clamped, it falls short by less than fee/(units+1) + units/10^6 + 1 lamports |

## Left out

- HTTP, gRPC, websocket, Postgres, file and clock access, logging, command-line programs and the JavaScript tooling.
- Base64 decoding and base58 keys: parameters of the line classifier.
- Failed channel sends (a dropped receiver) and exit flags: they only log, or stop a loop between two steps.
- The block-time limit of the signature search: its partition point is taken with a predicate that is not prefix-shaped on newest-first results.
- Pagination.GetSignaturesForAddress: assumes that an unknown `until` signature does not arrive while the search runs, because the node would then answer with nothing.
- USD and SOL volumes, slippage and other floating-point results; the moonbag share enters the trade history as an arbitrary number, and tick indices use exact floor division.
- Sums of token volumes beyond 64 bits, concurrent inserts of one history key, and two trades stored in the same microsecond.
- TickArrays.GetTickArrayKeys: names an array by its start index and does not derive its address, nor model 32-bit overflow of extreme spacings.
- BondingCurve.RunKeepsProduct: moves the reserves by the quoted amounts, as the on-chain program does; that program is not part of this model.
- Market capitalisation, `Global::get_initial_buy_price` and the quote code around the curve: easy members, or not meant to agree with the curve.
- The per-account polling loop with its retry map, account decoders, generated code and the on-chain `copy` program.
- Wire forwarding of a transaction after it is queued (RPC, Jito, leaders): retries without an effect on the protocol state.
