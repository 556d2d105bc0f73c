# Verification of the parking system

A Dafny model of the parts of the parking system where money, vehicles and messages have to add
up, with proofs about every run of them. Protocols are state machines over explicit state: a run
is any sequence of steps, and a step that is not enabled changes nothing, so the theorems hold for
all interleavings, losses, duplicates, crashes and aborts. Objects that the program updates in
place (the gate daemon, the controller link, the payment service, the card poller, the limiter,
the settlement worker, a settlement batch) are also classes; each method is proved to do to the
fields what the protocol's function of the same operation says.

| file | what it models |
|---|---|
| `EntryLane.dfy`, `GateInDaemon.dfy` | the gate-in daemon with its tasks and timers, Pub/Sub events, the Redis stream of commands, the server's event consumer |
| `EntryLaneTable.dfy` | which card or button gets which answer, and exactly which steps move the gate, start timers and open the relay |
| `EntryLaneProofs.dfy`, `EntryLaneOrder.dfy`, `EntryLaneLiveness.dfy` | conservation, attribution and order, and progress of the entry lane |
| `Breaker.dfy` | the circuit breaker around writes to the controller |
| `Payments.dfy`, `PaymentEffects.dfy`, `PaymentResults.dfy`, `PaymentLimits.dfy`, `PaymentService.dfy` | cash, member card and e-money exit payments over the transaction table and the pending map; what each stores and answers, what all runs guarantee and what not |
| `CardPoller.dfy`, `OmnikeyPoller.dfy` | the exit booth's card reader, its POST with retries, and the relay it fires |
| `Settlement.dfy`, `SettlementRuns.dfy`, `SettlementFaults.dfy`, `SettlementWorker.dfy` | bank settlement files: chunks, commits, batch numbers, file names and contents; when a run raises |
| `BankResponse.dfy` | the bank's response file, row codes, and the life of a batch |
| `Compass.dfy` | the controller's framing, its signals and its Wiegand card numbers |
| `Passti.dfy` | the e-money reader's frames, checksum, BCD and amounts |
| `Tariff.dfy` | the tariff engine and the fee of a transaction |
| `RateLimit.dfy` | the sliding-window limiter in memory and in Redis, one check at a time |
| `RateLimitRaces.dfy` | the same with checks that interleave at every Redis command, fail and fall back |
| `Text.dfy` | decimal and hexadecimal numerals, padding, letter case |

Times are integer microseconds. Redis and Postgres are taken at their contracts: a consumer group
hands an entry out once, INCR is atomic, a committed transaction is visible at once and an aborted
one leaves nothing, the partial unique indexes on active transactions hold. Whether a call
succeeds, what a query with ties returns, what a clock reads and when a message is lost are
parameters of the steps.

## What the proofs say about the code

Where a comment or an expectation and the code differ, the model follows the code:

- Commands are read with `">"` only, so a command that was delivered but not handled is never seen
  again, although a comment says Redis will redeliver it (`daemons/base.py:303`). The proofs use
  this: it is why no command is handled twice (`CommandsPairWithOpenings`).
- PROCESSING has no timeout: a lost ticket event wedges the lane until an operator or a restart
  helps (`LostTicketEventWedges`, `WedgedStaysWedged`).
- VALIDATING has a timeout, but it starts after the event is published: a Redis error in between
  wedges the lane (`RedisFailureWedges`). OPENING and VALIDATING lose their cover exactly when a Redis
  error hits the handler that was their last one (`UncoveredIff`).
- The breaker needs three failures in a row, but a failure tears the connection down and a reconnect
  with a successful setup resets the count; so it opens only after reconnects whose setup write
  failed (`OpensOnlyAfterFailedSetups`, `BreakerCanOpen`).
- The fee an e-money payment was armed with is not compared with the amount the booth reports
  (`ArmedFeeNotEnforced`), and a late callback clears the gate's newer arming (`NewerArmingLostIff`).
- A rejected cash payment keeps its vehicle-type override, because the error is answered and the
  session commits (`RefusedCashUnchangedIff`).
- A lost ticket's floor applies even to a stay within the grace period, and the daily cap is applied to
  the whole stay, not day by day (`CapRefinesBlocks` says exactly when that differs).
- `Retry-After` is rounded down, so waiting exactly that long can be too short (`RetryAfterSufficesIff`).
- The Redis check is four commands with awaits between them, so concurrent requests can all count
  before any of them stores: the limit is exceeded by as many as overlap (`OverlapBoundsWindow`,
  `OverlapBoundIsReached`, `BurstExceedsTwice`).
- A key that expires while a check is held up between its clock reading and its count, or between its
  ZADD and its EXPIRE, lets more through even with one check at a time (`ExpiryWhileLate`,
  `ExpiryWhileLoose`); without that, one check at a time keeps the limit (`OutagesAtMostDouble`).
- After overlapping checks Redis can hold more than `max` members, and `Retry-After`, computed from the
  oldest, is then too short (`RedisRefusalEndsIff`, `RedisRetryTooShort`, `OverlapLeavesTwo`).
- Redis stores equal time stamps once, so even without overlap the Redis limiter admits what the memory
  limiter refuses on a full bucket with equal readings (`RedisDecidesLikeMemoryIff`).
- Without Redis every settlement batch is number 1; a reader's batches of one run then share one file
  exactly when the reader has more than 999 eligible rows (`OfflineFilesCollideIff`).
- A settlement file is written before its batch is committed, and a total beyond the 32-bit column
  fails only then. Without Redis such a failure leaves another batch's file replaced
  (`BrokenChunkOverwrites`); with every number from Redis no file is ever replaced
  (`RedisKeepsFilesOwn`).
- Rows charged through a correction have status CORRECTION_VERIFIED and are never settled with the bank
  (`LinkedRowsQualify`).
- The upload job ignores the answer of the transfer, so a batch whose file is missing becomes UPLOADED
  (`MissingFileCountsAsUploaded`, `UploadedWasSentIff`); and it reads the status before the transfer, so
  overlapping uploads can take an acknowledged batch back to UPLOADED (`OverlapUndoesAcknowledgement`,
  `LifeLegalIff`).
- When a handler raises, the listener keeps its buffer and dispatches the messages of that read again; a
  message whose handler keeps raising holds back those behind it (`DispatchWithFailures`).
- If the bank answers rows with equal payloads by different codes, all of them get the last one
  (`RowsGetTheirCodesIff`).

## Model

| member | source | states |
|---|---|---|
| EntryLaneProofs.EntryConservation | daemons/gate_in.py:274-421 | in every run, with lost events and commands, crashes and restarts: transactions never exceed detections; exits from WAITING_INPUT never exceed detections plus finished rejections; records never exceed exits; a detection is a transition of the handler from IDLE to WAITING_INPUT on the vehicle sensor, so a frame that is dispatched again can count again |
| EntryLaneProofs.SignalMoves | daemons/gate_in.py:274-393 | each sensor signal or card segment: the gate leaves WAITING_INPUT with an event, enters it with a detection, and no other way raises the counts |
| EntryLaneProofs.ResumeMoves | daemons/gate_in.py:395-425 | no segment after an await raises an event or puts the gate to WAITING_INPUT, except a finished rejection |
| EntryLaneProofs.CommandMoves | daemons/gate_in.py:427-489 | a command takes one rejection off the stream only if it is a rejection |
| EntryLaneProofs.DecisionKeepsCounted | api/app/services/event_consumer.py:84-234 | each decision of the server uses up its event and writes one record or none |
| EntryLaneOrder.EventDecidedOnce | api/app/services/event_consumer.py:84-234 | every press or tap yields at most one transaction or rejection, never both, and every record stems from a press or tap |
| EntryLaneOrder.DecisionKeeps | api/app/services/event_consumer.py:127-234 | a decision makes a transaction or a rejection of the event in hand, or neither, and touches nothing in transit; EntryLaneTable.CardDecision and EntryLaneTable.ButtonDecision say which |
| EntryLaneTable.CardDecision | api/app/services/event_consumer.py:178-234 | a card gets a transaction and an open command if and only if its member exists, is active, has not expired and has no unclosed transaction; otherwise one rejection is sent and recorded if sending succeeds, and nothing else changes |
| EntryLaneTable.ButtonDecision | api/app/services/event_consumer.py:99-125 | a pressed button always gets a transaction, and a ticket is to be printed before the gate opens |
| EntryLaneTable.NoDecision | api/app/services/event_consumer.py:148-154 | without a gate or a database the event is dropped without a trace |
| EntryLaneTable.EntersWaiting | daemons/gate_in.py:280-347 | input is awaited after a vehicle comes to an idle lane, or after a rejection, and in no other way |
| EntryLaneTable.EntersProcessing | daemons/gate_in.py:297-303 | a ticket is asked for if and only if the button is pressed while input is awaited and a vehicle stands on its sensor; the event raised is that button press |
| EntryLaneTable.EntersValidating | daemons/gate_in.py:320-334 | a card is put to the server if and only if input is awaited and the gate has a reader; the event carries that card |
| EntryLaneTable.EntersOpening | daemons/gate_in.py:403-408 | OPENING follows a successful open write and nothing else |
| EntryLaneTable.EntersIdle | daemons/gate_in.py:287-425 | the gate falls idle when the vehicle backs up or passes, on the reset sensor, at the end of the help pause, by a due timer in its own state, by a reset or a restart, and in no other way |
| EntryLaneTable.EntersHelping | daemons/gate_in.py:305-308 | the help pause begins with the help button while input is awaited |
| EntryLaneTable.VehicleSensor | daemons/gate_in.py:280-290 | whether a vehicle stands on its sensor is the last such signal of this life |
| EntryLaneTable.CommandStarted | daemons/gate_in.py:427-489 | where each command starts: relay, printing, rejection with its remembered timer cancelled; no command but a reset or an injected signal moves the gate |
| EntryLaneTable.FiveAttempts | daemons/gate_in.py:153-170 | an open command is given five attempts at the relay, counted anew after its ticket is printed: after four failures a success still opens, a fifth failure ends the handler |
| EntryLaneTable.HandlerAfterSignal | daemons/gate_in.py:274-393 | after a signal its handler is publishing if and only if it raised an event, pausing if and only if help was asked for, and busy if and only if the gate moved; the other tasks are where they were |
| EntryLaneTable.HistoryCounts | daemons/gate_in.py:274-425 | the counts of the conservation theorem are those of the gate's own moves, step by step |
| EntryLaneTable.TimersStartedBy | daemons/gate_in.py:391-408 | timers are started by the handlers of a published card and of an opening, for the configured time, and by nothing else |
| EntryLaneTable.TimersEndedBy | daemons/gate_in.py:395-415 | a timer ends by waking after its deadline, by the rejection it was remembered for, or with the daemon |
| EntryLaneTable.TimersRemembered | daemons/gate_in.py:382-408 | the validating timer started last is the one that a rejection cancels, and no step but the two starts and a restart changes what is remembered |
| EntryLaneOrder.CommandsPairWithOpenings | daemons/base.py:207-309 | across all daemon lives commands are handled in stream order and never twice; successful open writes belong to distinct handled open commands; openings never exceed them |
| EntryLaneOrder.OpeningNeedsWrite | daemons/gate_in.py:403-489 | the only step into OPENING is the resumption of the command consumer right after the successful write of the command in hand |
| EntryLaneOrder.RelayOrderly | daemons/gate_in.py:153-170 | an attempt of the relay loop records a success against the command in hand, once |
| EntryLaneLiveness.NeverStuckWhileCovered | daemons/gate_in.py:382-421 | unless a failing Redis call took the last cover of the present stay: OPENING has a pending timer due within the timeout of its start, or its handler is about to start it; VALIDATING has its remembered timer pending, its start ahead, or a rejection in progress |
| EntryLaneLiveness.UncoveredIff | daemons/gate_in.py:382-421 | a step leaves a covered OPENING or VALIDATING uncovered if and only if it is a failing Redis call in the handler that was its last cover |
| EntryLaneLiveness.NewStayCovered | daemons/gate_in.py:382-408 | every stay in OPENING or VALIDATING begins covered |
| EntryLaneLiveness.NoFailureNoLoss | daemons/gate_in.py:382-421 | a run without a failing Redis call loses no cover |
| EntryLaneLiveness.OpeningIsBounded | daemons/gate_in.py:403-415 | if due timers are served before time passes them, a covered OPENING whose timer is started ends within the timeout of that start |
| EntryLaneLiveness.TimerCovers | daemons/gate_in.py:395-415 | a stale timer that wakes never takes the cover from a later opening or validation |
| EntryLaneLiveness.WedgedStaysWedged | daemons/gate_in.py:274-334 | no vehicle, button, card or amount of time frees a wedged lane, only an operator or a restart |
| EntryLaneLiveness.LostTicketEventWedges | daemons/gate_in.py:375-381 | a ticket event lost on the channel leaves the lane wedged in PROCESSING although every Redis call succeeded |
| EntryLaneLiveness.RedisFailureWedges | daemons/gate_in.py:382-394 | a Redis error while a card event is published leaves the lane wedged in VALIDATING |
| EntryLaneLiveness.LeavingProcessing | daemons/gate_in.py:274-425 | a step leaves PROCESSING if and only if it takes up a reset, resumes after a successful open, a rejection or the help pause, or restarts the daemon |
| GateInDaemons.GateInDaemon.DispatchRssMessage | daemons/gate_in.py:274-393 | the handler's segment changes the fields exactly as the protocol's transition for the classified signal |
| GateInDaemons.GateInDaemon.HandleCommand | daemons/gate_in.py:427-489 | the first segment of every command changes the fields as the protocol says |
| GateInDaemons.GateInDaemon.RelayOpenReliable | daemons/gate_in.py:153-170 | the loop makes at most five attempts, stops at the first success, and its result and end state are those of the protocol's attempts |
| GateInDaemons.GateInDaemon.ResumeTask | daemons/gate_in.py:364-421 | the segments after an await: timers spawned, states entered, suspension points left |
| GateInDaemons.GateInDaemon.WakeTimer | daemons/gate_in.py:395-415 | a timer acts only after its deadline and only in the state it watches |
| Breaker.FieldsFollowHistory | daemons/gate_in.py:624-674 | the fail count is the number of failed guarded writes since the last success or reset, and the open-until time is what the history dictates |
| Breaker.WritesRespectBreaker | daemons/gate_in.py:624-674 | a guarded send of a run reaches the controller if and only if the history has left the link up and has not kept the breaker open beyond that time; only the write itself decides between success and failure |
| Breaker.ReconnectsWhenDown | daemons/gate_in.py:211-251 | a connect succeeds in a run if and only if the history has left the link down and the controller answers, and it clears the breaker if and only if its setup write succeeds too |
| Breaker.OneFailurePerConnection | protocols/compass/protocol.py:167-177 | between two failed guarded writes there is a reconnect |
| Breaker.OpensOnlyAfterFailedSetups | daemons/gate_in.py:229-251 | while every reconnect manages its setup write the breaker never opens |
| Breaker.BreakerCanOpen | daemons/gate_in.py:211-251 | two reconnects with failed setups are enough for the third failure to open it |
| Breaker.ControllerLink.SendControllerCommand | daemons/gate_in.py:624-674 | the guarded send updates fail count, open-until time and connection as the step relation says, and reports whether the write went through |
| Breaker.ControllerLink.ReconnectController | daemons/gate_in.py:217-251 | the listener's branch for a controller that is down |
| Payments.RunKeepsSound | api/app/services/payment.py:95-489 | in every reachable state: rows agree with the way they were completed, charged e-money rows and EMONEY transactions match one to one, active cards and barcodes are unique, deductions sum to fees |
| PaymentResults.CompletedOnceAndForAll | api/app/services/transaction.py:239-292 | under every interleaving a transaction is completed at most once, and its whole row never changes afterwards |
| PaymentResults.EmoneyAccounting | api/app/services/payment.py:370-434 | a transaction is completed by EMONEY if and only if a charged row belongs to it, that row is unique, fee = paid = amount, and the sums agree |
| PaymentResults.CashAndMemberRows | api/app/services/payment.py:126-251 | CASH rows have paid at least the fee, member rows have fee 0 and no paid amount, and no completed row has a pending method |
| PaymentResults.CashChange | api/app/services/payment.py:126-192 | a cash payment completes the row it found: the stored fee is the fee of the reply and the one the tariff asks for under the row's type, the stored paid amount the money handed over, the change the difference; exit time and gate are the given ones, and no other row, e-money row or entry changes |
| PaymentEffects.CashAnswer | api/app/services/payment.py:126-192 | not found, refused if and only if less than the fee is handed over, or paid with its change |
| PaymentEffects.MemberExit | api/app/services/payment.py:219-251 | a member exit completes the most recent active row of that card with fee 0 and the member's number, and changes nothing else |
| PaymentEffects.MemberAnswer | api/app/services/payment.py:219-251 | the order of the refusals; a refused exit changes nothing |
| PaymentEffects.ArmedForTicket | api/app/services/payment.py:303-313 | an armed gate's entry holds the active row with the ticket's barcode, the given gate and the fee the tariff asks of that row under its type after the override; no other row and no other gate's entry changes |
| PaymentEffects.ArmAnswer | api/app/services/payment.py:303-327 | how an arming is answered; one that aborts late has armed the gate all the same |
| PaymentEffects.TicketIsCharged | api/app/services/payment.py:303-434 | arming, result and charged settlement in a row complete the row with the ticket's barcode and no other |
| PaymentEffects.EverySettledResultWasArmed | api/app/services/payment.py:303-489 | in every run, whatever interleaves, a settled result is booked on the row of a ticket for which its own gate was armed before |
| PaymentEffects.ResultAnswer | api/app/services/payment.py:381-489 | a result is answered by whether its row is active, its card free and the deduction charged |
| PaymentEffects.ChargeStored | api/app/services/payment.py:383-434 | every field that a charged result stores: row, e-money row, entry, log |
| PaymentEffects.FailureStored | api/app/services/payment.py:436-489 | what any other result stores; only a lost contact leaves the gate armed |
| PaymentEffects.RefusedResult | api/app/services/payment.py:330-489 | only a committed section settles; any other stores nothing in the tables |
| PaymentEffects.EntryStored | api/app/services/transaction.py:26-86 | an entry is stored unpaid behind the other rows, unless an active row has its card or barcode |
| PaymentEffects.FirstCriterionDecides | api/app/services/transaction.py:111-120 | the barcode decides before the card, the card before the plate, an empty text is no criterion |
| PaymentEffects.LookupAnswers | api/app/services/transaction.py:111-131 | the lookup fails if and only if no active row matches, and returns a matching row if and only if no other one entered after it |
| PaymentResults.BarcodeSelectsOne | api/app/models/parking_transaction.py:109-125 | in every run a barcode selects at most one active row |
| PaymentLimits.ArmedFeeNotEnforced | api/app/services/payment.py:330-434 | for every charged report the reported amount becomes fee and paid amount; they are the armed fee if and only if the amounts are equal |
| PaymentLimits.PendingClearedIff | api/app/services/payment.py:370-489 | for every callback and outcome: the gate's pending entry is cleared if and only if the section was reached and the transaction is gone, or the card is free and contact was not lost; no other gate's entry changes |
| PaymentLimits.NewerArmingLostIff | api/app/services/payment.py:370-381 | a newer arming of the gate is lost under exactly that condition on the older transaction |
| PaymentLimits.LateCallbackDisarms | api/app/services/payment.py:370-381 | an input: the older transaction is gone or completed |
| PaymentLimits.TimeoutDisarms | api/app/services/payment.py:407-489 | an input: it is still active and a timeout is reported |
| PaymentLimits.RefusedCashUnchangedIff | api/app/services/payment.py:126-158 | a cash payment refused as too low leaves the tables alone if and only if no override was given or it equals the stored vehicle type |
| PaymentLimits.RefusedCashChangesType | api/app/routes/payments.py:102-119 | an input: the refused payment has changed the vehicle type |
| Payments.OpKeepsSound | api/app/services/payment.py:95-489 | every operation, with every way its database transaction ends, keeps the accounting invariant |
| PaymentServices.PaymentService.FindActiveTransaction | api/app/services/transaction.py:89-131 | the most recent active row that the first given criterion selects, or none if no row is selected |
| PaymentServices.PaymentService.ProcessCashPayment | api/app/services/payment.py:95-192 | a cash payment is the protocol's operation on the row its lookup found, the kept override included; PaymentResults.CashChange and PaymentEffects.CashAnswer say what that stores and answers |
| PaymentServices.PaymentService.ProcessRfidPayment | api/app/services/payment.py:195-270 | the member exit completes exactly the found row with fee 0 |
| PaymentServices.PaymentService.ProcessEmoneyDeduct | api/app/services/payment.py:273-327 | arming is the protocol's operation on the row its lookup found; PaymentEffects.ArmedForTicket says what that stores |
| PaymentServices.PaymentService.LockedSection | api/app/services/payment.py:376-489 | the result's locked section: row inserted, transaction completed or left, pending entry cleared or kept |
| CardPoller.PostSync | booth_bridge/api_client.py:100-124 | at most three attempts, all but the last provably never left the host, and the result is that of the last |
| CardPoller.EveryOpeningIsPaid | booth_bridge/omnikey_poller.py:294-324 | every opening is backed by its own completed member transaction of that card; no two openings share one |
| CardPoller.EveryTapHandledOnce | booth_bridge/api_client.py:41-53 | the server handles the POST of a tap at most once, with slow requests, lost answers, retries and restarts; since the poller's last start equal consecutive cards are a cooldown apart |
| CardPoller.PaidRfidIsNew | api/app/services/payment.py:224-251 | a successful member exit completes a row of that card that was still active |
| CardPoller.TapPosted | booth_bridge/omnikey_poller.py:294-306 | a card is posted if and only if no POST is under way and it is not the last posted one within three seconds |
| CardPoller.OpensIffPaid | booth_bridge/omnikey_poller.py:306-324 | the relay is fired if and only if the answer to the POST is a completed member exit, and for that row |
| CardPoller.UndisturbedTap | booth_bridge/omnikey_poller.py:294-324 | from tap to relay: without faults the relay is fired for the card if and only if it is a member's with an active row, and that row is completed at the given time and gate |
| OmnikeyPollers.OmnikeyPoller.HandleCard | booth_bridge/omnikey_poller.py:294-306 | a repeat within the cooldown is dropped and does not renew the cooldown; any other card is posted and remembered |
| OmnikeyPollers.OmnikeyPoller.OnKey | booth_bridge/omnikey_poller.py:203-292 | the event loop's treatment of a key, an idle gap or an unplugged reader |
| OmnikeyPollers.SwipesReadBack | booth_bridge/omnikey_poller.py:203-292 | any number of swipes, ended by Enter or an idle gap and with other keys between, read back as exactly the long enough numbers in order |
| OmnikeyPollers.TypedCardIsPosted | booth_bridge/omnikey_poller.py:261-306 | a typed number is posted if and only if it is long enough and no repeat within the cooldown |
| OmnikeyPollers.UnpluggedForgets | booth_bridge/omnikey_poller.py:200-258 | digits typed before the reader was pulled out are not part of a later number, and an Enter without digits is no number |
| OmnikeyPollers.TapsAreSpaced | booth_bridge/omnikey_poller.py:294-302 | over any keystrokes and clocks, equal cards posted back to back are at least the cooldown apart |
| Settlements.EveryCommitPoint | workers/background/settlement_worker.py:134-183 | in every state of any sequence of runs, aborted at any point: each batch holds exactly its chunk of 1 to 999 rows of one reader, all SUCCESS and not QR; stored count and total are those of the linked rows and of the batch's own file; batch totals sum to the linked amounts |
| Settlements.LinksAreFinal | workers/background/settlement_worker.py:173-180 | a row's batch link is set at most once and never changes |
| Settlements.LinkedRowsQualify | workers/background/settlement_worker.py:82-125 | no QR row and no row charged through a correction is ever linked |
| Settlements.LinkBooks | workers/background/settlement_worker.py:139-178 | linking a chunk adds exactly its size and total to its own batch and nothing to any other |
| Settlements.BatchStored | workers/background/settlement_worker.py:134-180 | a commit stores the next number of the reader's day, counted from 1, or 1 without Redis, the chunk's size and total under the name made of them, and links its rows, which change in nothing else |
| Settlements.NumbersIncrease | workers/background/settlement_worker.py:241-260 | numbers drawn from Redis strictly increase within a reader's day, aborted runs, files without a batch and expiring counters included |
| Settlements.FilenameEqual | workers/background/settlement_file.py:9-28 | within the field widths two names are equal if and only if the run's second, the padded MID and TID and the batch number are |
| Settlements.FilenameLayout | workers/background/settlement_file.py:9-28 | where day, time, MID, TID, version and number stand in the 47 characters of a name, and that they read back |
| Settlements.ContentRefusedIff | workers/background/settlement_file.py:52-61 | a content is refused if and only if it has more than 999 lines or a total outside ten digits |
| Settlements.FilenamesDistinct | workers/background/settlement_worker.py:137-156 | with Redis answering, no two files written for a reader share a name, committed or not |
| Settlements.OwnFileIff | workers/background/settlement_worker.py:153-180 | the file under a batch's name is the one written for it if and only if no later write, committed or not, took the name |
| Settlements.RedisKeepsFilesOwn | workers/background/settlement_worker.py:137-180 | if every number was drawn from Redis and readers have their own identities, every batch's file is its own at all times |
| Settlements.BrokenChunkOverwrites | workers/background/settlement_worker.py:153-180 | without Redis a chunk that fails to commit has already replaced the file of the chunk before it |
| Settlements.ContentReadsBack | workers/background/settlement_file.py:31-68 | a file that can be built reads back as its row count, its total and the upper-case payloads in order |
| Settlements.FileMatchesBatch | workers/background/settlement_worker.py:139-172 | the file under a batch's name, unless a later write took the name, reads back as the count and sum of the linked rows and their payloads |
| SettlementRuns.FullRunLinksFetched | workers/background/settlement_worker.py:104-180 | with deductions recorded while it works, a run that finishes has linked every row that was eligible when its reader was fetched; what is eligible afterwards was recorded since |
| SettlementRuns.FullRunLeavesNothing | workers/background/settlement_worker.py:104-180 | if nothing is recorded meanwhile it leaves no eligible row for any reader with MID and TID |
| SettlementRuns.OfflineFilesCollideIff | workers/background/settlement_worker.py:134-157 | without Redis a reader's batches of one run share a file if and only if the reader has more than 999 eligible rows |
| SettlementRuns.OneChunkIff | workers/background/settlement_worker.py:132-135 | one chunk is enough exactly for up to 999 rows |
| SettlementWorkers.SettlementWorker.GenerateSettlementFile | workers/background/settlement_worker.py:32-209 | a run is a sequence of enabled steps, deductions of others between them; it raises if and only if one of its chunks fails, and then stops there; every chunk is named by the run's day, time and terminal, and fails if and only if its disk or its commit does or its text or total cannot be stored; if the run does not raise, each reader's chunks concatenate to its ordered eligible list at the time of its query, else to the start of that list; with nothing going wrong and rows that fit it does not raise; a held lock changes nothing; the reported totals are right |
| SettlementFaults.QuietRunIsCalm | workers/background/settlement_worker.py:119-183 | with ASCII payloads and amounts from 0 to 2149633 a run in which disk and database do their part does not raise |
| SettlementFaults.EachJustified | workers/background/settlement_worker.py:119-183 | every chunk of a run, looked at in the state it found: committed, or failed for its own fault, text or total |
| SettlementWorkers.SettlementWorker.SettleReader | workers/background/settlement_worker.py:105-183 | one reader: chunks of 999 with only the last shorter, together its eligible rows in order, each committed on its own, with deductions recorded meanwhile |
| SettlementWorkers.SettlementWorker.FetchEligible | workers/background/settlement_worker.py:111-125 | exactly the reader's eligible rows, each once, in order of creation |
| SettlementWorkers.SettlementWorker.FetchReaders | workers/background/settlement_worker.py:82-95 | exactly the readers with eligible rows, each once |
| SettlementWorkers.SettlementWorker.CommitOne | workers/background/settlement_worker.py:137-180 | one chunk is committed as a whole if and only if nothing fails, its text is ASCII and its total fits field and column; otherwise its number is drawn and, if it got so far, the file or part of it is on disk |
| SettlementWorkers.SettlementWorker.WriteChunk | workers/background/settlement_worker.py:137-156 | the number drawn, the total and the file written or spoiled |
| BankResponses.ParseOkResponse | workers/background/settlement_uploader.py:49-96 | the loop yields the entries of all lines behind a header of at least five characters, short lines skipped |
| BankResponses.EchoIsRead | workers/background/settlement_uploader.py:71-96 | a response that echoes lines with two-character codes is read as exactly those lines and codes |
| BankResponses.AnyLineEnds | workers/background/settlement_uploader.py:71-96 | the same whatever line ends the file has, as it is opened in text mode |
| BankResponses.ShortLines | workers/background/settlement_uploader.py:71-85 | a header of fewer than five characters empties the response, a line too short for a code is skipped |
| BankResponses.LastEntryCounts | workers/background/settlement_uploader.py:386-403 | of several entries with a payload the last one counts; a payload that is not listed gets the missing mark |
| BankResponses.FinalStatusIff | workers/background/settlement_uploader.py:411-419 | ACKED_OK if and only if an OK file accepts every row and there is one, ACKED_NOK if and only if the file is a NOK or no row is accepted, else PARTIAL |
| BankResponses.RowsGetTheirCodesIff | workers/background/settlement_uploader.py:386-409 | every linked row gets the code of its own line if and only if rows with equal payloads were given equal codes |
| BankResponses.FileToCodes | workers/background/settlement_file.py:63-68 | from the settlement file to the rows: with distinct payloads an echoing bank's codes arrive row by row |
| BankResponses.BankSettlement.Reconcile | workers/background/settlement_uploader.py:381-421 | every row gets its code or the missing mark, and the status is ACKED_NOK, ACKED_OK or PARTIAL exactly as extension and codes dictate |
| BankResponses.BankSettlement.MarkRows | workers/background/settlement_uploader.py:386-409 | the two counters are zero exactly if no row, or every row, was accepted |
| BankResponses.LifeLegalIff | workers/background/settlement_uploader.py:287-424 | with jobs overlapping, failing and cut off in any way, all changes of status are legal if and only if no job writes its result over a status another one has set since it looked |
| BankResponses.JobsUnderWay | workers/background/settlement_uploader.py:287-318 | a job starts only in a status it is meant for, and every job ends once |
| BankResponses.StatusesMoveForward | workers/background/settlement_uploader.py:287-318 | with jobs of a batch one at a time, cut-off ones included, statuses only go from GENERATED or FAILED to UPLOADED or FAILED, and from UPLOADED to a terminal acknowledgement |
| BankResponses.AcknowledgementIsFinal | workers/background/settlement_uploader.py:348-424 | an acknowledged batch keeps its status over all later jobs, cut-off ones included |
| BankResponses.OverlapUndoesAcknowledgement | workers/background/settlement_uploader.py:287-318 | two overlapping uploads can take an acknowledged batch back to UPLOADED |
| BankResponses.UploadedWasSentIff | workers/background/settlement_uploader.py:142-199 | a batch that counts as uploaded is at the bank if and only if no upload found its file missing, or an attempt that failed or was cut off had already put it there |
| BankResponses.MissingFileCountsAsUploaded | workers/background/settlement_uploader.py:162-164 | an upload that finds no local file still makes the batch UPLOADED |
| Compass.ProcessRssBuffer | daemons/gate_in.py:259-272 | the loop dispatches exactly the frames of a byte-at-a-time reader and leaves a residue that reader cannot tell from the buffer |
| Compass.DispatchStream | daemons/gate_in.py:225-272 | however a stream is cut into reads, the dispatched messages are those of the uncut stream, when no handler raises |
| Compass.DispatchWithFailures | daemons/gate_in.py:225-272 | when handlers raise, the loop keeps its buffer: the messages dispatched for good and those still in the buffer are exactly the stream's, in order, nothing else is dispatched, once a read goes through every message so far has been dispatched for good, and after a read whose handler raised the frames up to that one were handed out again and stay in the buffer |
| Compass.ChunkingIrrelevant | daemons/gate_in.py:225-272 | two ways of cutting one stream dispatch the same messages |
| Compass.DeframeInvertsFraming | protocols/compass/protocol.py:15-24 | payloads free of the end byte, with noise free of the start byte between them, come out as exactly their frames in order |
| Compass.SensorWordsRecognised | daemons/gate_in.py:274-321 | the framed form of each of the six sensor words is taken for its own signal and no other, although the tests look for substrings |
| Compass.AcknowledgementsAreIgnored | daemons/gate_in.py:274-334 | the daemon's own acknowledgement, echoed back, triggers no handler |
| Compass.ExtractWiegand | protocols/compass/parser.py:86-120 | the loop yields the decimal of the longest hexadecimal run behind the first channel letter, or nothing |
| Compass.WiegandReads | protocols/compass/parser.py:86-120 | a number is read back whatever precedes the channel letter and follows the digits |
| Compass.BothChannelsRead | protocols/compass/parser.py:60-120 | a frame with a W and an X number, in either order, yields both decimals whatever the letter case and zero padding |
| Compass.CardFrames | daemons/gate_in.py:320-334 | a frame with a number on either channel is that card; of two numbers the one on the W channel counts, in either order |
| Compass.CardNumberRead | protocols/compass/parser.py:86-120 | a card whose number is sent in hexadecimal is known by its decimal number, for every number |
| Passti.Lrc | protocols/passti/frame.py:52-57 | the loop computes the exclusive or of all bytes |
| Passti.ParseResponse | protocols/passti/frame.py:94-148 | every rejected shape and the accepted fields, as the specification function says |
| Passti.FrameRoundTrip | protocols/passti/frame.py:108-135 | for every payload of 4 to 65535 bytes parsing a frame yields code, status and body as exactly the payload; trailing bytes are ignored |
| Passti.FrameLayout | protocols/passti/frame.py:76-91 | a frame on the wire: STX, the length high byte first, the payload, and the exclusive or of all behind the STX |
| Passti.Refusals | protocols/passti/frame.py:94-148 | every refusal if and only if the bytes say so |
| Passti.ShortPayload | protocols/passti/frame.py:131-148 | payloads of two or three bytes get a status of 0xFF bytes and no body |
| Passti.AcceptedIff | protocols/passti/frame.py:115-130 | behind a fitting length field a message is accepted if and only if length, payload and checksum XOR to zero |
| Passti.CorruptionAccepted | protocols/passti/frame.py:115-130 | a corrupted payload and checksum is accepted if and only if its byte differences XOR to zero |
| Passti.SingleByteChangeRejected | protocols/passti/frame.py:115-130 | every change of one byte of payload or checksum is rejected |
| Passti.BcdRoundTrip | protocols/passti/frame.py:60-64 | packed digits unpack to the digits, up to the zero that evens their number |
| Passti.TimeoutRoundTrip | protocols/passti/frame.py:67-74 | every timeout of 0 to 9999 is read back from its two bytes |
| Passti.AmountRoundTrip | protocols/passti/commands.py:35-44 | every four-byte amount is read back |
| Passti.WireOrder | protocols/passti/frame.py:60-74 | amounts, digits and timeouts go from the most to the least significant byte |
| Passti.CmdDeduct | protocols/passti/commands.py:35-44 | the encoder answers if and only if amount and timeout fit their fields |
| Passti.DeductCommandRoundTrip | protocols/passti/commands.py:35-44 | a deduct command's frame reads back as the clock, the amount and the timeout put in |
| Passti.PrepaidRoundTrip | protocols/passti/commands.py:93-121 | a prepaid response that follows the layout is read back field by field |
| Passti.QrRoundTrip | protocols/passti/commands.py:124-161 | a QR response that follows the layout is read back field by field |
| Passti.ShortBodies | protocols/passti/commands.py:93-161 | a body is refused if and only if it ends before its layout does; only the last field of a QR response may be cut short |
| Tariff.TransactionFeeTotal | api/app/services/transaction.py:134-236 | the fee never raises: neither a missing vehicle type nor a clock behind the entry reaches the engine's errors |
| Tariff.QuoteNeverExceedsCharge | api/app/services/transaction.py:172-236 | for non-negative rates the fee is non-decreasing in the clock, clocks behind the entry included |
| Tariff.ChargeMonotone | api/app/services/tariff.py:86-128 | a longer stay never costs less |
| Tariff.ChargeBounds | api/app/services/tariff.py:118-128 | the charge stays within days times cap unless the lost-ticket floor lifts it, and never falls below that floor |
| Tariff.GraceIsFree | api/app/services/tariff.py:93-97 | up to the last microsecond of the grace period a stay costs nothing unless the ticket is lost |
| Tariff.UncappedCharge | api/app/services/tariff.py:98-116 | from the next microsecond on an uncapped stay costs its started hours one by one, by the flat or the progressive prices, plus the surcharge for each night |
| Tariff.CappedCharge | api/app/services/tariff.py:118-121 | a cap bounds that charge by as many caps as there are started days |
| Tariff.LostCharge | api/app/services/tariff.py:95-126 | a lost ticket knows no grace period and costs at least its penalty, if there is one |
| Tariff.HoursAndDaysAreStarted | api/app/services/tariff.py:98-120 | hours and days are the started ones: enough to cover the stay, and one fewer would not be |
| Tariff.NightsMeaning | api/app/services/tariff.py:110-116 | nights are the midnights passed after the entry, or the completed days in 24h mode |
| Tariff.CapRefinesBlocks | api/app/services/tariff.py:99-121 | against 24-hour blocks capped one by one: never below, above by at most one cap, equal if and only if there is one block, or a full day costs at most the cap, or the last block reaches the cap |
| Tariff.BlockClosedForm | api/app/services/tariff.py:99-121 | the block-by-block reference in closed form |
| Tariff.CapExample | api/app/services/tariff.py:99-121 | a concrete stay for which the two readings of the cap differ |
| RateLimit.MemoryWindow | api/app/middleware/rate_limit.py:164-185 | on a clock that does not step back, at most `max` are admitted in any window |
| RateLimit.AdmittedIff | api/app/middleware/rate_limit.py:164-185 | and a request is admitted if and only if fewer than `max` were admitted in the window that ends with it |
| RateLimit.MemoryWindowAnyClock | api/app/middleware/rate_limit.py:164-185 | on any clock, at most `max` in any window and `max` more for each step back |
| RateLimit.RedisDecidesLikeMemoryIff | api/app/middleware/rate_limit.py:130-158 | checks one at a time, on a clock that does not step back: the Redis form makes the memory form's decisions, retry time and key expiry included, if and only if no request meets a full bucket with two equal readings |
| RateLimit.RedisDecidesLikeMemory | api/app/middleware/rate_limit.py:130-158 | in particular on all strictly increasing readings |
| RateLimit.EqualReadingsDiffer | api/app/middleware/rate_limit.py:154-158 | an input: three requests in one microsecond under a limit of two |
| RateLimit.KeyLifetime | api/app/middleware/rate_limit.py:153-158 | an admission renews the key to one second more than the window, a refusal does not, and after that the key may count for nothing |
| RateLimitRaces.OverlapBoundsWindow | api/app/middleware/rate_limit.py:130-185 | with checks interleaving at every command, time passing anywhere, commands failing with or without effect and keys expiring: in any window Redis admits at most `max` - 1 plus the largest numbers of checks caught between count and store, of others caught between reading and count while one trims or the key expires, and between store and deadline while it expires; the memory form at most `max` more |
| RateLimitRaces.InFlightBoundsWindow | api/app/middleware/rate_limit.py:130-185 | with at most k checks in flight, Redis admits at most `max` - 1 + 3k in any window |
| RateLimitRaces.UnexpiredBoundsWindow | api/app/middleware/rate_limit.py:130-185 | if the key does not expire while a check is between reading and count or between store and deadline: at most `max` + 2(k - 1) |
| RateLimitRaces.UnexpiredBoundIsReached | api/app/middleware/rate_limit.py:130-158 | for every limit and every k there is a run without failure or expiry that admits `max` + 2(k - 1) |
| RateLimitRaces.OverlapBoundIsReached | api/app/middleware/rate_limit.py:137-156 | for every limit and every k there is a run in which only the gap between count and store is used and `max` - 1 + k are admitted |
| RateLimitRaces.BurstExceedsTwice | api/app/middleware/rate_limit.py:137-156 | an input: five a minute, and 24 admitted in one window |
| RateLimitRaces.OutagesAtMostDouble | api/app/middleware/rate_limit.py:130-185 | with one check under way at a time, time passing and commands failing anywhere: at most `max` by Redis and twice `max` in all in any window, if the key does not expire while a check is between reading and count or between store and deadline |
| RateLimitRaces.ExpiryWhileLate | api/app/middleware/rate_limit.py:132-141 | an input for the first condition: one a minute, one check at a time, a check held up between reading and count until the key has expired, and three admitted in one window |
| RateLimitRaces.ExpiryWhileLoose | api/app/middleware/rate_limit.py:153-156 | an input for the second: an EXPIRE has failed, the key expires between a later ZADD and its EXPIRE, and Redis admits three of one window under a limit of two |
| RateLimitRaces.OverlapLeavesTwo | api/app/middleware/rate_limit.py:137-156 | an input: overlapping checks leave two members under a limit of one |
| RateLimitRaces.UndisturbedCheck | api/app/middleware/rate_limit.py:130-158 | a check whose commands follow one another decides and stores what the one-step form does |
| RateLimitRaces.FailedCommand | api/app/middleware/rate_limit.py:159-185 | a command that fails may have had its effect; the request is then decided by the memory form at the clock as it is by then |
| RateLimit.QuietClientAdmitted | api/app/middleware/rate_limit.py:164-185 | a refused client that stays quiet is admitted if and only if the oldest admission has left the window |
| RateLimit.RefusalEndsInTime | api/app/middleware/rate_limit.py:178-182 | in the memory form it is admitted no later than `retry_after` + 1 seconds on |
| RateLimit.RetryAfterSufficesIff | api/app/middleware/rate_limit.py:178-182 | waiting exactly `retry_after` is enough if and only if the time left is at most a second or a whole number of seconds |
| RateLimit.RetryAfterCanBeShort | api/app/middleware/rate_limit.py:178-182 | an input: refused again after waiting exactly that long |
| RateLimit.QuietRedisClientAdmitted | api/app/middleware/rate_limit.py:136-150 | against Redis a quiet client is admitted if and only if the member that has to leave before there is room has left the window: the oldest if `max` are stored, a later one if more are |
| RateLimit.RedisRefusalEndsIff | api/app/middleware/rate_limit.py:142-150 | waiting `retry_after` + 1 seconds is enough after a refusal by Redis if and only if that member has left by then; always if exactly `max` are stored |
| RateLimit.RedisRetryTooShort | api/app/middleware/rate_limit.py:142-150 | an input: two members under a limit of one, told to wait 30 s, refused again after 31 s |
| RateLimit.RateLimitMiddleware.CheckLimitMemory | api/app/middleware/rate_limit.py:164-185 | only the caller's bucket changes, to what one request makes of it |

## Left out

- Sockets, serial ports, HTTP, SFTP, WebSockets, printing, audio and displays: only whether they succeed.
- Logging, metrics, snapshots, receipts and the heartbeat: no influence on the claims.
- Floating point: clocks and rates are integers; `total_seconds() / 3600` and `int(...)` of a float time stamp are modelled by exact division.
- Time zones: the engine's calendar dates are UTC dates; a settlement day is a day number whose eight digits stand for the YYYYMMDD text, of which only distinctness is used, and a settlement run lasts less than a day.
- Redis losing its data, and a consumer group created anew at a different position.
- Several server-side event consumers at once; more than one daemon process for one gate.
- `parse_stat` apart from the card numbers, the display, print and setup commands of the controller, and the poller's device search with its back-off.
- Card-type names, check-balance and other PASSTI commands than deduct.
- The booth limiter (`api/app/services/rate_limit_booth.py`): the same Redis algorithm with 60 requests in 60 seconds, admitting when Redis fails.
- `_match_limit` and the client address of the middleware: keys are taken as given.
- Foreign-key and lock-timeout failures are database aborts; operators, shifts and receipts of a payment are not kept.
- Deleting old rows and timing out PENDING payments: the modelled operations write no PENDING rows.
- Overlapping settlement runs: runs are sequential, as the lock intends; SHA-256 of a file and the upload queue are not kept.
- The header's transaction count in a response file, the seven-day window of the poll and the order of polled batches.
- Pauses between attempts: attempts are counted, back-off times are not.
- EntryLaneLiveness.OpeningIsBounded: assumes that a due timer is served before time passes its deadline, which is the event loop's part.
- BankResponses.StatusesMoveForward: assumes jobs of one batch one at a time; BankResponses.OverlapUndoesAcknowledgement shows why.
- RateLimit.RedisDecidesLikeMemoryIff: takes each check as one step at its clock reading, as RateLimitRaces.UndisturbedCheck does; RateLimitRaces.OverlapBoundsWindow says what holds when checks take time and overlap.
- RateLimitRaces.OverlapBoundsWindow: each request reads a later clock than the one before it; a clock that steps back is treated for the memory form only (RateLimit.MemoryWindowAnyClock).
- RateLimitRaces.InFlightBoundsWindow: that 3k is reached with expiries in the gaps is not claimed; without them RateLimitRaces.UnexpiredBoundIsReached reaches the bound.
- Merchant and terminal identities that begin with a sign, which `zfill` would move in front of the zeros.
- Upper case of payloads outside ASCII: such a file is taken to fail at its encoding.
- CardPoller.EveryTapHandledOnce: a restarted poller has forgotten its last card, so the cooldown is claimed within one life.
