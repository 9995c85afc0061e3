# RouteCat: a verified model of the job protocol and the money ledger

RouteCat is a gateway that sells inference: a buyer's request becomes a job, the
job is sent to a provider node over a WebSocket, the node streams chunks back, and
when the stream ends the node is credited and the buyer charged. Buyers top up
with Lightning invoices; nodes are paid out over Lightning once an hourly-capped
engine finds enough on their balance.

This project models that protocol and the tables behind it, and proves what holds
in every run. Two forms are used side by side:

* **Machines on values.** `JobGate` has one event per lock section and per gap
  between lock sections of the handlers, so every interleaving of the four racing
  exits of a job is a run. `Ledger` puts that machine, the tables, the invoice
  watcher and the payout engine (`Payouts`) into one state; each database
  statement, clock reading and call to the Lightning node is a step of its own.
  An event whose goroutine is not at that point changes nothing, so theorems are
  about all event sequences.
* **Objects.** `Gateway.Hub`, `Store.DB`, `RateLimiter.WindowLimiter`,
  `PayoutEngine.Processor`, `InvoiceWatcher.Watcher` and `Api.API` have the fields of
  the source's structs and change them in place. Each method is proved against a
  function of the old state, and `HandlerRuns` and `PayoutEngine` prove that the
  functions of the gateway's handlers, the watcher's tick and the payout loop are runs
  of the machines.

| module | what it models |
|---|---|
| `Names` | the identifiers and limits all modules share |
| `Billing` | prices, fee split, the per-job caps |
| `JobGate`, `JobSlots` | the life of a job; the concurrency counter against the slots in use |
| `Gateway`, `HandlerRuns` | the gateway object and its handlers, and why they are runs |
| `MapSums`, `Tables`, `Store` | sums over tables, the statements, the store object |
| `Ledger`, `Bills`, `Unpaid` | whole runs of the system: users' money, what the rows say, which rows nobody pays |
| `ProviderLedger`, `PayoutReach`, `Books` | providers' money, which nodes can be paid, both sides of the ledger joined |
| `Payouts`, `PayoutEngine`, `PayoutOutcome`, `PayoutLimits` | the payout engine, step by step and as the loop it is; what one run pays whom; when its limits are kept |
| `InvoiceWatcher`, `InvoiceFate` | one tick of the watcher; what becomes of an invoice the user pays |
| `RateLimiter` | the sliding-window limiter the source has twice |
| `FreeTier`, `QuotaRuns`, `QuotaGaps` | the daily quota: alone, on the system with whole handlers, and with every gap of the exits |
| `Api` | registration, top-up and chat handlers |
| `Scenarios` | runs from an empty database in which two expectations fail |
| `Connections`, `Router`, `Stream`, `Delivery` | live connections, node choice, chunk delivery, and the stream beside the gateway |

Assumptions the source makes and the model keeps: job ids are fresh (an id once
used is never assigned again), the clock readings of the payout engine do not run
backwards (a tick with an earlier reading changes nothing), nor do those of the
limiter (`RateLimiter.ClocksOk`; `RateLimiter.BackwardsClockBreaksBound` is a history
that shows the window bound needs it), there is one payout goroutine and one invoice
goroutine, and the store has one connection, so statements are serial.

What turned out not to hold, each with a run that shows it and the exact condition
under which it does hold:

* At most three slots per user: broken by `JobSlots.OverrunHoldsFour`; no user can be
  brought above three if and only if the run has no phantom release
  (`JobSlots.LimitIffNoPhantom`).
* Users paying for every recorded job: broken by `Scenarios.UnpaidRun`; it holds if and
  only if no step of the run records an expired job that costs something or passes the
  charge of one because it is free, the database fails or the balance is too low
  (`Unpaid.UsersPaidForAllIff`).
* The daily free quota: exceeded by two in `FreeTier.QuotaPlusTwoReached` and without
  bound in `FreeTier.OverrunWithoutAtomicity`; it is kept if and only if no free job is
  let in while recorded and running ones fill it (`QuotaGaps.LimitKeptIff` in every run
  of the system, `FreeTier.QuotaKeptIff` in every run of the quota machine).  How far
  exits taken step by step stretch the overrun is `QuotaGaps.GapBound`.
* The buyer getting the whole stream: broken by `Stream.UnreadChunk`; it holds if
  and only if no handler meets a full buffer, no chunk comes after the job has left, and
  all is drained (`Stream.WholeStreamIff`).
* A node being paid whatever it is owed: broken by `Scenarios.NeverPaidRun`; it
  can still be paid if and only if its whole sats are within the hourly cap
  (`PayoutReach.PaidLaterIffWithinCap`).
* The hourly cap as a cap on any hour: broken by `Payouts.TwoCapsInOneSecond`; it holds,
  and will whenever the running call comes back, if and only if the engine never decides
  on a payment that exceeds the cap with those of the last hour
  (`PayoutLimits.HourSafeIff`).  A window without a reset inside always keeps the cap
  (`Payouts.ResetFreeBound`), any hour twice the cap (`Payouts.RollingHourBound`).
* One payment per debt: broken by `Payouts.LostRecordPaysTwice`; a node was sent what is
  recorded if and only if no record of a payment to it was lost
  (`PayoutLimits.SentOnceIff`).
* A paid invoice being credited: broken by `InvoiceFate.LatePaymentIsLost`; it holds if
  and only if a working check finds it paid before a working expiry step finds it older
  than ten minutes (`InvoiceFate.CreditedIffSeenInTime`).
* A provider share that never falls as the total grows: broken by
  `Billing.FractionalShareDrops`; it holds if and only if 2000 times the fee is a whole
  number (`Billing.ShareMonotoneIff`).

The comment on `DoneCh` (internal/gateway/gateway.go:57) names only proxy_done as the
closer; the code, which the model follows, closes it on rejection and expiry too.

## Model

| member | source | states |
|---|---|---|
| JobGate.ReachableInv | internal/gateway/gateway.go:107-154 | In every interleaving: a job is in pendingJobs exactly while it is inserted and no exit has taken it, only a winner other than the Send error closes its DoneCh, and every slot counter is between 1 and 3 |
| JobGate.StepKeepsInv | internal/gateway/gateway.go:655-699 | Any single lock section of any handler keeps that invariant |
| JobGate.StepExits | internal/gateway/gateway.go:418-475 | One step changes "has left" and "is closed" exactly by the removal and the close it performs, and never changes who won |
| JobGate.ExactlyOneExit | internal/gateway/gateway.go:107-154 | Over every run, the count of removals and the count of closes of a job are 0 or 1 and equal what its record says; no close when the Send error won |
| JobGate.NoDoubleClose | internal/gateway/gateway.go:418-472 | Every close in every run finds the channel open, so none panics |
| JobGate.BuyerNotStranded | internal/gateway/gateway.go:456-472 | A buyer holding the channels has a pending job, a closed DoneCh, or a goroutine about to close it |
| JobGate.BilledUsageIsOwners | internal/gateway/gateway.go:433-449 | The usage a job is billed on came in a chunk of the assigned node for that job, or is nothing |
| JobGate.DoneIsOwners | internal/gateway/gateway.go:457-464 | A job that proxy_done won was reported done by the node it is assigned to |
| JobSlots.HeldBound | internal/gateway/gateway.go:632-651 | In every run counter <= slots held <= counter + phantom releases, and counter <= 3 |
| JobSlots.ExactIffNoPhantom | internal/gateway/gateway.go:690-694 | The counter equals the slots held at every point of a run if and only if the Send-failure path never gives back a slot another exit gave back |
| JobSlots.LimitIffNoPhantom | internal/gateway/gateway.go:632-640 | At every point of a run and after any further requests of the key, at most 3 slots are held, if and only if the run has no phantom release for the key |
| JobSlots.PendingSendErrorsAreExact | internal/gateway/gateway.go:685-696 | If each job whose Send fails is still pending when the error is handled, the counter is exact and no user holds more than 3 slots |
| JobSlots.LateSendError | internal/gateway/gateway.go:690-694 | Handling a Send error after another exit leaves the job as it was and still takes one off the user's counter |
| JobSlots.OverrunHoldsFour | internal/gateway/gateway.go:690-694 | The run that breaks the limit: four slots held while the counter says three |
| Gateway.Hub.IncrUserJobs | internal/gateway/gateway.go:632-640 | Counts the key up unless it has 3 already, says which, and leaves every other key alone |
| Gateway.Hub.DecrUserJobs | internal/gateway/gateway.go:642-651 | Counts the key down, never below zero, and drops a zero entry |
| Gateway.Hub.AssignJob | internal/gateway/gateway.go:655-699 | Which of the four results is returned and the whole new state on every path; a returned job is pending with an empty open channel, and the channels of all other jobs are as they were |
| Gateway.Hub.HandleReject | internal/gateway/gateway.go:418-430 | A pending job of any owner is closed, removed and its slot freed, and no waiting chunk is touched; anything else changes nothing |
| Gateway.Hub.HandleProxyChunk | internal/gateway/gateway.go:433-454 | Only the assigned node's chunks count; usage replaces LastChunk, data is appended to that job's channel unless 64 chunks wait |
| Gateway.Hub.HandleProxyDone | internal/gateway/gateway.go:457-510 | The whole effect on maps, record and tables, with every chunk still waiting in its channel: only the assigned node ends the job, which is closed and freed, recorded, and charged exactly when recorded, not free, costing something and covered |
| Gateway.DoneEffect | internal/gateway/gateway.go:457-510 | The same in plain terms: which map entry goes, whose counter falls by one, which row appears with which bill, and whose balance falls by how much and when |
| Gateway.Hub.RecordAndCharge | internal/gateway/gateway.go:477-510 | The row written is the bill of the clamped usage, and the deduction is the row's provider part plus fee |
| Gateway.Hub.Sweep | internal/gateway/gateway.go:110-121 | The locked half of a pass takes out exactly the jobs started before the cutoff, each once, closes them and leaves all channels as they were |
| Gateway.Hub.CleanupPass | internal/gateway/gateway.go:110-152 | A pass is the sweep followed by compensating exactly the swept jobs; no channel loses a chunk |
| Gateway.Hub.CleanupTick | internal/gateway/gateway.go:107-121 | A tick sweeps with a cutoff ten minutes back: what stays pending is exactly what was pending and started no earlier |
| Gateway.CompensatedCounts | internal/gateway/gateway.go:124-125 | Each user's counter falls by the number of that user's expired jobs, stopping at zero |
| Gateway.CompensatedRows | internal/gateway/gateway.go:126-146 | What each added row says: the expired job and its bill |
| Gateway.AssignRun | internal/gateway/gateway.go:655-699 | The outcome of AssignJob is where its lock sections lead when nothing comes between |
| Gateway.AssignOutcomeInv | internal/gateway/gateway.go:655-699 | That outcome keeps the protocol invariant |
| Gateway.RejectRun | internal/gateway/gateway.go:418-430 | The same for a rejection, with the invariant kept |
| Gateway.DoneRun | internal/gateway/gateway.go:457-510 | The same for proxy_done, with the invariant kept |
| Gateway.ChunkRun | internal/gateway/gateway.go:433-449 | The same for a usage chunk, with the invariant kept |
| HandlerRuns.AssignIsRun | internal/gateway/gateway.go:655-699 | After any history of the system, AssignJob's outcome is the history followed by its steps |
| HandlerRuns.RejectIsRun | internal/gateway/gateway.go:418-430 | The same for handleReject |
| HandlerRuns.DoneIsRun | internal/gateway/gateway.go:457-510 | The same for handleProxyDone, its row and its deduction |
| HandlerRuns.CleanupIsRun | internal/gateway/gateway.go:110-152 | The same for a whole cleanup pass over any number of jobs |
| HandlerRuns.CleanupFreesOwners | internal/gateway/gateway.go:113-125 | In a run without phantom releases a pass lowers each user's counter by exactly that user's expired jobs |
| HandlerRuns.CleanupSplits | internal/gateway/gateway.go:110-152 | A whole pass splits pendingJobs exactly at the cutoff: later jobs untouched, earlier ones closed and settled, rows for exactly those with tokens and a working INSERT, no account or charge changed |
| HandlerRuns.TickIsRun | internal/lightning/invoices.go:32-60 | After any history, a watcher tick is the expiry step and one check per answered invoice: tables and the set of invoices known paid end as the tick leaves them, credited or not |
| HandlerRuns.TurnsAreRun | internal/lightning/payout.go:46-107 | Every sequence of payout steps is a run of the system |
| HandlerRuns.ServingIsRun | internal/lightning/payout.go:62-107 | So is the payout loop over all listed nodes, each payment taking its own time, and it ends idle |
| HandlerRuns.PayoutRunIsRun | internal/lightning/payout.go:46-107 | So is all of processPayouts: clock readings, query with its rows in any order, loop |
| Ledger.GateRunInside | internal/gateway/gateway.go:107-154 | Every run of the system contains a run of the gateway, so its theorems hold here |
| Ledger.ReachableMoney | internal/store/sqlite.go:240-308 | In every reachable state the invariants on rows, charges, balances and invoices hold |
| Ledger.UserMoneyConserved | internal/store/sqlite.go:253-308 | Sum of balances = credited invoices - deductions; no balance is negative; only invoices reported paid are credited; deductions match distinct recorded non-free jobs won by proxy_done, each for earned + fee |
| Ledger.RecordedCostSplit | internal/gateway/gateway.go:503-510 | Total cost of recorded jobs = deductions + cost of uncharged jobs; free and expired jobs are always uncharged |
| Unpaid.CoveredIffNoneUnpaid | internal/gateway/gateway.go:503-510 | In every run each recorded job of positive cost is charged or about to be, if and only if no step recorded such an expired job or passed such a charge: free job, database error, or balance too low |
| Unpaid.UsersPaidForAllIff | internal/gateway/gateway.go:123-146 | With no charge outstanding, deductions equal the cost of all recorded jobs if and only if there was no such step |
| Scenarios.UnpaidRun | internal/gateway/gateway.go:503-510 | A request that passes the gate, and whose job of 100 sats is recorded for its node and charged to nobody: free, or paid by a user with ten sats, which stay |
| Scenarios.UnpaidRunHasSuchStep | internal/gateway/gateway.go:503-510 | Some step of that run is one of those the condition names |
| Books.BooksBalance | internal/store/sqlite.go:200-308 | In every run credited invoices + cost of uncharged jobs = user balances + all node balances + recorded payouts + fees |
| Books.EachKeyBalances | internal/store/sqlite.go:253-308 | In every run the balance of each key is the sum of its own credited invoices less its own charges |
| Ledger.NoKeyConflict | internal/store/sqlite.go:182-197 | Neither recording path ever inserts a job id that is already there |
| Bills.RowsAreBills | internal/gateway/gateway.go:477-498 | In every run each recorded row is the bill, at some BTC price, of counts the assigned node reported for that job, or of none |
| Bills.ProviderGetsNineteenTwentieths | internal/billing/billing.go:56-59 | At 5%, every recorded job of every run pays its provider at least 95% of its cost and costs at most 200 sats |
| Bills.ChargedJobsWereDone | internal/gateway/gateway.go:457-510 | No user is charged without a proxy_done of the job's own node |
| Ledger.InvoiceStep | internal/store/sqlite.go:284-335 | One step changes an invoice only from pending, to credited by a paid report or to expired by age; key and amount never change |
| Ledger.CreditedAtMostOnce | internal/store/sqlite.go:282-308 | In every run an invoice is credited once if its status ends credited and never otherwise |
| Ledger.SettledInvoiceStays | internal/store/sqlite.go:298-300 | Once credited or expired it stays as it is |
| ProviderLedger.ReachableProviders | internal/lightning/payout.go:46-107 | In every reachable state: budget, thresholds, the queue and the running call are consistent with the tables, and payouts <= earnings per node |
| ProviderLedger.ProviderSafety | internal/lightning/payout.go:62-103 | Recorded payouts of a node never exceed its earnings although jobs are recorded in between; each is whole sats and at least 100; what was sent is what is recorded plus what the database failed to record |
| ProviderLedger.SpendingCap | internal/lightning/payout.go:46-54 | In every run at most maxPerHour is paid between resets and in any window without a reset inside, and at most twice that in any hour |
| ProviderLedger.RecheckNeverDrops | internal/lightning/payout.go:63-78 | The Go recheck agrees with the SQL filter in every reachable state: only the hourly cap can skip a listed node |
| ProviderLedger.BalanceMoves | internal/store/sqlite.go:200-211 | No step but a recorded payout lowers a node's balance, and that one by exactly its amount |
| ProviderLedger.ShutOutForever | internal/lightning/payout.go:73-78 | A node owed more whole sats than the cap is never paid again in any continuation |
| PayoutReach.PaidLaterIffWithinCap | internal/lightning/payout.go:68-103 | From an idle engine, some continuation of the system pays a payable node if and only if its whole sats are within the cap |
| Scenarios.NeverPaidRun | internal/lightning/payout.go:73-78 | A run to an idle engine and a node due 190 sats under a cap of 150, which no continuation pays |
| ProviderLedger.PaymentAmongOthers | internal/lightning/payout.go:63-103 | One payment with arbitrary other events in both gaps leaves the old balance mod 1000 plus what was earned meanwhile |
| Payouts.StepKeepsBudget | internal/lightning/payout.go:46-54 | Every step keeps the counter equal to what was paid since the reset and within the cap |
| Payouts.NeighbouringEpochs | internal/lightning/payout.go:49-52 | Payments at most an hour apart lie at most one reset apart |
| Payouts.RollingHourBound | internal/lightning/payout.go:73-78 | No hour, wherever it starts, sees more than twice the cap |
| Payouts.ResetFreeBound | internal/lightning/payout.go:49-53 | A window of any length without a reset inside sees at most the cap |
| Payouts.TwoCapsInOneSecond | internal/lightning/payout.go:49-52 | That bound is reached: two full caps within one second |
| Payouts.FirstListedIsPaid | internal/lightning/payout.go:62-103 | With nothing spent, the first listed node within the cap is paid all its whole sats and keeps its balance mod 1000 |
| Payouts.LostRecordPaysTwice | internal/lightning/payout.go:95-99 | A payment whose record fails is sent again and recorded once |
| PayoutLimits.HourSafeIff | internal/lightning/payout.go:68-85 | At every point of a run each hour is within the cap, and stays so whenever the running call comes back, if and only if the engine never decides on a payment that exceeds the cap with those of the last hour |
| PayoutLimits.CallKeepsHourIff | internal/lightning/payout.go:73-85 | A call keeps every hour within the cap whenever it comes back if and only if it passes that check when it is made |
| PayoutLimits.SentOnceIff | internal/lightning/payout.go:95-103 | With the engine idle, what a node was sent is what is recorded if and only if no record of a payment to it was lost |
| PayoutEngine.Processor.ProcessPayouts | internal/lightning/payout.go:46-107 | The loop's counters and tables are what the machine's steps yield for all listed nodes in order, whatever time each payment takes; who is sent and recorded what is `PayoutOutcome` |
| PayoutEngine.Processor.PayOne | internal/lightning/payout.go:62-103 | One iteration, with all its early exits, is one serving of the queue's head |
| PayoutEngine.ServeIsRun | internal/lightning/payout.go:62-107 | Serving the whole queue is a run of the step machine |
| PayoutEngine.ServeEndsIdle | internal/lightning/payout.go:62-107 | and ends with the engine idle |
| PayoutOutcome.RunIsLoop | internal/lightning/payout.go:46-62 | A run is that loop over the listed nodes, with the counter kept from before or zero once more than 3,600 seconds have passed since the last reset |
| PayoutOutcome.ListedOutcome | internal/lightning/payout.go:62-107 | A listed node is sent its whole sats exactly when its balance is read, they reach its threshold and fit under the cap with what is spent by then, it has an address and the payment is confirmed; its payouts grow by just that when the record works too, else by nothing; the counter grows by what was sent |
| PayoutOutcome.UnlistedOutcome | internal/lightning/payout.go:62-107 | Nothing is sent to or recorded for a node that is not listed |
| PayoutOutcome.EachServed | internal/lightning/payout.go:62-103 | Each node is served with what the ones before it left of the counter, and serving it changes nobody else |
| PayoutOutcome.SpentEnds | internal/lightning/payout.go:62-107 | The counter the run ends with is the one kept for the next run |
| Store.DB.RecordJob | internal/store/sqlite.go:182-197 | Inserts the row unless the id exists or the database fails; nothing else changes |
| Store.DB.DeductBalance | internal/store/sqlite.go:255-273 | Deducts exactly when the key exists and the balance covers the amount |
| Store.DB.CreateUserKey | internal/store/sqlite.go:240-244 | A new key starts with balance zero; an existing one is refused |
| Store.DB.CreateInvoice | internal/store/sqlite.go:276-280 | Stores a pending invoice of the key and amount, created now, unless the payment hash exists; all other rows stay |
| Store.DB.CreditInvoice | internal/store/sqlite.go:284-308 | Status and balance move together, exactly when the invoice is pending |
| Store.DB.ExpireOldInvoices | internal/store/sqlite.go:329-335 | Expires exactly the pending invoices older than ten minutes and counts them |
| Store.DB.PendingInvoices | internal/store/sqlite.go:311-326 | Lists exactly the pending invoices, each once |
| Store.DB.NodeBalance | internal/store/sqlite.go:200-211 | Earnings of the node's rows less its payouts |
| Store.DB.PendingPayouts | internal/store/sqlite.go:419-442 | Lists exactly the nodes with an address and a balance of at least the threshold, each once |
| Store.DB.ValidateUserKey | internal/store/sqlite.go:227-237 | Existence of the key, and quota less the number of its rows started that day |
| Tables.CreditMoves | internal/store/sqlite.go:284-308 | Crediting moves one amount into both sums, and a second call moves nothing |
| MapSums.TotalRemove | internal/store/sqlite.go:202-206 | A table's sum does not depend on the order of its rows |
| InvoiceWatcher.Watcher.Tick | internal/lightning/invoices.go:23-62 | One tick lists exactly the invoices pending after the expiry step and credits, in order, those reported paid whose transaction works |
| InvoiceWatcher.TickOutcome | internal/lightning/invoices.go:32-60 | Without errors: the new status of every invoice; too old expires even if paid |
| InvoiceFate.CreditedIffSeenInTime | internal/store/sqlite.go:284-335 | A pending invoice ends credited, in any continuation, if and only if a working check finds it paid before a working expiry step finds it older than ten minutes |
| InvoiceFate.LatePaymentIsLost | internal/lightning/lightning.go:158-159 | Whatever pending invoice is paid in its last second, with the tick after it, is never credited |
| InvoiceFate.TopUpStores | internal/api/api.go:162-208 | A top-up stores its key, 1000 times its sats and its time, exactly when the key exists, 10 <= sats <= 100,000 and the hash is new |
| InvoiceFate.PendingTenMinutes | internal/store/sqlite.go:329-335 | An invoice nobody credits is unchanged after any steps whose working expiry readings are at most ten minutes after its creation |
| InvoiceFate.CheckPays | internal/store/sqlite.go:284-308 | A working check that finds a pending invoice paid adds its amount to the balance of its own key and no other |
| InvoiceFate.TopUpReachesBalance | internal/lightning/invoices.go:32-60 | For every allowed amount: top-up, anything else for ten minutes, then a working check, adds exactly that amount to that key |
| InvoiceWatcher.CreditedAre | internal/lightning/invoices.go:42-55 | The credited invoices are exactly the listed ones reported paid whose transaction works, each once |
| InvoiceWatcher.CreditAllInvoices | internal/lightning/invoices.go:42-60 | Crediting a list changes exactly the pending invoices on it |
| InvoiceWatcher.CreditAllMoney | internal/lightning/invoices.go:42-60 | Users together gain exactly the amounts of the invoices credited |
| RateLimiter.AllowCountsWholeHistory | internal/gateway/middleware.go:34-57 | After any calls and cleanups, Allow lets a request through exactly when fewer than limit of all requests of that IP it ever let through are newer than now - window |
| RateLimiter.GrantedIsAccepted | internal/gateway/middleware.go:34-76 | What the limiter lets through, cleanups included, is what counting the whole history would let through |
| RateLimiter.WindowBound | internal/api/api.go:35-51 | No window holds more than limit requests of an IP that the limiter let through, with one clock reading per call or two |
| RateLimiter.LetThroughIff | internal/gateway/middleware.go:34-57 | A request is let through if and only if fewer than limit requests of its IP were let through in the window that ends now |
| RateLimiter.BackwardsClockBreaksBound | internal/gateway/middleware.go:59-76 | A history with a backwards clock where two requests get into a window of limit one |
| RateLimiter.CleanupInvisible | internal/gateway/middleware.go:59-76 | Removing every cleanup from a history changes no later decision |
| RateLimiter.StoredIsRecentHistory | internal/gateway/middleware.go:41-55 | Stored and whole history agree from every cutoff no older than those applied |
| RateLimiter.FilterInPlace | internal/gateway/middleware.go:42-48 | Filtering over the shared backing array yields exactly the stable filter of the old contents |
| RateLimiter.AdmitInto | internal/api/api.go:35-51 | Filter, decision and append on one slice |
| RateLimiter.WindowLimiter.Allow | internal/gateway/middleware.go:34-57 | The decision and the whole new map, whichever slices share or move their arrays |
| RateLimiter.WindowLimiter.Cleanup | internal/api/api.go:131-152 | Every slice filtered, exactly the empty ones deleted |
| Billing.CapTokens | internal/gateway/gateway.go:525-544 | The result is the pair of clamped counts for every reported pair; the joint rescale never fires |
| Billing.CapSplit | internal/gateway/gateway.go:547-555 | For every split: parts sum to min(total, cap), neither grows, each is within one msat of proportional, capping is idempotent |
| Billing.ScaleIsDivision | internal/gateway/gateway.go:550-551 | Scaling by the ratio and truncating is integer division |
| Billing.BillClosedForm | internal/billing/billing.go:43-60 | At 5%, for a total T: cost = min(T, 200000), provider = min(ceil(19T/20), 190000), never under 95% of the cost |
| Billing.CostFromPrices | internal/billing/billing.go:43-60 | For every fee, the cost from prices and counts alone: min((in * a + out * b) / (10 * p), 200000), each count cut to 0..100,000, a and b the micro-USD prices per million tokens of the model or the fallback |
| Billing.NoPriceNoBill | internal/billing/billing.go:43-47 | Without a positive bitcoin price nothing is billed |
| Billing.OneSidedBills | internal/billing/billing.go:49-59 | Prompt tokens alone cost the prompt price and completion tokens alone the completion price, listed and unlisted |
| Billing.BillMonotone | internal/billing/billing.go:43-60 | At 5% cost and provider's part grow with each reported token count |
| Billing.BillBounds | internal/gateway/gateway.go:477-482 | For every fee in 0..100% a bill is a non-negative split of at most the cap |
| Billing.ShareMonotoneIff | internal/gateway/gateway.go:547-555 | The provider's share never falls as the total grows if and only if 2000 * fee is a whole number |
| Billing.FractionalShareDrops | internal/gateway/gateway.go:547-555 | For every other fee, a total above the cap that pays the provider less than the cap itself |
| Billing.CapNeverBindsAbove12000 | internal/billing/billing.go:79-125 | With the default table the cap on earnings never binds at or above 12,000 USD per bitcoin |
| FreeTier.AtomicOverrun | internal/api/api.go:261-280 | With check and AssignJob as one step, free jobs of a key and day, recorded or in flight, never exceed quota + 2 |
| FreeTier.QuotaPlusTwoReached | internal/api/api.go:261-280 | For every key with a quota, a run of atomic steps that reaches quota + 2 |
| FreeTier.QuotaKeptIff | internal/api/api.go:266-280 | In every run of the quota machine, atomic or not, free jobs stay within the quota throughout if and only if none is let in while recorded and running ones already fill it |
| QuotaGaps.LimitKeptIff | internal/gateway/gateway.go:669-683 | The same in every run of the system, for any limit: the free jobs of a key and day, recorded or in flight, against the inserts of free jobs |
| QuotaGaps.StepFreeIds | internal/gateway/gateway.go:456-510 | One step of the system adds the free job it inserts to those recorded or in flight, and no other |
| QuotaGaps.GapBound | internal/gateway/gateway.go:474-498 | With atomic admissions and exits step by step, free jobs never exceed quota + 2 + the most free jobs that were between slot and row at an admission |
| QuotaGaps.GapAtTheEndIsNotEnough | internal/gateway/gateway.go:474-498 | A run with quota one, four free jobs, and none left between slot and row |
| QuotaRuns.QuotaBoundHolds | internal/api/api.go:261-317 | In every run of the system made of whole handlers, free jobs of a key and day never exceed quota + 2, and the key's counter is the number of its jobs in flight |
| QuotaRuns.HandlersAreRun | internal/gateway/gateway.go:107-154 | Every such sequence of handlers is a run of the ledger machine |
| QuotaRuns.ChatIsAdmit | internal/api/api.go:261-317 | A chat request that starts a job is an admission of the quota machine |
| QuotaRuns.DoneEnds | internal/gateway/gateway.go:457-498 | A whole proxy_done is an exit of the quota machine, with a row exactly when the INSERT works |
| QuotaRuns.RejectEnds | internal/gateway/gateway.go:418-430 | A whole rejection is an exit without a row |
| QuotaRuns.CleanedFreeJobs | internal/gateway/gateway.go:110-146 | A whole cleanup pass adds no free job to any key and day |
| FreeTier.OverrunWithoutAtomicity | internal/api/api.go:261-317 | With other requests between check and AssignJob, a quota of one serves any number of free jobs |
| Api.FreeIsFree | internal/api/api.go:266-269 | The quota check on the tables is the one FreeTier reasons about |
| Api.JobTakesOneUnit | internal/store/sqlite.go:227-237 | A recorded job takes one unit of its own key from the day it started on, and leaves every other key and day whole |
| Api.NewDayIsWhole | internal/store/sqlite.go:227-237 | With jobs of earlier days only, the whole quota is left |
| Api.ThreeKeysAnHour | internal/api/api.go:35-76 | However calls, later failures and cleanups follow one another, no hour sees more than three keys created from one IP |
| Api.RegistrationLetThroughIff | internal/api/api.go:35-56 | A registration passes the limiter if and only if fewer than three of its IP passed in the last hour |
| Api.API.HandleRegisterUser | internal/api/api.go:35-76 | Limiter, then request, then key: the guard of each of the four answers, the whole limiter after, and a new account with balance 0 and a quota of 10 exactly when one is created |
| Api.API.HandleTopUp | internal/api/api.go:162-208 | The guard of each answer; an invoice of the key, 1000 times the sats, pending since now, is stored exactly when all checks pass, as the ledger machine's TopUp step |
| Api.API.Admit | internal/api/api.go:261-280 | Which of the five answers the gate gives; it lets through exactly what FreeTier lets through |
| Api.API.HandleChat | internal/api/api.go:246-325 | A refused request touches nothing; an empty model is the only ModelMissing, no live node listing the model the only NoNode; otherwise AssignJob runs once for the best node, free exactly when the quota admitted it, and a streaming reply is for the job now in pendingJobs |
| Connections.NewestConnectionWins | internal/gateway/gateway.go:265-288 | The map holds a connection if and only if it is the node's latest and has not been cleaned up |
| Gateway.Hub.Register | internal/gateway/gateway.go:266-269 | The gateway's own map takes the connection as the machine does, and reports the one replaced |
| Gateway.Hub.Unregister | internal/gateway/gateway.go:284-288 | The gateway's own map drops the entry only if it is the caller's |
| Router.RouteRequest | internal/router/router.go:47-70 | No node exactly when none lists the model; otherwise the unique best choice: the first of the least loaded ones that do |
| Router.AvailableModels | internal/router/router.go:73-92 | Every model of every node exactly once, in order of first appearance |
| Stream.ReceivedInOrder | internal/gateway/gateway.go:433-454 | A buyer receives nothing another node sent, and per connection an in-order selection of the chunk messages of the assigned node |
| Stream.WholeStreamIff | internal/api/api.go:335-350 | The buyer gets every chunk message of the assigned node if and only if no handler meets a full buffer, no chunk comes after the job has left, and at the end no handler holds one and the buffer is drained |
| Stream.UnreadChunk | internal/api/api.go:335-350 | A run in which no chunk is lost and the buyer, whose loop ends on DoneCh, never gets the one that was sent |
| Delivery.StreamRunInside | internal/gateway/gateway.go:433-454 | Beside every gateway run, the stream makes one of its own runs |
| Delivery.StreamFollowsGate | internal/gateway/gateway.go:418-475 | Chunks are forwarded exactly while the job is in pendingJobs, and the buyer's loop has ended only if the buyer left or DoneCh is closed |
| Delivery.PushIsChunkAndDeliver | internal/gateway/gateway.go:450-453 | What the chunk handler does to ResponseCh is the stream's message and delivery |
| Stream.NothingLostIff | internal/gateway/gateway.go:433-454 | No chunk is lost if and only if no handler finds 64 chunks waiting and no chunk of the owner comes after some exit |
| Stream.SerialSends | internal/gateway/gateway.go:296-328 | With each connection read one message at a time, every message of the owner enters the stream |
| Stream.BufferBound | internal/gateway/gateway.go:675 | The channel never holds more than 64 chunks |

## Left out

- HTTP and WebSocket plumbing, JSON, headers, logging and its string slices: a request is its decoded fields.
- parseUsage: the JSON search in a chunk; a chunk carries the pair of counts it would find, or none.
- The Lightning client, LNURL and the price tracker: payment results, invoice reports and the BTC price are arbitrary parameters.
- float64 rounding and int64 overflow: amounts are exact integers and prices exact reals; `int64(x)` is truncation.
- Errors of the store: a flag per statement says whether it works; read errors of ValidateUserKey and UserBalance are not separate answers.
- The gross amount in USD that Calculate also returns, GetPricing and AllPricing, the job_complete message and its EarnedUSD.
- Columns no property depends on: node hardware, models and API key in the node table, completion times; the unique API key of a node; status columns that are only ever written with one value.
- NodeBalance reads its two sums at one instant; only the payout goroutine writes payouts, so the instant of the first query is the one that counts.
- Go's map iteration order is any order; the loops over maps here pick any element too.
- Gateway.Hub.HandleProxyDone: runs to its end without interruption, as do the other handlers of the object; interleavings are the subject of `JobGate` and `Ledger`. A recording step reads LastChunk and writes the row at once.
- Gateway.Hub.HandleProxyChunk: its write to LastChunk follows its lookup at once; late writes are events of `JobGate`.
- QuotaRuns.QuotaBoundHolds: each handler runs to its end without interruption; with exits step by step the bound is `QuotaGaps.GapBound`, and with requests checked and started apart there is none, only `QuotaGaps.LimitKeptIff`.
- Api.API.HandleChat: ends where streaming starts; the select loop is the events `Receive` and `BuyerLeaves` of `Stream`.
- RegisterNode's checks of key and address format; HandleJobProxy, heartbeats, accepts and pings, which write nothing modelled here.
- Karma, statistics, audit log, balance display, SecurityMiddleware's path list, static files and deployment.
