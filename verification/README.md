# AIEN verification model

AIEN is a money-transfer pipeline. An intent is accepted by the intent service,
carried to the scheduler by an outbox worker, executed by the execution engine
(which calls the wallet), and recorded by the validator in a hash-chained ledger.
Queues deliver at least once, processes crash between any two statements, and
several replicas of every service run at the same time. This project models that
behaviour in Dafny and proves what holds over all its runs.

`dafny verify dfyconfig.toml` checks everything.

## How the model is laid out

- **Wallet.** `WalletBooks` says what one operation does to balances and audit log.
  `WalletMachine` is the store as interleaved transactions at READ COMMITTED, one SQL
  statement a step, with uncommitted row versions, row locks and uncommitted entries
  of the unique index. `WalletSerial` proves it serializable, `WalletRefusal` when a
  caller is told what, `WalletDeadlock` that it cannot deadlock, and `WalletStore` is
  the store's methods as sequential programs, proved against the same specification.
- **Intent protocol.** `Protocol` is a state machine over the tables, the queues and
  the processes of all services, one statement a step, with the wallet machine inside.
  `ProtocolDelivery`, `ProtocolWork`, `ProtocolMoney` and `ProtocolStatus` prove its
  invariants over runs, `ProtocolRepeats` what stays true for repeated messages,
  `ProtocolLedger` when the ledger's entries stay true, `ProtocolAtomic` what a scheduler
  that reads and writes in one step gains;
  `ProtocolWitness` has concrete runs in which order or work is lost.
- **Handlers.** `IntentService`, `OutboxService`, `SchedulerService`, `EngineService`
  and `ValidatorService` are the handlers as imperative programs, with the faults their
  statements can meet. Each is proved to do what its decision table says and to be a
  run of `Protocol`; the validator appends to the ledger engine's file. In
  `ServiceGuarantees` a deployment calls all of them in any order, and the protocol's
  results hold of it.
- **Ledger.** `LedgerFormat` (hash pre-image), `LedgerChain` (hash chain),
  `LedgerFile` (lines, records, what a file says), `LedgerJson` (a reader for the
  JSON line), `LedgerEngine` (append, verify, recovery) and `LedgerCrash` (sequences of
  complete and broken appends).
- **Outbox.** `OutboxDrain` is the batch loop of one worker and the proof that it
  drains the table; `OutboxLease` is any number of workers over one table and clock.
- **Listing.** `IntentPaging` (in-memory store, offset tokens), `KeysetPaging`
  (database store, creation time as cursor) and `KeysetTies` (equal creation times).

## Choices

- Amounts are integers in units of 10^-8, the scale of `NUMERIC(20, 8)`.
- The hash is any function from text to text; "no two pre-images in these two
  ledgers collide" is a precondition where it is needed, never a fact.
- Broker answers, clock readings, fresh identifiers and failing statements are
  parameters or nondeterministic steps. A write can also be applied although the
  writer sees an error.
- A message carries the intent's identifier; type and payload are read from the
  intent's row, which no service changes after creation.
- The scheduler's status update has no guard. A write is called guarded when it finds
  its row PENDING or already as it is about to write it, and a run when all its writes
  are. The status order holds in exactly the guarded runs (`OrderExactlyWhen`); ledger
  agreement is proved for them too. Runs with a scheduler that reads and writes in one
  step, and runs of whole handlers, are guarded. Money and events allow every race, and
  work items have their own exact condition (`WorkIsKeptExactlyWhen`).
- The comment above the database store's `List` (intent-service/store/postgres.go:225-231)
  offers the id as a second cursor; the code compares creation times only, and that is
  what is modelled.

## Model

| member | source | states |
|---|---|---|
| WalletBooks.BalanceAudit | wallet/store/postgres.go:227-258 | After any accepted operations each balance is its seed plus audited inflow minus audited outflow, and the total changes only by what enters and leaves from outside |
| WalletBooks.RefsStayDistinct | wallet/store/schema.sql:21 | The audit log never holds a reference id twice |
| WalletBooks.NeverInDebt | wallet/handler/handler.go:101-103 | With positive amounts and non-negative seeds no balance is ever negative |
| WalletSerial.StepKeeps | wallet/store/postgres.go:191-262 | Every statement of every transaction keeps the invariant of locks, drafts and history |
| WalletSerial.Serializable | wallet/store/postgres.go:170-265 | In every reachable state accounts and audit log are those of the committed transactions run one at a time in commit order; finished transactions leave no trace, inserted recipients included |
| WalletSerial.CommitApplies | wallet/store/postgres.go:227-262 | What a commit installs is exactly what its operation does to the committed state of that moment |
| WalletSerial.RefusalIsSerial | wallet/store/postgres.go:183-223 | What a transaction that rolls itself back tells its caller is what the operation, run alone on the committed state of that moment, would tell, unless that state already has its reference; then alone it would be refused for that |
| WalletRefusal.FirstStatement | wallet/store/postgres.go:181-189 | A transaction whose reference the log has is ended by its first statement, told that it was already processed, without a lock, a draft or a change; with an unused reference it goes on to insert the recipient or to lock |
| WalletRefusal.RefusalInRun | wallet/store/postgres.go:183-223 | In every run a refusal other than "already processed" is given only to a transaction whose reference was absent from the log when it executed its check |
| WalletRefusal.LocksAscend | wallet/store/postgres.go:197-225 | In every run a transfer that asks for its second row holds only the other one, whose id is smaller |
| WalletRefusal.LessIs | wallet/store/postgres.go:200-203 | One id is smaller than another exactly when it has the smaller character where they first differ, or is a proper beginning |
| WalletSerial.RunAudit | wallet/store/postgres.go:227-258 | The balance audit, unique references and non-negative balances over whole interleaved runs |
| WalletDeadlock.NoWaitCycle | wallet/store/postgres.go:197-225 | Transactions never wait for each other in a ring |
| WalletDeadlock.CanFinish | wallet/store/postgres.go:191-262 | From every state a schedule of statements alone finishes all transactions, within a bounded number of steps |
| WalletDeadlock.DeadlockFree | wallet/store/postgres.go:191-258 | In every reachable state no wait cycle exists and every chain of waits ends at a transaction that can step |
| WalletStore.PostgresStore.GetBalance | wallet/store/postgres.go:46-57 | The balance read is the seed plus all audited amounts into the account minus all out of it; the account is unknown exactly if it was neither seeded nor ever credited |
| WalletBooks.KnownAccounts | wallet/store/postgres.go:191-195 | After any accepted operations the known accounts are those of the start and those the log credits |
| WalletStore.PostgresStore.Credit | wallet/store/postgres.go:60-111 | A used reference is refused and changes nothing; otherwise the balance, 0 for a new account, grows by the amount and one row of the log says so; the same as the operation run alone |
| WalletStore.PostgresStore.Debit | wallet/store/postgres.go:114-166 | Used reference, unknown account and missing funds are refused in that order and change nothing; otherwise the balance falls by the amount and one row says so |
| WalletStore.PostgresStore.Transfer | wallet/store/postgres.go:170-265 | The same order of refusals behind equal accounts; otherwise both balances move, a new recipient's from 0, one row names sender, recipient, amount and reference, and the two new balances are returned |
| ProtocolDelivery.NoLostEvent | intent-service/store/postgres.go:85-164 | In every run a PENDING intent has an outbox row or an unacknowledged submission |
| ProtocolDelivery.DeleteKeeps | intent-service/outbox/worker.go:177-186 | Deleting an outbox row never removes an intent's last trace |
| ProtocolWork.NoLostWork | scheduler/main.go:219-288 | A SCHEDULED intent has an unacknowledged task whose claim nobody has tried or an unacknowledged submission that will publish one, however often messages are delivered, if re-publications are stored and each scheduling write finds its intent SCHEDULED or its own message still to be handled |
| ProtocolWork.WorkIsKeptExactlyWhen | scheduler/main.go:219-288 | In a whole run no work item is ever lost if and only if every scheduling write finds some task or message of its intent, and every failed re-publication one besides its own message |
| ProtocolWork.WriteKeepsWorkExactlyWhen | scheduler/main.go:253-271 | A single write loses work if and only if it is not covered and no other task or message of its intent is left |
| ProtocolWork.DropExactly | scheduler/main.go:229-232 | A failed re-publication loses work if and only if its own message was all there was |
| ProtocolWork.ExclusiveRunsAreCovered | scheduler/main.go:144-161 | If no message is handed to two live schedulers, every write is covered |
| ProtocolWork.GuardedRunsAreCovered | scheduler/main.go:203-271 | Runs that keep the status order lose no work, with any number of schedulers on one message |
| ProtocolWitness.UncoveredWriteLosesWork | scheduler/main.go:253-288 | A run in which a write onto an EXECUTING row leaves a SCHEDULED intent without any work item |
| ProtocolWitness.LostRepublicationLosesWork | scheduler/main.go:219-237 | A run in which the ignored error of the re-publication does the same |
| ProtocolMoney.AtMostOnce | execution-engine/main.go:269-299 | In every run, with other wallet clients and lost replies, an intent id has at most one wallet transaction, and a COMPLETED transfer exactly one, whose audit row has its payload's sender, recipient and amount and its own id |
| ProtocolStatus.StatusMovesForward | scheduler/main.go:203-271 | In guarded runs every status moves only along the allowed moves, terminal ones stay, and the claim succeeds at most once an intent |
| ProtocolStatus.OrderExactlyWhen | scheduler/main.go:239-261 | A whole run keeps the order, executions being ended by the engine alone, if and only if every write of the scheduler finds its row PENDING or already as it is about to write it |
| ProtocolStatus.LedgerAgrees | validator/main.go:200-235 | In guarded runs every block names an executed intent with the type and status shown in all later states, and blocks for one intent agree |
| ProtocolStatus.NeverRejected | validator/main.go:211-216 | In guarded runs the validator's error branch for a status that is not final is never reached |
| ProtocolLedger.TruthExactly | validator/main.go:200-235 | A step keeps every ledger entry true of its row if and only if it does not change the status of an intent with an entry and, if it appends, finds the row as it was read |
| ProtocolLedger.EntriesTrueExactlyWhen | validator/main.go:200-235 | All entries are true in all states of a run if and only if every step is of that kind |
| ProtocolLedger.GuardedRunsSpare | scheduler/main.go:260-261 | In guarded runs every step is of that kind |
| ProtocolStatus.WriteInOrderExactlyWhen | scheduler/main.go:239-261 | A single write of the scheduler keeps the order if and only if it is guarded |
| ProtocolAtomic.AtomicRunsAreGuarded | scheduler/main.go:203-271 | Every run with an atomic read-and-write of the scheduler is part of a guarded run |
| ProtocolAtomic.AtomicSchedulerIsSafe | scheduler/main.go:203-271 | For such runs: forward statuses, permanent terminal ones, at most one claim, one claim for every block's intent, blocks that agree with the database and with each other, and no rejected event |
| ProtocolAtomic.AtomicSchedulerLosesNoWork | scheduler/main.go:219-288 | For such runs with stored re-publications no SCHEDULED intent is without its work item, double deliveries included |
| ProtocolWitness.StaleWriteRegresses | scheduler/main.go:260-261 | A run in which a late write takes a COMPLETED intent back to SCHEDULED |
| ProtocolWitness.LateExpiryRegresses | scheduler/main.go:239-251 | A run in which a late expiry hits an EXECUTING row and the engine's final write then takes it from FAILED to COMPLETED |
| ProtocolWitness.StaleWriteBeliesLedger | scheduler/main.go:260-261 | A run in which a late write leaves the ledger saying COMPLETED and the row SCHEDULED |
| ProtocolRepeats.AcknowledgedIsStarted | scheduler/main.go:144-161 | In every run an intent is not PENDING from its first acknowledged submission on |
| ProtocolRepeats.TriedIsNotScheduled | execution-engine/main.go:269-281 | In guarded runs an intent is beyond SCHEDULED from the first time a claim for it was tried or its task acknowledged |
| IntentService.IntentStore.Create | intent-service/store/postgres.go:58-165 | Both rows or none, whichever statement fails, as one step of the protocol |
| SchedulerService.Scheduler.HandleSubmittedIntent | scheduler/main.go:189-293 | For every failing statement: a PENDING intent whose deadline lies before now fails without a task, any other PENDING one is scheduled and gets its task, a SCHEDULED one gets its task again, and nothing else changes |
| SchedulerService.Scheduler.OnSubmitted | scheduler/main.go:144-161 | Acknowledged exactly when the read and, for a pending intent, its write and, in time, its publication were seen to succeed, left for redelivery otherwise; the whole is a run of the protocol |
| SchedulerService.HandlingIsARun | scheduler/main.go:189-293 | The decision table of the handler is reached by protocol steps |
| SchedulerService.AcknowledgedIsSettled | scheduler/main.go:253-288 | An acknowledged submission leaves its intent not PENDING: FAILED without a task if it was pending and its deadline lay before now, SCHEDULED with a task if it was pending otherwise |
| SchedulerService.SecondMessageChangesNothing | scheduler/main.go:219-237 | Once some message of an intent was acknowledged, a message of it handled at any later time of any run changes no row |
| EngineService.Engine.RunExecutionSimulation | execution-engine/main.go:328-375 | Only a transfer with two accounts and a positive amount reaches the wallet, which begins one transaction from the order's sender to its recipient under the intent's id; it succeeds exactly if that committed and the reply arrived |
| EngineService.Engine.ExecuteTask | execution-engine/main.go:252-325 | A SCHEDULED intent is claimed, its order sent to the wallet as above, and ends COMPLETED if its work was done and FAILED if not, which the event says too; any other intent is skipped; for every failing statement |
| EngineService.Engine.StartWorker | execution-engine/main.go:228-249 | The loop over the channel does what its tasks do one after another, and is a run of the protocol |
| EngineService.TaskIsAnswered | execution-engine/main.go:234-246 | A task's message is acknowledged exactly when the claim was seen to succeed and, if it took the intent, the final write too |
| EngineService.HandlingIsARun | execution-engine/main.go:252-325 | One task from delivery to acknowledgement is reached by protocol and wallet steps |
| EngineService.SecondTaskDoesNothing | execution-engine/main.go:277-281 | Once a task's claim was tried or its message acknowledged, a task of that intent handled at any later time of a guarded run changes no row, moves no money and reports nothing |
| ValidatorService.Validator.HandleExecutedIntent | validator/main.go:187-235 | An intent that is missing, unread or not final is an error and changes nothing; without an error the file has one more line, a block with the intent's id and the database's names of its type and final status; record and entry go together |
| ValidatorService.Validator.OnExecuted | validator/main.go:149-160 | Acknowledged exactly when the read row was final and its append was seen to succeed, left for redelivery otherwise; the whole is a run of the protocol |
| ValidatorService.AuditMirrors | validator/main.go:219-224 | As long as the file ends with a line end, an audit keeps the file's blocks and the ledger's entries the same, one for one |
| ValidatorService.BytesAgree | validator/main.go:200-235 | Every block of such a file carries the names of the type and final status of its intent's row, each name exactly for its type or status, now and in all later states of a guarded run |
| ServiceGuarantees.ProgramsAreSafe | execution-engine/main.go:269-299 | Every state reached by deliveries and handlers, each run whole with nothing between its statements: no double payment, no COMPLETED transfer unpaid, no pending intent forgotten, ledger and database agree, one claim an intent and, with stored re-publications, no lost work item |
| ServiceGuarantees.ProgramsMoveForward | scheduler/main.go:203-271 | Between two such states statuses have only moved forward and the ledger has only grown; handlers run whole |
| ServiceGuarantees.Deployment.Handle | validator/main.go:187-235 | Any one handler call keeps the system a run of guarded steps, and file and entries alike |
| ServiceGuarantees.Deployment.Operate | execution-engine/main.go:228-249 | Any sequence of calls of the five programs, each run whole, with deliveries, crashes, other outbox workers and wallet steps between them and any faults, ends in a safe state that has only moved forward; if the ledger's file ended with a line end after each call and the audits had good fields, it mirrors the entries at the end |
| ServiceGuarantees.FileTellsTheTruth | validator/ledger/ledger.go:69-127 | In a safe state every block in the mirrored file shows its row's type and final status by the same names |
| LedgerFormat.UniqueDecoding | validator/ledger/ledger.go:213-222 | The separator-free text determines all six fields of a block |
| LedgerFormat.FieldsInPlace | validator/ledger/ledger.go:213-216 | From the right the text is the 64 characters of the previous hash, the status, the type, the 36 characters of the id and the time; what is left is the index in decimal |
| LedgerFormat.AmbiguousWithoutShapes | validator/ledger/ledger.go:69-91 | With identifiers or type names of other shapes, which appending does not check, two different blocks of one index, time and status can have one text |
| LedgerChain.ChainCommits | validator/ledger/ledger.go:145-182 | Two chains with the same last hash are equal block for block unless two of their texts collide |
| LedgerEngine.EqualEndsEqualHistory | validator/ledger/ledger.go:132-182 | The same for two files that are accepted |
| LedgerFile.FaultRefuses | validator/ledger/ledger.go:145-179 | A file with a first bad line of any of the four kinds is not a correct chain |
| LedgerFile.FaultIs | validator/ledger/ledger.go:145-179 | A fault is named for the first of the checks that fails, in the order parsing, number, link, hash, and every record before it is in its place |
| LedgerFile.RecordsAppend | validator/ledger/ledger.go:145-149 | Text behind a newline-terminated file adds its own records and changes none |
| LedgerFile.OneLine | validator/ledger/ledger.go:145-149 | A line without its line end and one carriage return is one record, an empty one none |
| LedgerFile.LineText | validator/ledger/ledger.go:42-50 | The JSON line of a block, every key in its place |
| LedgerFile.AcceptedIs | validator/ledger/ledger.go:132-182 | A file is in order exactly when every record is a block numbered from 0 modulo 2^64, the first linked to 64 zeros and every other to the hash before it, each with the hash of its own text |
| LedgerEngine.Engine.Verify | validator/ledger/ledger.go:132-182 | Accepts if and only if the non-empty lines parse to a correctly indexed, linked and hashed chain; otherwise names the first bad line and what is wrong with it |
| LedgerEngine.Engine.ReadLastBlock | validator/ledger/ledger.go:185-211 | The last line that parses |
| LedgerFile.LastParsedIs | validator/ledger/ledger.go:185-211 | It parses and nothing behind it does; there is none exactly when no line parses |
| LedgerEngine.NextBlockIs | validator/ledger/ledger.go:79-97 | The new block has the event's fields, the next index modulo 2^64 and the last hash, or 0 and 64 zeros in an empty file, and the hash of its own text |
| LedgerEngine.Engine.Append | validator/ledger/ledger.go:69-127 | The old bytes followed by the new record, or by as much of it as was written |
| LedgerEngine.AppendsKeep | validator/ledger/ledger.go:69-127 | Any number of appends on an accepted file keeps its bytes, is accepted again and adds one block an event, in order |
| LedgerEngine.TornWrite | validator/ledger/ledger.go:109-182 | A file with a torn last record is accepted if and only if the torn part is empty or the whole record, with or without its newline |
| LedgerCrash.AcceptedAgainExactlyWhen | validator/ledger/ledger.go:69-182 | After any sequence of complete and broken appends a file in order is accepted if and only if nothing was written behind a record without its newline and the last record is whole |
| LedgerJson.RoundTrip | validator/ledger/ledger.go:42-50 | Reading what was written gives the block back |
| LedgerJson.ReaderHasLaws | validator/ledger/ledger.go:109-157 | The reader for the fixed JSON shape has all that the file results use |
| LedgerJson.ReaderRefusesGlue | validator/ledger/ledger.go:152-157 | The reader refuses every line on which a second record begins |
| OutboxDrain.OutboxWorker.constructor | intent-service/outbox/worker.go:35-45 | Defaults for batch size and retry limit |
| OutboxDrain.OutboxWorker.ProcessBatch | intent-service/outbox/worker.go:88-209 | The table after a poll for every claim transaction and outcome write that fails, and an error exactly when the claim did |
| OutboxDrain.PollLosesNothing | intent-service/outbox/worker.go:150-189 | Whatever fails, no event leaves the table unpublished, no other row changes, and none is given up before its attempts are used |
| OutboxDrain.FaultlessPoll | intent-service/outbox/worker.go:150-189 | With effective writes published rows are gone and the others wait with one more retry or have FAILED |
| OutboxDrain.OutboxWorker.Start | intent-service/outbox/worker.go:57-78 | The loop does what its polls do one after another |
| OutboxService.Worker.Poll | intent-service/outbox/worker.go:88-189 | One poll over the shared tables, for every failing write and broker answer, is a run of the protocol: claim, send, and delete, requeue or leave, for each event |
| OutboxService.PolledRow | intent-service/outbox/worker.go:125-189 | What a poll leaves of each row: published rows are gone, refused ones have one more retry and are FAILED after five, unwritten ones stay claimed, and others are untouched |
| OutboxService.PolledMessages | intent-service/outbox/worker.go:150-189 | A poll adds, in its order, one message of each selected event whose publication was accepted, or stored although it reported an error, none if the claim failed, and changes nothing else but the selected rows |
| OutboxService.PollIsEvents | intent-service/outbox/worker.go:112-189 | Claiming and publishing the batch does to tables and messages what the events do one after another |
| OutboxDrain.FateIs | intent-service/outbox/worker.go:164-176 | An event is published if and only if one of its remaining attempts succeeds, else it ends FAILED |
| OutboxDrain.RunKeeps | intent-service/outbox/worker.go:150-189 | No run of batches changes an event's fate, and every attempt is paid from its remaining ones |
| OutboxDrain.OutboxDrains | intent-service/outbox/worker.go:150-189 | As many polls as attempts are left end with every event gone or FAILED as its own attempts decide, at most maxRetries + 1 attempts each, for any batch sizes |
| OutboxLease.StepKeeps | intent-service/outbox/worker.go:98-148 | Every step of every worker keeps the lease invariant |
| OutboxLease.LeaseExclusion | intent-service/outbox/worker.go:98-148 | No event is ever in the hands of two workers |
| OutboxLease.FailureCountsOnce | intent-service/outbox/worker.go:164-176 | The unguarded write after a failed publish adds exactly one to the stored retry count |
| OutboxLease.ExpiredIsClaimable | intent-service/outbox/worker.go:98-108 | A row claimed more than a minute ago is published by nobody, and the next query may select it |
| OutboxLease.ClaimMarks | intent-service/outbox/worker.go:88-148 | A claim marks exactly the selected rows PROCESSING with the time its transaction began, however long the query and the commit take, and the worker remembers their retry counts |
| OutboxLease.QuerySelectsFree | intent-service/outbox/worker.go:98-108 | What a query selects is in nobody's hands, and is PENDING or was claimed more than a minute before |
| OutboxLease.CrashedEventIsReclaimed | intent-service/outbox/worker.go:98-148 | What a crashed worker was publishing can be taken over once its lease has run out |
| OutboxService.CommitIsClaims | intent-service/outbox/worker.go:125-148 | The commit of a claim is the protocol's claims of its events, with the retry counts the worker remembers |
| IntentPaging.MemoryStore.Create | intent-service/store/memory.go:102-125 | The new intent is PENDING and comes last |
| IntentPaging.MemoryStore.Get | intent-service/store/memory.go:131-141 | The stored intent with that id, or that there is none |
| IntentPaging.MemoryStore.List | intent-service/store/memory.go:153-202 | Page, next token and total as slices of the matching intents |
| Intents.MatchingIsExact | intent-service/store/memory.go:170-180 | The filter keeps exactly the intents with the status, unless it is unspecified, and the submitter, unless it is empty, each as often as it occurs |
| IntentPaging.TokenIsRead | intent-service/store/memory.go:164-167 | A number at the beginning of a token that fits 64 bits is the offset, whatever follows; one that does not fit means the beginning |
| IntentPaging.OffsetPagingIsExact | intent-service/store/memory.go:153-202 | Pages joined are the matching intents in insertion order as of the last page, all of them exactly when the walk has ended, and every page with a next token has the size asked for, 20 by default, under any growth |
| IntentPaging.NoIntentTwice | intent-service/store/memory.go:153-202 | No intent is listed twice |
| KeysetPaging.List | intent-service/store/postgres.go:234-353 | One page of the query's answer, its token and the total |
| KeysetPaging.AnswerIsNewest | intent-service/store/postgres.go:285-299 | With distinct times the query's answer is the newest matching rows before the cursor |
| KeysetPaging.NewestIsAnswer | intent-service/store/postgres.go:285-299 | Every such query has that answer |
| KeysetPaging.KeysetWalkIsReverse | intent-service/store/postgres.go:285-352 | A walk ends and lists the matching intents of its first visit newest first, even if rows are added meanwhile |
| KeysetPaging.KeysetRefinesOffset | intent-service/store/postgres.go:285-352 | The walk is the reverse of the in-memory store's walk |
| KeysetPaging.TieIsSkipped | intent-service/store/postgres.go:285-292 | Two rows of one instant and pages of one: only one is ever listed |
| KeysetTies.KeysetIsExactWhen | intent-service/store/postgres.go:285-352 | Over an unchanged table with any creation times an ended walk lists every matching row as often as it is there if and only if no full page leaves out a row with the time of its last row (or, behind the zero time, which gives no token, an older one) |

## Left out

- ProtocolWork.NoLostWork: holds for runs with covered writes and stored re-publications, a simple condition that is enough; WorkIsKeptExactlyWhen has the exact one, and the two runs in ProtocolWitness break it in its two ways.
- ProtocolStatus.StatusMovesForward: holds for guarded runs; OrderExactlyWhen says that these are exactly the runs that keep the order, and StaleWriteRegresses and LateExpiryRegresses are runs that do not.
- ServiceGuarantees.ProgramsAreSafe: each handler runs whole, with nothing between its statements; handlers that interleave are runs of Protocol, where the races and their exact conditions are.
- ServiceGuarantees.ProgramsMoveForward: the same.
- ServiceGuarantees.Deployment.Operate: the same.
- ProtocolStatus.LedgerAgrees: for guarded runs, which are enough; EntriesTrueExactlyWhen has the exact condition for the entries' truth.
- LedgerChain.ChainCommits: for ledgers of at most 2^64 blocks, after which the 64-bit index wraps around.
- LedgerEngine.AppendsKeep: for a newline-terminated or empty file and complete appends; AcceptedAgainExactlyWhen covers appends that break off.
- LedgerJson.ParseBlock: reads only the shape that the engine writes, not other spacing, member order or escapes; LedgerFile states what the file results use of a reader.
- KeysetPaging.KeysetWalkIsReverse: needs creation times of matching rows that strictly increase; KeysetIsExactWhen has the exact condition for listing every row over an unchanged table. Printing and parsing of times are functions with a round-trip law.
- IntentPaging.ScanInt: reads an optional sign and digits; white space before the number in a page token is not modelled.
- OutboxDrain.OutboxWorker.Start: the loop is left running for finitely many polls, and its waiting between them is not modelled.
- OutboxLease.LeaseExclusion: assumes that a live worker is through with its events within a minute of the start of its claim; batch limit and order are left to OutboxDrain, so a claim may take any set of eligible rows.
- OutboxDrain.OutboxDrains: one worker, all row updates succeed, no new events, and rows a former worker left in PROCESSING are already a minute old; PollLosesNothing covers updates that fail.
- EngineService.Engine.ExecuteTask: an error from counting the affected rows after a claim that was applied is not modelled; the driver returns none.
- Floating-point rounding of balances and amounts, and the range of NUMERIC(20, 8): amounts are exact integers.
- That an EXECUTING intent finishes, that FAILED means no money moved, and that every executed intent has one block: the code does not give these.
- SHA-256, signatures, HMAC, JWT, hex, base64, protobuf and JSON parsing of transfer payloads: library code.
- Broker retention, stream configuration, database connection loss between a write and its effect on other services, timeouts as such: only their outcomes (lost, unseen, crash) are steps.
- Scanner line-length limits: ledger records are short.
- The gateway (rate limit, idempotency cache, HTTP translation), metrics, logging, configuration, migrations and deployment files.
- The statuses VALIDATED, REJECTED and CANCELLED: no service writes them; they occur only as filters of a listing.
- Priority, retry and idempotency constraints, signatures and payload bytes of an intent: stored and copied, never decided on.
- The mutexes of the ledger engine and the in-memory store: their methods run one at a time in the model.
