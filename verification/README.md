# A verified model of the bank's journaled transaction engine

The bank keeps accounts in a repository, journals every transaction in a write-ahead log,
and recovers after a crash from a snapshot of the accounts and the journal. This project
models that engine in Dafny, from the bytes of the journal up to any number of threads
processing transactions at once, and proves what it is for: after a crash, the committed
transactions and nothing else are restored.

## How the model is laid out

- `Basics`, `Domain`: machine integers, money, accounts, transactions, `validate` and
  `apply`, with the class `Account` whose methods update it in place.
- `SerialBank`: the reference meaning. `Post` is the effect of a transaction on the whole
  account table, `Run` the effect of a list of transactions one at a time. It is
  defined without spans, locks or copies; the code's own route is proved to refine it.
- `JsonValue`, `JsonParser`, `JsonConsumption`, `JsonRoundTrip`, `JsonRefusal`, `JsonGrammar`,
  `Utf8Encoding`: printer (appending to a buffer) and recursive-descent parser (advancing a cursor),
  each proved against a specification function; the inverse theorems between the two, refusals
  included; and the grammar of all texts the parser accepts, written without the parser.
- `Codec`, `SnapshotFile`: records, accounts and snapshots to and from JSON.
- `FileFormats`: the texts the bank writes, letter by letter, and exactly what it reads.
- `Wal`, `Journal`: the journal file as bytes with the class `WalLogger` and its
  in-memory index, and the journal as a list of records whose image those bytes are.
- `Engine`, `EngineInvariant`, `EngineSteps`, `EngineEffects`, `EngineRuns`,
  `EngineTheorems`, `EngineOutcomes`, `EngineAudit`, `EngineProgress`: `process_impl` run by any number of threads as
  a step system, with snapshots, crashes and restarts; its invariant; the theorems about all runs.
- `Intake`, `IntakeInvariant`, `IntakeSteps`, `IntakeTheorems`, `IntakeRequests`, `IntakeIds`,
  `IntakeSwap`: the front of the processor (queue, reserved ids, thread pool, `start`/`stop` cycles) as
  a step system around the engine; what becomes of each request; under which id it is persisted.
- `Recovery`, `EndToEnd`: the recovery program, and the theorem that joins all parts.
- `AccountLocks`, `Repositories`, `Queues`, `ProcessorSteps`, `Processor`: the objects of the
  processor as classes. `TransactionProcessor.ProcessImpl` is the code of `process_impl` with
  its loops and its vector of account guards, run by one thread; every action it takes is matched with a step of the engine,
  so its history is an engine run and every theorem about engine runs holds of it.

In the step systems every mutex is explicit. A section under the lock-table, journal or
repository mutex is entered by one step, possible only while no thread is inside a section
of the same mutex, and its loop takes one step an iteration. Account mutexes are held
across steps. An interleaving is any sequence of enabled steps.

Some fields of the step systems are history the code does not keep: `original`, `base`,
`saved`, `fence` in the engine, `accepted`, `takes` and `left` around it. No step is enabled or
disabled by them. `pops` is history too, except that the stage of a pop is the program point of
whoever popped it.

## Assumptions

- The in-memory repositories are used.
- A char is a byte: a Dafny char below 256. UTF-8 bit masks and shifts are written as
  division, remainder and addition.
- A file write completes, or the process crashes leaving a prefix of it; flushed bytes
  survive; overwriting one byte is atomic; replacing the snapshot file is atomic.
- Account ids are below 2^63, and so is the transaction id counter. Codec and snapshot theorems are
  stated for all 64-bit values: they give the value back under an exact condition and nothing
  otherwise. Owners, versions and lsn are any 64-bit values; a snapshot that exceeds what its file
  can hold (`Storable`) is refused by recovery, and every other one is restored (`BytesRestore`).
- Timestamps are whole milliseconds and are parameters; none is INT64_MIN.
- Account status does not change while transactions run: status changes are not journaled
  (src/services/BankingService.cpp:83-86).
- A snapshot is taken when no transaction is in flight, with the size of the journal as its
  lsn (tests/test_wal.cpp:190). The recovery loop is the one of tests/test_wal.cpp:197-208,
  applying only Committed records as src/persistence/WalLogger.h:50-52 requires.

## Where the code and its comments disagree

The model follows the code.

- src/concurrency/TransactionProcessor.h:62-64 says the persisted record carries the id that
  `submit` returned. `IdPromiseIff` says for which processors that is so: those with at most one
  drainer, counting workers and concurrent callers of `process_next` together, or those whose bank
  has no active account, which persist nothing. For all others `TwoDrainersSwap` gives a run in which
  two transactions take each other's id, and `SwappedRecord` carries one of them into the journal.
- docs/concurrency/decisions.md section 6 says nothing accepted is dropped by `stop()` and that it
  closes the queue. The queue is never closed, and a `stop()` of a processor that was never
  started, or has no workers, leaves the queue as it is. `StopDrainsIff` is the exact condition;
  `UnstartedStopLeavesWork` and `WorkerlessStopLeavesWork` are the runs.
- src/domain/TransactionOps.cpp:108-110 speaks of compensation by the caller. There is none, and
  none is needed: the half-applied transfer exists only in local copies (`ApplyFailsOnlyByOverflow`,
  `AllOrNothing`).
- Account ids, owners and versions from 2^63 on print as negative numbers and are rejected on
  reading; a transaction id of 2^63 and a timestamp of INT64_MIN print as a number the parser
  rejects: `TransactionRoundTrip`, `AccountRoundTrip`, `SnapshotRoundTrip`.
- tests/test_json.cpp:83-84 says control characters in strings must be escaped for the parser. The
  parser accepts raw ones (`RawStringParses`, with a raw tab and line feed in `RawControlsParse`); the
  printer never emits them (`DumpPrintable`).

## Model

| member | source | states |
|---|---|---|
| EndToEnd.BytesRestore | src/concurrency/TransactionProcessor.cpp:138-197 | At every state of every run, for every snapshot taken so far, recovery from the snapshot's bytes and the journal's bytes followed by any torn fragment finds nothing to start from when an lsn of 2^63 or an id, owner or version from 2^63 on does not fit the snapshot file, and otherwise does not throw, gives the committed transactions in journal order, and agrees with the live table on every account whose mutex is free |
| EndToEnd.CrashInAppend | src/persistence/WalLogger.cpp:114-142 | The same when the crash comes after any number of the bytes of an append in flight |
| EngineTheorems.ExactRecovery | src/persistence/WalLogger.cpp:179-194 | Recovery from any quiescent snapshot succeeds, gives the same table whichever snapshot is used, and equals the live account wherever no call holds the mutex |
| EngineTheorems.Serializable | src/concurrency/TransactionProcessor.cpp:139-196 | When no call is under way the accounts are what the committed transactions give one at a time in journal order; equally in the order of saves and of the ledger |
| EngineTheorems.Conservation | src/concurrency/TransactionProcessor.cpp:182-188 | Whenever no call is inside its save section the stored money is the money at the last restart plus the deposits saved since minus the withdrawals saved since |
| EngineTheorems.RecoveredConservation | src/concurrency/TransactionProcessor.cpp:182-190 | Over all crashes, recovered money is the first accounts' money plus the committed inflow |
| EngineTheorems.LedgerReconciles | src/persistence/InMemoryTransactionRepository.h:19-29 | For each account whose mutex is free, balance is the balance at the last restart plus credits minus debits over its ledger records, and version the version then plus their number, modulo 2^64 |
| EngineTheorems.AllOrNothing | src/concurrency/TransactionProcessor.cpp:148-205 | A finished call was saved once, is in the ledger once and Committed in the journal, or it was never saved, is not in the ledger and its record, if any, is not Committed |
| EngineTheorems.JournalIdsDistinct | src/persistence/WalLogger.cpp:144-163 | Over any number of restarts journal ids are distinct, so the first-match search finds the only match |
| EngineTheorems.Freezes | src/concurrency/TransactionProcessor.cpp:26-34 | Journal records from before the last restart or snapshot never change |
| EngineTheorems.CrashedStaysCrashed | src/concurrency/TransactionProcessor.cpp:26-34 | A record a crash left behind keeps its state for ever: a Validated one is never committed later |
| EngineOutcomes.AcknowledgedIsDurable | src/concurrency/TransactionProcessor.cpp:189-197 | A call that came back with success is Committed in the journal at every later state, over any number of restarts, and recovery from any later snapshot ends in a run of the committed transactions with this one in its place |
| EngineOutcomes.FailedTouchesNothing | src/concurrency/TransactionProcessor.cpp:178-205 | No step of a call that ends in failure changes the stored accounts or the ledger |
| EngineOutcomes.ConservationThroughout | src/concurrency/TransactionProcessor.cpp:182-188 | Over any number of crashes, whenever no call is inside its save section, stored money is the first accounts' money plus the inflow of what was committed at the last restart plus the inflow saved since |
| EngineOutcomes.SectionsApart | src/concurrency/TransactionProcessor.cpp:148-196 | In every state of every run at most one call is inside a section that loads, saves, or appends to ledger or audit trail, at most one inside a journal append or commit, and at most one at the table of mutexes |
| EngineAudit.AuditMatches | src/concurrency/TransactionProcessor.cpp:148-206 | In every state of every run the audit trail has as many entries of success, and of failure, as calls of this process have reported, and every finished call has reported |
| EngineRuns.InvAlways | src/concurrency/TransactionProcessor.cpp:129-206 | The engine invariant (locks, copies, journal records, three serial orders, snapshots, outcomes) holds in every state of every run |
| EngineRuns.StepKeeps | src/concurrency/TransactionProcessor.cpp:129-206 | Every single step, restart and snapshot included, keeps the invariant |
| EngineRuns.RestartEnabled | src/persistence/WalLogger.cpp:179-194 | From every state recovery can be carried through |
| EngineRuns.RecoverIsRun | tests/test_wal.cpp:197-208 | Replaying the Committed records after the lsn onto a snapshot is running all committed transactions from the beginning |
| EngineInvariant.CriticalDisjoint | src/concurrency/TransactionProcessor.cpp:139-146 | Two calls that hold their locks are about different accounts |
| EngineEffects.CommitRuns | src/concurrency/TransactionProcessor.cpp:189-190 | Committing a record in the middle of the journal has the effect of its transaction made last, because later records are about other accounts |
| EngineProgress.NoDeadlock | src/concurrency/TransactionProcessor.cpp:139-146 | In every reachable state with an unfinished call some call can step |
| EngineProgress.HoldsBelowWanted | src/domain/TransactionOps.cpp:59-71 | A waiting call holds only mutexes of accounts below the one it waits for |
| EngineProgress.MeasureFalls | src/concurrency/TransactionProcessor.cpp:129-206 | Every step of a call lowers the measure of the system |
| EngineProgress.BoundedWork | src/concurrency/TransactionProcessor.cpp:129-206 | However calls are interleaved they take no more steps than the measure |
| EngineProgress.CanFinish | src/concurrency/TransactionProcessor.cpp:129-206 | Every run can be continued by its calls alone until all have finished |
| IntakeTheorems.ReservationPairing | src/concurrency/TransactionProcessor.cpp:42-64 | Reserved ids number the queued transactions, those popped without an id yet, and a submit between reserving and enqueueing; a pop always finds one reserved |
| IntakeSteps.NeverFallsBack | src/concurrency/TransactionProcessor.cpp:221-232 | With a transaction in hand the oldest reserved id is the next accepted transaction's, so the fresh-id branch is not taken |
| IntakeTheorems.PoppedOnce | src/concurrency/TransactionQueue.cpp:18-41 | Transactions leave the queue in the order accepted, each once, with distinct ids and as distinct calls |
| IntakeTheorems.StopDrains | src/concurrency/TransactionProcessor.cpp:105-122 | When stop() has joined at least one worker the queue is empty, the pool has no task left, and what consumers popped has been processed; with no process_next under way every accepted transaction has been |
| IntakeTheorems.StopDrainsIff | src/concurrency/TransactionProcessor.cpp:105-122 | A call of stop() leaves an empty queue exactly when the processor was started with a worker or the queue was empty before |
| IntakeTheorems.DrainedAllOrNothing | src/concurrency/TransactionProcessor.cpp:208-219 | Each drained transaction ran as its own call under an accepted id and went through completely or not at all |
| IntakeTheorems.UnstartedStopLeavesWork | src/concurrency/TransactionProcessor.cpp:105-112 | From any initial state a submit and then a stop() without start() end with the accepted transaction still queued |
| IntakeTheorems.WorkerlessStopLeavesWork | src/concurrency/TransactionProcessor.cpp:89-122 | The same over a whole start() and stop() cycle of a processor without workers |
| IntakeSwap.IdPromiseIff | src/concurrency/TransactionProcessor.h:62-64 | Every persisted record of every run carries the id its submit returned exactly when workers and concurrent callers of process_next are at most one together, or no account is active |
| IntakeSwap.TwoDrainersSwap | src/concurrency/TransactionProcessor.cpp:221-232 | With two drainers of whatever kind every processor has a run in which two transactions take each other's id |
| IntakeSwap.SwappedRecord | src/concurrency/TransactionProcessor.cpp:129-180 | With two drainers and an active account that swap can be carried into the journal: a persisted record with an id its submit did not return |
| IntakeIds.OneDrainerKeepsIds | src/concurrency/TransactionProcessor.cpp:208-232 | With one worker, or one caller of process_next at a time, each popped transaction has the id its submit returned and its call runs it under that id |
| IntakeIds.SoloDrainerKeepsIds | src/concurrency/TransactionProcessor.cpp:71-78 | The same in every run in which no two transactions are in hand at once |
| IntakeIds.OwnIdIffInTurn | src/concurrency/TransactionProcessor.cpp:221-232 | In any run a pop carries the id its submit returned exactly when it was given an id in the position in which it was accepted |
| IntakeIds.JournalInAcceptanceOrder | src/concurrency/TransactionProcessor.cpp:208-219 | With a single worker and no process_next the journal is in the order in which submit accepted the transactions |
| IntakeTheorems.StopCanReturn | src/concurrency/ThreadPool.cpp:33-72 | A stop() that is joining can always be brought to its end by the processor's own steps |
| IntakeTheorems.BoundedDrain | src/concurrency/ThreadPool.cpp:80-98 | Consumers and calls take no more steps than the work there is |
| IntakeTheorems.EngineOfRun | src/concurrency/TransactionProcessor.cpp:66-87 | The engine inside any processor run goes through an engine run |
| IntakeRequests.OneRuns | src/concurrency/TransactionProcessor.cpp:66-69 | The transaction given to process_one waits under the id issued for it until its call, which runs exactly this transaction under this id at the time of the call |
| IntakeRequests.SubmitAccepts | src/concurrency/TransactionProcessor.cpp:42-64 | A submit while accepting makes its transaction the next accepted one, under the id issued for it, for good; one while not accepting changes nothing |
| IntakeRequests.PopRuns | src/concurrency/TransactionProcessor.cpp:208-232 | Each transaction from the queue that reached process_impl is the accepted one of its place, brought there by one step and run under the id of its pop at the time of that step |
| IntakeRequests.EveryCall | src/concurrency/TransactionProcessor.cpp:66-78 | No call of process_impl comes from anywhere but process_one or a pop |
| IntakeRequests.AcceptingIff | src/concurrency/TransactionProcessor.cpp:89-122 | submit is open exactly while every stop() has been followed by a start() or by a restart of the process |
| IntakeSteps.ServerAlways | src/concurrency/TransactionProcessor.cpp:89-122 | The invariant of the processor (queue, reservations, stages, ids, flags, pool, owners) holds in every state of every run |
| Processor.TransactionProcessor.constructor | src/concurrency/TransactionProcessor.cpp:15-35 | The id counter starts above every id of the ledger and the journal, which is where the engine's restart puts it |
| Processor.TransactionProcessor.LockAccounts | src/concurrency/TransactionProcessor.cpp:139-146 | The lock loop takes the mutexes of the call's accounts in order, as steps of the engine, and ends with one guard in the vector for each |
| Processor.TransactionProcessor.LoadAccounts | src/concurrency/TransactionProcessor.cpp:148-163 | The load loop ends with copies of all stored accounts, or a missing account |
| Processor.TransactionProcessor.SaveCopies | src/concurrency/TransactionProcessor.cpp:183-188 | The save loop stores every copy, as steps of the engine |
| Processor.TransactionProcessor.ProcessImpl | src/concurrency/TransactionProcessor.cpp:129-206 | Succeeds exactly when the transaction can be posted on the whole table; then accounts, ledger and journal moved by it; else accounts and ledger are unchanged and the journal holds a validated record exactly if only an overflow was in the way; the audit trail says which; the history is an engine run |
| Processor.TransactionProcessor.ProcessOne | src/concurrency/TransactionProcessor.cpp:66-69 | Runs one transaction under the next id at the given time: accounts as posting makes them, one ledger record and a committed journal record with this id and time if it succeeded, one audit entry |
| Processor.TransactionProcessor.Submit | src/concurrency/TransactionProcessor.cpp:42-64 | Reserves an id and queues the transaction exactly when accepting |
| Processor.TransactionProcessor.ProcessNext | src/concurrency/TransactionProcessor.cpp:71-78 | The oldest queued transaction runs under the oldest reserved id at the given time, with accounts, ledger, journal and audit trail to match; nothing happens on an empty queue |
| Processor.TransactionProcessor.ProcessUntilEmpty | src/concurrency/TransactionProcessor.cpp:80-87 | Every queued transaction runs once, in order, each on what the ones before left, under its id and at its time; ledger and audit trail grow accordingly; queue and reservations end empty |
| ProcessorSteps.DrainIsRun | src/concurrency/TransactionProcessor.cpp:80-87 | What draining does to the accounts is a serial run of the transactions that go through |
| Processor.TransactionProcessor.Start | src/concurrency/TransactionProcessor.cpp:89-103 | Creates a pool holding one consumer loop for each worker and accepts again; does nothing when already started |
| Processor.TransactionProcessor.ConsumerLoop | src/concurrency/TransactionProcessor.cpp:208-219 | After a stop request the loop returns with the queue drained, every transaction processed on what the ones before left, under its id and at its time |
| Processor.TransactionProcessor.Stop | src/concurrency/TransactionProcessor.cpp:105-122 | Ends with an empty queue exactly when started with a worker or empty before; then all queued transactions ran in order, and otherwise nothing is touched |
| ProcessorSteps.HighestId | src/concurrency/TransactionProcessor.cpp:26-34 | The seeding loops find the highest id of both stores |
| ProcessorSteps.NextIdAbove | src/concurrency/TransactionProcessor.cpp:25-34 | A process starts with the id one above the highest in the journal, or 1 |
| ProcessorSteps.AppendOnDisk | src/persistence/WalLogger.cpp:114-142 | After an append the file stands for the journal with the new record, any torn line gone |
| ProcessorSteps.CommitOnDisk | src/persistence/WalLogger.cpp:144-163 | After mark_committed the file stands for the journal with that record Committed |
| ProcessorSteps.MaxOnDisk | src/concurrency/TransactionProcessor.cpp:31-33 | The highest id load_all yields is the highest id of the journal |
| Recovery.RecoverBank | tests/test_wal.cpp:190-208 | The recovery program computes what the bytes of its two files say, and leaves the files alone |
| Recovery.ReplayRecords | tests/test_wal.cpp:200-203 | The replay loop, stopping at the first exception |
| Recovery.ReplayThrows | tests/test_wal.cpp:200-203 | A replay that throws went through the records before some Committed one, which cannot be materialized or applied, and left the accounts as that one did |
| Recovery.ReplaySpanIsReplay | tests/test_wal.cpp:200-203 | Replaying on the vector of accounts throws exactly when replay on the table is refused, and ends in its table |
| Recovery.BytesRecover | src/persistence/WalLogger.cpp:58-99 | Recovering from the bytes of a snapshot and a torn journal is recovering from what they stand for if the snapshot fits its file, and finds nothing to start from if not |
| Recovery.AllOfSound | src/persistence/InMemoryAccountRepository.h:21-27 | The accounts listed for a snapshot are in ascending order of their ids and form exactly the table |
| SnapshotFile.SnapshotRoundTrip | src/persistence/SnapshotStore.cpp:15-71 | A snapshot loads as stored when its lsn is not 2^63 and all ids, owners and versions are below 2^63, and does not load at all otherwise |
| SnapshotFile.SnapshotStore.Store | src/persistence/SnapshotStore.cpp:15-42 | The store loop writes the snapshot's text |
| SnapshotFile.SnapshotStore.Load | src/persistence/SnapshotStore.cpp:44-71 | The load loop decodes the text, refusing it at the first bad account |
| Journal.ImageScan | src/persistence/WalLogger.cpp:58-99 | Scanning the image of a journal yields its index |
| Journal.TornImageScan | src/persistence/WalLogger.cpp:86-98 | A fragment behind the journal is set aside |
| Journal.InterruptedAppend | src/persistence/WalLogger.cpp:114-142 | An interrupted append leaves the whole line or a fragment without a newline |
| Journal.PrefixIsJournal | src/persistence/WalLogger.cpp:70-98 | Any byte prefix of a journal is the journal of the records whose newline survived plus a fragment |
| Journal.ImageFlip | src/persistence/WalLogger.cpp:144-163 | Flipping a state byte gives the image of the journal with that state |
| Journal.ReopenCommitAppend | src/persistence/WalLogger.cpp:58-163 | Reopening a torn journal, committing an old record and appending a new one leaves exactly the bytes of the journal so changed |
| Journal.ReplayReadsJournal | src/persistence/WalLogger.cpp:179-194 | Replay from any position reads back exactly the records appended from there, with their header states |
| Wal.WalLogger.constructor | src/persistence/WalLogger.cpp:58-99 | From any bytes whatsoever, the index built by the scan loop is the scan of the file |
| Wal.ScanLines | src/persistence/WalLogger.cpp:70-88 | The scan loop finds one entry for each well-formed complete line, and where the rest begins |
| Wal.WalLogger.TruncateInterruptedTail | src/persistence/WalLogger.cpp:101-110 | Cuts the file at its last complete line and keeps index and file in agreement |
| Wal.WalLogger.Append | src/persistence/WalLogger.cpp:114-142 | The file gains one line behind its complete lines, the index one entry, and they agree |
| Wal.WalLogger.MarkCommitted | src/persistence/WalLogger.cpp:144-163 | Changes one byte and one entry, the first with the id, or throws and changes nothing; index and file still agree |
| Wal.WalLogger.LoadAll | src/persistence/WalLogger.cpp:165-177 | Yields exactly the records of the entries whose payload can be read, in order, each with the state of its header; an unreadable one is passed over |
| Wal.WalLogger.ReplayFrom | src/persistence/WalLogger.cpp:179-194 | The same from a position on; nothing at or behind the end |
| Wal.RecordsPicked | src/persistence/WalLogger.cpp:165-177 | The records of an index are those at a strictly ascending list of exactly the readable positions |
| Wal.IdFieldBijection | src/persistence/WalLogger.cpp:33-54 | The id field is a bijection between 64-bit ids and 16 lower-case hex digits |
| Wal.StateByteBijection | src/persistence/WalLogger.cpp:19-31 | State bytes and states correspond one to one |
| Wal.ReadIdField | src/persistence/WalLogger.cpp:41-54 | The decoding loop of the id field |
| Wal.ScanFlip | src/persistence/WalLogger.cpp:144-163 | Overwriting an entry's state byte changes that entry's state and nothing else a scan sees |
| Wal.ScanLine | src/persistence/WalLogger.cpp:114-142 | A line appended after complete lines is scanned as one more entry |
| Wal.SplitTruncate | src/persistence/WalLogger.cpp:101-110 | Cutting at the start of the torn line keeps all lines |
| FileFormats.LineText | src/persistence/WalLogger.cpp:114-122 | A written line is sixteen lower-case hex digits of the id, most significant first, one state digit 0 to 6, the payload and a newline |
| FileFormats.LineReadIff | src/persistence/WalLogger.cpp:70-84 | A complete line is read exactly when it starts with such a header, and then as that id, state and payload |
| FileFormats.ScanAnyLine | src/persistence/WalLogger.cpp:70-98 | A further complete line, well formed or not, leaves the entries before it and adds its own if it has one; a fragment behind it adds none |
| Codec.TransactionRoundTrip | src/persistence/Serializer.cpp:27-106 | Decoding an encoded record gives it back when its id is not 2^63, its timestamp not INT64_MIN and its account ids below 2^63, and fails otherwise |
| Codec.AccountRoundTrip | src/persistence/Serializer.cpp:44-139 | The same for an account, when id, owner and version are below 2^63 |
| Codec.PayloadPrintable | src/persistence/WalLogger.cpp:114-122 | A journal payload holds no byte below 0x20 |
| Codec.TransactionToJson | src/persistence/Serializer.cpp:27-42 | The object built by repeated set is the record's document |
| Codec.AccountToJson | src/persistence/Serializer.cpp:44-53 | The object built by repeated set is the account's document |
| Codec.TextsRoundTrip | src/persistence/Serializer.cpp:27-106 | Type, state and status names read back |
| FileFormats.TransactionText | src/persistence/Serializer.cpp:13-42 | The text of a record, spelled out with its field names, order, and type and state names |
| FileFormats.AccountText | src/persistence/Serializer.cpp:44-53 | The text of an account, spelled out |
| FileFormats.SnapshotFileText | src/persistence/SnapshotStore.cpp:15-30 | The text of a snapshot file, spelled out, its accounts comma-separated in order |
| FileFormats.TransactionReadIff | src/persistence/Serializer.cpp:55-106 | A document is read as a record exactly when it has that record's members, among any others and in any order; a missing from or to is not the same as null |
| FileFormats.AccountReadIff | src/persistence/Serializer.cpp:108-139 | A document is read as an account exactly when it has that account's members, none of them negative |
| FileFormats.SnapshotReadIff | src/persistence/SnapshotStore.cpp:44-71 | A document is read as a snapshot exactly when it has an integer lsn and every item of its accounts is read; one bad account refuses it all |
| FileFormats.DecimalCanonical | src/persistence/Json.cpp:103-112 | A printed integer has no leading zero, a minus sign exactly when negative, and its own value |
| FileFormats.PlainPrinted | src/persistence/Json.cpp:78-101 | Every byte from 0x20 on other than quote and backslash is printed as itself |
| FileFormats.ShortEscapes | src/persistence/Json.cpp:78-101 | The seven two-character escapes |
| FileFormats.ControlEscapes | src/persistence/Json.cpp:78-101 | The other bytes below 0x20 are printed as a backslash, u00 and two lower-case hex digits |
| JsonRoundTrip.RoundTrip | src/persistence/Json.cpp:362-372 | Parsing what was printed gives the value again exactly when its keys are distinct and no integer is INT64_MIN |
| JsonRoundTrip.ReparseStable | src/persistence/Json.cpp:362-372 | Whatever was parsed survives printing and parsing again |
| JsonRoundTrip.ParsedIsCanonical | src/persistence/Json.cpp:204-355 | Parsed values have distinct keys and no INT64_MIN |
| JsonRoundTrip.ParseIntegerIff | src/persistence/Json.cpp:227-246 | The integer parser takes an optional minus and the whole digit run, succeeding exactly when its value is at most INT64_MAX |
| JsonParser.ParseText | src/persistence/Json.cpp:369-372 | The recursive-descent parser over its cursor computes the specified parse of every text |
| JsonGrammar.ParseIff | src/persistence/Json.cpp:174-372 | A text parses to a value exactly when some tree of the grammar, with white space before and behind, spells the text and means the value: white space between any two tokens, all escapes, digit runs up to INT64_MAX, later duplicates of a key in the place of the first, no trailing commas, no trailing text |
| JsonGrammar.TrailingText | src/persistence/Json.cpp:174-182 | Behind a printed value the parser tolerates spaces, tabs, line feeds and carriage returns and nothing else |
| JsonParser.Parser.ReadValue | src/persistence/Json.cpp:204-216 | Delivers the specified value and leaves the cursor behind it, or fails |
| JsonParser.Parser.ReadInteger | src/persistence/Json.cpp:227-246 | The digit loop, with its overflow test, meets its specification |
| JsonParser.Parser.ReadString | src/persistence/Json.cpp:248-293 | The string loop with escapes meets its specification |
| JsonParser.Parser.ReadArray | src/persistence/Json.cpp:295-320 | The array loop meets its specification |
| JsonParser.Parser.ReadObject | src/persistence/Json.cpp:322-355 | The object loop meets its specification |
| JsonRefusal.PrintedParses | src/persistence/Json.cpp:362-372 | For a value with distinct keys, what was printed parses to the value, or, when an integer in it is INT64_MIN, is refused |
| JsonRefusal.RawStringParses | src/persistence/Json.cpp:248-293 | Any bytes other than quote and backslash, control characters included, stand for themselves between quotes |
| JsonRefusal.RawControlsParse | src/persistence/Json.cpp:248-293 | A raw tab and line feed parse to the text the printer would have escaped |
| JsonConsumption.ParseConsumes | src/persistence/Json.cpp:204-355 | Every successful parse consumes a non-empty prefix: what is left unread is a proper end of the text |
| JsonValue.DumpInto | src/persistence/Json.cpp:103-140 | The printer appends exactly the value's text to the buffer |
| JsonValue.AppendEscaped | src/persistence/Json.cpp:78-101 | The escaping loop appends exactly the quoted text |
| JsonValue.DumpPrintable | src/persistence/Json.cpp:78-101 | No byte below 0x20 is ever printed |
| JsonValue.Document.Set | src/persistence/Json.cpp:45-58 | Replaces the member with the key or appends one; throws on a value that is no object |
| JsonValue.Document.Push | src/persistence/Json.cpp:60-67 | Appends an item; throws on a value that is no array |
| JsonValue.SetThenFind | src/persistence/Json.cpp:37-58 | After a set the key finds the child, other keys find what they found, and keys stay distinct |
| JsonValue.SetInPlace | src/persistence/Json.cpp:45-58 | An existing member is replaced where it is, a new one goes to the end, and no other member moves |
| Utf8Encoding.EncodesScalar | src/persistence/Json.cpp:142-159 | Every scalar value is emitted as its well-formed encoding of RFC 3629 |
| Utf8Encoding.EncodingUnique | src/persistence/Json.cpp:142-159 | Every well-formed encoding is the one emitted for its code point |
| Utf8Encoding.UnicodeEscapeDecodes | src/persistence/Json.cpp:273-287 | A hex escape is accepted exactly when it spells a non-surrogate code point, and contributes its encoding |
| SerialBank.LocalViewRefinesTable | src/domain/TransactionOps.cpp:73-115 | Validating and applying on copies of the involved accounts and saving them back is posting on the whole table, success and failure alike |
| SerialBank.ValidateIff | src/domain/TransactionOps.cpp:73-94 | A transaction validates exactly when its amount is positive, its accounts are there and active, a transfer's two differ, and the debited one has the money |
| SerialBank.ApplyFailsOnlyByOverflow | src/domain/TransactionOps.cpp:96-115 | After a true validate, apply can fail only by overflow of the credited balance, and then has debited a transfer's source and changed nothing else; a refused transaction changes nothing |
| SerialBank.ApplyMovesEach | src/domain/TransactionOps.cpp:96-115 | A successful apply moves each account by its own leg |
| SerialBank.PostCommutes | docs/concurrency/decisions.md:18 | Transactions about different accounts commute, refusals included |
| SerialBank.MoveToEnd | docs/concurrency/decisions.md:18 | A transaction sharing no account with its successors may be made last |
| SerialBank.RunConserves | src/domain/TransactionOps.cpp:96-115 | A run changes the total of money by deposits minus withdrawals |
| SerialBank.RunKeeps | src/domain/Account.h:32-57 | A run keeps owners, status, the set of accounts, and every account not named |
| Domain.LockOrderSound | src/domain/TransactionOps.cpp:59-71 | The lock order lists exactly the accounts named, each once, ascending, and is never empty |
| Domain.Apply | src/domain/TransactionOps.cpp:96-115 | The in-place apply on account objects, exceptions and half-done transfers included, is the specified one |
| Domain.Account.Deposit | src/domain/Account.h:32-40 | Adds the amount and bumps the version, or throws on overflow and changes nothing; zero changes nothing; the status is not looked at |
| Domain.Account.Withdraw | src/domain/Account.h:47-57 | Subtracts and bumps the version, or throws and changes nothing |
| Domain.Account.SetStatus | src/domain/Account.h:59-65 | The status becomes the one asked for; the version grows by one, modulo 2^64, exactly when that is a change; the balance stays |
| Domain.DepositThenWithdraw | src/domain/Account.h:32-57 | On any account and amount a deposit succeeds exactly when it does not overflow, and a withdrawal of the same amount then succeeds exactly when the account is active and undoes it but for the version |
| Domain.MaterializeInvertsProject | src/domain/Transaction.cpp:23-58 | A record materializes to the transaction it was projected from |
| Domain.ProjectInvertsMaterialize | src/domain/Transaction.cpp:23-58 | A record is a projection exactly when it materializes and has no spare leg |
| Domain.ProjectLegs | src/domain/Transaction.cpp:23-58 | Which leg each type of transaction credits and debits in its record; a record lacking a leg of its type is an invalid argument |
| AccountLocks.AccountLockManager.MutexFor | src/concurrency/AccountLockManager.cpp:29-40 | Creates a mutex on first use, never replaces one, and never gives two accounts the same |
| AccountLocks.ScopedAccountLock.constructor | src/concurrency/AccountLockManager.cpp:9-12 | Owns the account's mutex, locked, and disturbs no other |
| AccountLocks.ScopedAccountLock.Moved | src/concurrency/ScopedAccountLock.h:37-41 | The mutex changes hands and stays locked; the source owns nothing |
| AccountLocks.ScopedAccountLock.MoveFrom | src/concurrency/ScopedAccountLock.h:43-54 | Releases its own mutex first, takes over the other's; assignment to itself does nothing |
| AccountLocks.ScopedAccountLock.Release | src/concurrency/ScopedAccountLock.h:27-32 | Unlocks what it owns, once |
| AccountLocks.ScopedAccountLocks.constructor | src/concurrency/AccountLockManager.cpp:14-27 | Locks both accounts, lower id first, or one mutex when they are the same |
| AccountLocks.ScopedAccountLocks.Release | src/concurrency/ScopedAccountLocks.h:14-20 | Releases both |
| Queues.TransactionQueue.Enqueue | src/concurrency/TransactionQueue.cpp:5-16 | Appends, or refuses once closed |
| Queues.TransactionQueue.TryPop | src/concurrency/TransactionQueue.cpp:32-41 | Takes the oldest, or nothing from an empty queue |
| Queues.TransactionQueue.WaitPop | src/concurrency/TransactionQueue.cpp:18-30 | A closed queue or a requested stop still drains what is queued |
| Queues.ThreadPool.Submit | src/concurrency/ThreadPool.cpp:20-31 | Queues a task, or refuses once stopping |
| Queues.ThreadPool.Stop | src/concurrency/ThreadPool.cpp:49-71 | A pool without workers runs every remaining task, in order, each once |
| Repositories.InMemoryTransactionRepository.RecordsFor | src/persistence/InMemoryTransactionRepository.h:19-29 | The filter loop yields the account's records in order |
| Repositories.ForAccountKeeps | src/persistence/InMemoryTransactionRepository.h:19-29 | A record is among them exactly when it is in the ledger and names the account |
| Repositories.ForAccountPicks | src/persistence/InMemoryTransactionRepository.h:19-29 | They are the records at a strictly ascending list of exactly the positions that name the account |

## Left out

- SQLite repositories, password hashing, sessions, authentication, interest, audit queries, customers: foreign calls or members that would only be easy.
- BankingService: it serializes calls through one mutex; its freeze and unfreeze write accounts outside the account locks and the journal.
- I/O errors after which the process keeps running: treated as crashes (docs/concurrency/decisions.md section 8 accepts them).
- fsync and reordering at power loss: a stated limitation of the code (src/persistence/WalLogger.cpp:112-113).
- Spurious wakeups, fairness, timing, and concurrent calls of ThreadPool::stop. Progress is stated as: some step is always possible and no schedule is infinite.
- Texts of messages and of audit entries; the audit trail is a list of completed or failed.
- Sub-millisecond parts of timestamps, which no store keeps.
- The branch of process_impl for a transaction naming no accounts: `LockOrderSound` shows it is not reachable.
- The branch of submit for a closed queue: the processor never closes its queue.
- Conformance of the parser to RFC 8259: it accepts leading zeros and raw control characters and knows no booleans or fractions; the grammar it does accept is what is stated (`ParseIff`).
- Processor.TransactionProcessor.LockAccounts: describes one thread while no other call is under way, so no mutex it asks for is taken; waiting is in the step system.
- Processor.TransactionProcessor.LoadAccounts: describes one thread while no other call is under way.
- Processor.TransactionProcessor.SaveCopies: describes one thread while no other call is under way.
- Processor.TransactionProcessor.ProcessNext: describes one thread while no other call is under way; several drainers are in the step system of `Intake`.
- Processor.TransactionProcessor.ProcessUntilEmpty: describes one thread while no other call is under way.
- Processor.TransactionProcessor.ConsumerLoop: describes a consumer that runs after the stop request, alone; waiting for work and several consumers are in the step system of `Intake`.
- Processor.TransactionProcessor.Stop: describes the schedule in which the workers run only while they are joined, one after the other; every other schedule is in the step system of `Intake` (`StopDrains`, `StopDrainsIff`).
- Processor.TransactionProcessor.ProcessImpl: describes one thread while no other call is under way; what concurrent calls do is stated of the step system, whose sections are the same.
- Processor.TransactionProcessor.constructor: takes the ledger to be empty, as an in-memory ledger is when a process starts; `HighestId` covers any two lists.
- Processor.TransactionProcessor.ProcessOne: takes the id counter to be below 2^63, as every restart and every step of the engine does.
- Processor.TransactionProcessor.Submit: takes the id counter to be below 2^63, as every restart and every step of the engine does.
- Queues.ThreadPool.Stop: models the drain with a task as a number, the work of a task being its owner's; joining workers is in the step system of `Intake`.
- Queues.TransactionQueue.WaitPop: models the call once its wait is over; waiting on an empty open queue is in the step system of `Intake`, as a consumer that takes no step.
- AccountLocks.ScopedAccountLock.constructor: excludes a mutex already locked, on which the code blocks; blocked calls and their progress are in `Engine` and `EngineProgress`.
- AccountLocks.ScopedAccountLocks.constructor: excludes mutexes already locked, on which the code blocks; no call of the processor uses this class.
- Mutex addresses: a mutex is a number standing for its address; blocking is modelled in `Engine`, not in `AccountLocks`, where locking a locked mutex is excluded.
