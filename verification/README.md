# OctetDB: a verified model

OctetDB is an embedded database with two durable engines and the schedulers and protocols that use them. This project
models its hardest parts in Dafny and proves what they keep over whole runs:

- **Transfer protocol** (`TransferMessages`, `TransferProtocol`, `TransferAccounting`, `TransferNode`). Participants with
  their own databases move money by reserve, offer, accept, commit, acknowledge, expire and reconcile. The network is the
  set of all envelopes ever sent, so it may drop, duplicate and reorder, and recorded decisions may be forgotten at any time.
- **Keyed store** (`KeyedRecords`, `KeyedRecovery`, `KeyedSnapshot`, `KeyedEnvelope`, `KeyedCommit`, `KeyedRuns`,
  `KeyedExamples`, `KeyedText`, `KeyedScrub`, `KeyedGivenBack`, `KeyedDb`, `CommitCoordinator`, `QueryIndex`, `QueryRuns`).
  Group commit with one sync, a byte-exact write-ahead log, snapshots that may stop between any two of their steps,
  processes that open the files again, crashes that lose any part of what was not synced, the coordinator that serves
  concurrent submitters, what JSON strings do to whole histories of commands, and the sorted key lists that dataset scans
  walk.
- **Account engine** (`Accounts`, `AccountEngine`, `AccountBatches`, `AccountInvariants`, `AccountDedupe`, `AccountSerial`,
  `AccountLog`, `AccountWal`, `AccountSnapshot`, `AccountImages`, `AccountRecovery`, `AccountRuns`, `AccountDurability`,
  `AccountExamples`, `AccountSlab`, `AccountCore`, `AccountDestination`). Batches decided against an overlay, one binary frame per batch, dense
  slots with epoch marks, a compacting dedupe ring, version checks during recovery, a binary snapshot, and whole runs with
  storage failures, half-finished snapshots, reopenings and crashes.
- **Account flow machine** (`Utility`, `AccountFlow`, `Varint`, `AccountDelta`). The generated program-counter form of the
  decision switch, the binary deltas between its checkpoints, and machines restored from them.
- **Dispatcher and policies** (`Dispatcher`, `FairPolicy`, `DispatchSelection`). Conflict tokens, bounded channels, which
  request is taken next, and two forms of one policy.
- **Agent placement** (`Placement`, `PlacementScheduler`). Workers, rounds, migration of a killed worker's agents.

Code that computes becomes functions with lemmas about them. Code that updates state becomes classes and methods, each
proved equal to a function on values; the whole-run theorems are about those functions. `Bytes` and `FiniteSums` hold the
byte strings, orderings and finite sums that the others share.

Checksums (CRC-32), digests (SHA-256) and JSON are parameters: every theorem holds for any function in their place, under
conditions that are stated. Integers are mathematical; where a field has a fixed width the condition that values fit is
explicit (`Encodable`, `Fits`, `Sized`).

Some statements one would expect are false of the code. Each has a concrete counterexample and the exact condition:

- A batch of account commands is not always the same as its commands one at a time (`AccountSerial.LooseExample`,
  `AccountSerial.BatchEqualsSerial`).
- Admission does not keep the number of accounts within its bound (`AccountSerial.BoundExample`, `AccountSerial.BoundKept`),
  and opening is refused when the bound is exceeded (`AccountDurability.RecoveryAfterAnyCrash`).
- The record parser's length guard is eight bytes short, so that it reads on behind its payload. Such a frame is never
  accepted, but it stops the program where the buffer has fewer than four bytes to spare
  (`AccountLog.ShortRecordExample`, `AccountLog.ScanIgnoresSpare`).
- A batch whose sync failed is shown by the next process that opens the files, which answers its commands as done; a crash
  can still lose it. The same holds of the keyed store (`AccountExamples.LostAnswerExample`,
  `AccountDurability.AnswerDurableIff`, `KeyedExamples.LostDecisionExample`, `KeyedRuns.DecisionDurableIff`).
- A snapshot that fails while it resets the log leaves the engine running, and the next batch overwrites the log's header:
  it is acknowledged, and the store never opens again (`AccountExamples.OverwrittenHeaderExample`,
  `AccountDurability.WriteAfterFailedResetIff`). A crash that tears the header does the same
  (`AccountExamples.TornHeaderExample`, `AccountDurability.RecoveryAfterAnyCrash`).
- A failed batch leaves its agents and registrations in memory, and a snapshot of the poisoned engine makes them durable: a
  transfer whose beginning was reported as failed can then be confirmed (`AccountExamples.PendingTransferExample`,
  `AccountDurability.PoisonedSnapshotIff`, `AccountSerial.FailedBatchLeavesNothingIff`).
- A logged transfer to an account that has no slot yet, which no batch writes, passes the version check and changes the
  account in the first slot (`AccountDestination.WrongAccountExample`). Replay by slot number is replay by account exactly
  for the logs without such a transfer (`AccountDestination.ReplayOnIff`).
- Restoring a checkpoint accepts every instruction of the flow machine and one behind the last. The machine goes on as the
  original exactly from two of them (`AccountDelta.ResumesIff`), which are the only ones it ever stops at.
- A keyed snapshot taken over unsynced records can survive a crash that its log does not; the next group then makes the
  files unopenable (`KeyedExamples.BehindSnapshotExample`, `KeyedRuns.AppendBehindSnapshotIff`).
- A command the keyed store accepts can keep the store from opening again, because replay counts the key bytes of deletes
  and the live path does not (`KeyedExamples.OversizedDeletesExample`, `KeyedRuns.RecoveryAfterAnyCrash`).
- A group answers a repeated command without a callback as a duplicate; alone it is refused
  (`KeyedCommit.EmptyRepeatExample`, `KeyedCommit.GroupEqualsSingles`).
- Identities, codes and keys pass through JSON strings, which replace bytes that are not UTF-8 (section 8.1 of RFC 8259),
  so that different keys can become one. A log opens again exactly if the replaced strings still fit, no record then names
  a key twice and no identity repeats a retained one (`KeyedScrub.ReopensIff`); a record comes back exactly if its key is
  well-formed (section 4 of RFC 3629) and no key that becomes the same was changed after it
  (`KeyedGivenBack.RecordSurvivesIff`); and the whole state comes back exactly if that holds of all records and the
  retained decisions (`KeyedGivenBack.StateKeptIff`). Dataset numbers are part of the key. Datasets 128 to 255 become one,
  so their records do not come back, and one transaction that puts the same key in two of them is acknowledged and keeps
  the store from ever opening again, with all that it held (`KeyedGivenBack.TwoDatasetsExample`,
  `KeyedGivenBack.TwoDatasetsLoseTheStore`).
- The hand-written and the generated fair policy dispatch different requests when the oldest one ties for the best score,
  as a request queued after the dispatcher's clock can make it (`DispatchSelection.TieExample`, `FairPolicy.StepsAgreeIff`).
- The refund in the rejection handler of the transfer protocol is never reached
  (`TransferProtocol.RejectionNeverFindsOpenReservation`).

## Model

| member | source | states |
|---|---|---|
| TransferProtocol.EndsAgreeInEveryRun | experiments/BSOSim/M0/bso.go:189-291 | In every reachable state: receiver committed implies sender committed or acknowledged; sender acknowledged implies receiver committed; sender committed implies receiver accepted or committed; sender expired, rejected, reserved or absent implies receiver not committed |
| TransferProtocol.GivenUpMeansNeverCredited | experiments/BSOSim/M0/bso.go:211-291 | Once a sender has expired or rejected a transfer, no continuation of the run ever credits the receiver |
| TransferProtocol.ClosedTransferStaysClosed | experiments/BSOSim/M0/bso.go:211-291 | Expired and rejected are final at the sender, from any state that satisfies the invariant |
| TransferProtocol.RejectionNeverFindsOpenReservation | experiments/BSOSim/M0/bso.go:231-244 | Whenever a rejection is on the network, its transfer's funds are no longer reserved at the sender |
| TransferProtocol.OneCommitAndOneAckFinish | experiments/BSOSim/M0/simulation.go:237-289 | From any reachable state whose sender has committed, resending and delivering one Commit and one Ack ends the transfer at both ends |
| TransferProtocol.CommitDeliverySuffices | experiments/BSOSim/M0/bso.go:245-263 | Delivering any Commit of a transfer leaves its receiver committed, also when the delivery is a repeat |
| TransferProtocol.AckDeliverySuffices | experiments/BSOSim/M0/bso.go:265-272 | Delivering any Ack of a transfer leaves its sender acknowledged, also when the delivery is a repeat |
| TransferProtocol.RedeliveryIsSilent | experiments/BSOSim/M0/bso.go:104-136 | A repeated delivery whose decision is still recorded changes nothing, on the network either |
| TransferProtocol.HandlerStaysInBounds | experiments/BSOSim/M0/bso.go:158-291 | Every handler writes at most its own transfer's entry, moves that end forward only, keeps the two ends in agreement, and replies only what the new state justifies |
| TransferProtocol.RunKeepsInvariant | experiments/BSOSim/M0/simulation.go:237-289 | Reserving, delivering, expiring, retrying and forgetting decisions, in any order, keep the agreement of ends, the justification of every envelope ever sent, and the record of replies |
| TransferAccounting.MoneyIsConserved | experiments/BSOSim/M0/simulation.go:347-377 | In every reachable state balances, reserves and debits not yet credited add up to the initial balances, nothing is negative, and each reserve is the sum of that participant's open outgoing transfers |
| TransferAccounting.EachTransferSettlesOnce | experiments/BSOSim/M0/bso.go:211-263 | The audit of a participant holds at most one debit per transfer it sends and one credit per transfer it receives, and none of any other transfer |
| TransferAccounting.CheckAccountingInvariant | experiments/BSOSim/M0/simulation.go:347-377 | The check run after each round accepts exactly the states without negative amounts whose total is the expected one |
| TransferAccounting.SumLocals | experiments/BSOSim/M0/simulation.go:350-360 | The first loop reports a negative balance or reserve exactly when there is one, and otherwise adds up all of them |
| TransferAccounting.SumSenders | experiments/BSOSim/M0/simulation.go:361-371 | The second loop adds up, over all senders in any order, what is debited and not credited |
| TransferAccounting.SumOutgoing | experiments/BSOSim/M0/simulation.go:362-370 | One sender's share of it, in any order of its transfers |
| TransferAccounting.NetworkTotalIsAccounted | experiments/BSOSim/M0/simulation.go:347-377 | What the check adds up per sender equals the sum over all transfers, in every state that satisfies the invariant |
| TransferNode.DurableBso.ReserveFunds | experiments/BSOSim/M0/bso.go:138-156 | One attempt in place is the protocol's reserve step: a recorded decision is replayed, otherwise it is made and recorded with the new state, and the offer that goes out is the protocol's |
| TransferNode.DurableBso.DecideReserve | experiments/BSOSim/M0/bso.go:139-151 | Balance, reserve and entry after the decision are the protocol's |
| TransferNode.DurableBso.Handle | experiments/BSOSim/M0/bso.go:158-187 | Handling an envelope in place is the protocol's delivery step with its recorded decision and reply; an invalid envelope changes nothing |
| TransferNode.DurableBso.HandleOffer | experiments/BSOSim/M0/bso.go:189-209 | The in-place offer handler is the protocol's |
| TransferNode.DurableBso.HandleAccept | experiments/BSOSim/M0/bso.go:211-229 | The in-place accept handler is the protocol's |
| TransferNode.DurableBso.HandleReject | experiments/BSOSim/M0/bso.go:231-243 | The in-place reject handler is the protocol's |
| TransferNode.DurableBso.HandleCommit | experiments/BSOSim/M0/bso.go:245-263 | The in-place commit handler is the protocol's |
| TransferNode.DurableBso.HandleAck | experiments/BSOSim/M0/bso.go:265-272 | The in-place acknowledgement handler is the protocol's |
| TransferNode.DurableBso.HandleReconcile | experiments/BSOSim/M0/bso.go:274-291 | The in-place reconciliation handler is the protocol's |
| TransferNode.DurableBso.ExpireReservation | experiments/BSOSim/M0/simulation.go:249-259 | Expiring a reservation in place is the protocol's expiry step, as one recorded command |
| KeyedRuns.RecoveryAfterAnyCrash | keyed_storage.go:56-78 | After any run of groups, storage failures, snapshots, reopenings and crashes, what a further crash leaves is a snapshot after some records of the history and a log of a span of it with a torn tail; together they reach record n, no durable record lies behind n, and opening gives the fold of the first n records, or the error of a record that replay counts as too large or of a log that goes on behind missing records |
| KeyedRuns.DurableForGood | keyed_storage.go:168-178 | Whatever happens later, every store that opens holds every record that was durable, in its place |
| KeyedRuns.NoMoreIsDurable | keyed_storage.go:168-178 | The number of durable records is exact: some crash leaves no other |
| KeyedRuns.RunInvariant | keyed_storage.go:353-407 | Logs, snapshots, synced parts and history fit together after any events |
| KeyedRuns.DecisionDurableIff | keyed.go:328-408 | A group that writes frames makes every decision it hands out durable, repeated ones too; a decision of a group that writes none, or fails, is durable exactly if it was before - durable meaning that no crash leaves files without it |
| KeyedRuns.DecisionShownIff | keyed.go:328-408 | Unless losing power at once would leave files that do not open, every opening of files that a crash can leave shows the decision exactly in those cases |
| KeyedRuns.VisibleStateDurableIff | keyed.go:607-636 | While the store accepts work its state is the fold of the whole history, and no crash takes any of it back exactly if all records are durable; after a failed group or snapshot only reopening has any effect |
| KeyedRuns.DurableUnlessReopened | keyed_storage.go:318-326 | After any run, an open store shows records that are not durable exactly if some reopening found them unsynced, had no torn tail to cut off, and nothing was committed or snapshotted since |
| KeyedRuns.AppendBehindSnapshotIff | keyed_storage.go:180-241 | The next group that writes frames makes the files unopenable exactly if the log ends before the snapshot and is not empty |
| KeyedExamples.OversizedDeletesExample | keyed.go:551-583 | Two deletes that the store accepts and acknowledges, after which replay refuses the log |
| KeyedExamples.LostDecisionExample | keyed_storage.go:318-326 | A run in which a reopened store answers a command as decided and a crash then loses it |
| KeyedExamples.BehindSnapshotExample | keyed_storage.go:353-407 | A run of acknowledged commands, one snapshot and one crash after which the store cannot be opened |
| KeyedText.PutSurvivesIff | keyed_storage.go:143-150 | The first command of a store, putting one record, is acknowledged and visible whatever its strings are; reopening gives the same state exactly if identity and key are well-formed UTF-8, and never shows a record under a key that is not |
| KeyedText.IllFormedKeysNeverReturn | keyed_storage.go:180-241 | Whatever a log holds, replaying it never shows a record under a key that is not well-formed UTF-8 |
| KeyedText.ScrubbingIsLossless | keyed_storage.go:26-41 | A codec that coerces strings to UTF-8 is lossless on well-formed ones, which is what the run theorems ask of it |
| KeyedScrub.ReopensIff | keyed_storage.go:180-310 | The log of every history of commands, with any bytes in their strings, opens again exactly if in each record the coerced strings fit and the coerced keys differ and its coerced identity is not among the retained ones; it then gives the state of the coerced history |
| KeyedScrub.FreshIff | keyed_storage.go:225-227 | An identity is retained exactly if one of the last records, as many as the horizon says, has it |
| KeyedScrub.ScrubbedIsSmaller | keyed_storage.go:298-316 | However keys collide, the coerced history never holds more records than the live one |
| KeyedGivenBack.RecordSurvivesIff | keyed_storage.go:180-241 | In every history that opens, a live record comes back with its value exactly if its key is well-formed and the last change to any key that becomes the same was a put of that value |
| KeyedGivenBack.RecordsKeptIff | keyed_storage.go:180-241 | The coerced history gives the live records exactly if every live key is well-formed and unchanged by the others that become it |
| KeyedGivenBack.DecisionsKeptIff | keyed_storage.go:318-326 | It gives the live decisions exactly if identity and code of the retained ones are well-formed |
| KeyedGivenBack.StateKeptIff | keyed_storage.go:180-241 | The log gives back the very state exactly if it opens and both hold |
| KeyedGivenBack.CommitsLogged | keyed.go:328-408 | After any groups of an open store, whatever their strings, the synced log is the frames of the history and memory its fold |
| KeyedGivenBack.ReopenedIff | keyed_storage.go:56-78 | After any committed groups, reopening succeeds, and shows the acknowledged state, exactly under those conditions |
| KeyedGivenBack.DatasetSurvivesIff | catalog.go:538-544 | In every history that opens, a dataset's record with a well-formed key comes back exactly if the eight bytes of the dataset's number are well-formed UTF-8 and nothing that becomes the same stored key was changed after it |
| KeyedGivenBack.DatasetsMerge | catalog.go:538-544 | JSON turns the stored keys of one record key in the datasets 128 to 255 into one |
| KeyedGivenBack.TwoDatasetsRefused | keyed_storage.go:277-279 | Any log with a record that changes one key in two of these datasets is refused |
| KeyedGivenBack.TwoDatasetsLoseTheStore | catalog.go:409-424 | From any state that committed groups reach, a transaction that puts one key in datasets 128 and 129 is acknowledged, and the store does not open again |
| KeyedGivenBack.TwoDatasetsExample | catalog.go:409-424 | As a store's only command it is acknowledged and opening reports corruption |
| KeyedText.EarlyDatasets | catalog.go:251-286 | Of the first 255 dataset numbers those below 128 are well-formed and no other |
| KeyedCommit.GroupEqualsSingles | keyed.go:328-408 | Without a storage failure a group gives the replies and the state of committing its requests one at a time, exactly when no request without a callback repeats a command that one of the single commits before it decides and that is still remembered |
| KeyedCommit.GroupEqualsSinglesWithCallbacks | keyed.go:328-408 | With a callback on every request the two always agree |
| KeyedCommit.EmptyRepeatExample | keyed.go:352-361 | A two-request group whose second reply differs from the reply it gets alone |
| KeyedCommit.ExecuteFollows | keyed.go:237-289 | A command that is to be persisted is a record replay accepts next, within the live bounds |
| KeyedRecovery.ReplayFrames | keyed_storage.go:180-241 | Replaying frames i to m of a legal history over the state after b records, with any torn tail, gives the state after m records and the offset of the torn tail, or the capacity error exactly when a record is too large |
| KeyedRecovery.CutFrames | keyed_storage.go:318-326 | Cutting a log of whole frames anywhere leaves whole frames and a torn tail, and loses no frame before the cut |
| KeyedRecovery.ValidateIff | keyed_storage.go:243-296 | Validation passes exactly the well-formed records that fit, and refuses well-formed ones that do not fit as over capacity |
| KeyedSnapshot.SnapshotRoundTrip | keyed_storage.go:353-470 | Every state that satisfies the invariant loads back from its snapshot unchanged |
| KeyedSnapshot.RecoverImage | keyed_storage.go:56-78 | A snapshot after b records and a log that holds a span of the history, with or without a gap and with any torn tail, recover the state after the later of the two, or the error that the span calls for |
| KeyedRecords.LegalState | keyed_storage.go:328-351 | Every fold of records that each followed the state before satisfies the store's invariant, and its sequence is their number |
| KeyedDb.KeyedTx.PutValue | keyed.go:507-527 | Writes exactly the calls within the bounds, a key of 4096 bytes among them, and reports which those are |
| KeyedDb.KeyedTx.DeleteKey | keyed.go:530-542 | Marks a key deleted exactly if it is within the bounds |
| KeyedDb.KeyedTx.PutRecord | catalog.go:409-423 | In a dataset the same bound is on the record's key, which is stored nine bytes longer |
| KeyedDb.KeyedTx.DeleteRecord | catalog.go:426-432 | Marks a dataset's record deleted exactly if its key is within the bound |
| KeyedDb.KeyedDB.ApplyKeyed | keyed_storage.go:328-351 | In-place application, with eviction beyond the dedupe horizon, is the fold step |
| KeyedDb.KeyedDB.FinalizeWrites | keyed.go:551-583 | The sorted mutations of a transaction, accepted exactly if record count and live bytes fit |
| KeyedDb.KeyedDB.ExecuteKeyed | keyed.go:237-289 | Executes a request as the specification does, in every outcome |
| KeyedDb.KeyedDB.AppendKeyedFrame | keyed_storage.go:143-166 | Appends the whole frame, or nothing for one too large, or the part that a failing write leaves |
| KeyedDb.KeyedDB.StageGroup | keyed.go:331-378 | The loop over a group stages replies, durability, state and log bytes as the specification does |
| KeyedDb.KeyedDB.ProcessCommitGroup | keyed.go:328-408 | A group's replies, state, log, synced length and poisoning are those of the specification; a poisoned store answers every request with an error |
| KeyedDb.KeyedDB.ValidateKeyedRecord | keyed_storage.go:243-296 | The first fault in the order of the checks |
| KeyedDb.KeyedDB.ValidateKeyedApply | keyed_storage.go:298-316 | Accepts exactly if the record count after the record fits |
| KeyedDb.KeyedDB.ReplayKeyedWAL | keyed_storage.go:180-241 | The replay loop gives the state, fault and offset of the recursive specification |
| KeyedDb.KeyedDB.TakeSnapshot | keyed_storage.go:353-369 | The snapshot file of the current contents: decisions in order, payload, digest, magic and version |
| KeyedDb.KeyedDB.LoadKeyedSnapshot | keyed_storage.go:409-470 | Without a file nothing changes; a file is refused for its envelope, magic, version, digest or payload with the error each calls for; what it holds is taken over exactly if it passes every check, and otherwise refused with the fault of the first check that fails |
| KeyedDb.KeyedDB.CheckEntries | keyed_storage.go:435-442 | In whatever order the entries come, a fault is found exactly if there is one, and it is that of a bad entry |
| KeyedDb.KeyedDB.LoadDecisions | keyed_storage.go:448-466 | Takes over the decisions in order, or reports the fault of the first that does not load |
| KeyedEnvelope.FileRoundTrip | keyed_storage.go:353-470 | A snapshot file is read back, accepted, and restores the state it was written from |
| KeyedEnvelope.WrittenOrRefused | keyed_storage.go:417-470 | A changed snapshot file that still carries the digest of the state written gives that state exactly if its payload, magic and version are unchanged, and is refused otherwise |
| KeyedEnvelope.LoadsUnlessFaulty | keyed_storage.go:431-470 | A snapshot has a fault exactly if it does not load, and only one unless it is among its records |
| CommitCoordinator.AnsweredOnceInOrder | keyed.go:197-224 | Over all interleavings of submitters, closer and worker: requests are answered in the order they were queued, none twice, and the worker's send never blocks |
| CommitCoordinator.ExitIsFinal | keyed.go:291-322 | The worker exits only after a close with an empty queue and everything answered, and nothing is ever queued again |
| CommitCoordinator.EveryRequestIsAnswered | keyed.go:197-224 | No wake-up is lost: from any reachable state the inner steps are bounded in number, and where none is left every submission has returned and, after a close, worker and closer have finished |
| CommitCoordinator.QuietMeansAnswered | keyed.go:291-322 | A state in which no inner step is possible has an empty queue and no waiting submitter |
| CommitCoordinator.RunKeepsInvariant | keyed.go:455-474 | Lock ownership, queue order, answers and the wake token fit together in every interleaving |
| QueryIndex.BackendKeyRoundTrip | catalog.go:538-551 | Dataset number and record key are read back from a stored key |
| QueryIndex.BackendKeyUnique | catalog.go:546-551 | A stored key with a dataset number is built from that number and its own tail only |
| QueryIndex.ListIsRebuilt | catalog.go:139-150 | A strictly ascending list of exactly a dataset's live keys is the one a rebuild gives |
| QueryIndex.IndexUnique | catalog.go:139-180 | Any two valid indexes over the same records list every dataset alike |
| QueryIndex.MutationKeepsList | catalog.go:154-180 | Inserting or removing one key keeps the dataset's list valid for the records after the mutation |
| QueryIndex.Catalog.InitializeQueryKeys | catalog.go:139-150 | Rebuilding from the records gives a valid index |
| QueryIndex.Catalog.ApplyQueryKeyMutations | catalog.go:154-180 | Incremental upkeep over one applied record keeps the index valid, and its lists are the specification's |
| QueryRuns.KeptIsRebuilt | catalog.go:139-180 | After any run of groups, snapshots, reopenings and crashes that leaves the store open, whatever its strings, the lists kept up record by record are those that a rebuild from its records gives, strictly ascending and exactly the live keys |
| QueryIndex.SearchKeys | catalog.go:165-166 | The bisection finds the first position whose key is not smaller |
| QueryIndex.UpdateList | catalog.go:163-178 | One key more or less, still strictly ascending |
| QueryIndex.Catalog.Scan | query.go:74-108 | A scan visits a prefix of the dataset's live records in key order, each once, and stops before the end only at the first visit that asks for it |
| QueryIndex.CountRecords | catalog.go:447-456 | The number of records of every dataset |
| QueryIndex.ValidateDatasetBounds | catalog.go:447-475 | Accepts exactly the writes after which every dataset stays within its bound |
| AccountSerial.BatchEqualsSerial | internal/core/core.go:186-292 | A batch gives the replies and the engine of its commands one at a time, exactly when no fresh command follows, on the same account, one whose account was unregistered at its turn, and no repeat has left the dedupe window by its turn |
| AccountSerial.RegisteredBatchIsSerial | internal/core/core.go:198-292 | With every account registered by its turn and room in the window, each command is admitted alone too, and together they do what the batch does |
| AccountSerial.LooseExample | internal/core/core.go:240-274 | Two deposits to an account nobody created: turn counts differ between one batch and two |
| AccountSerial.AccountsAfter | internal/core/core.go:426-430 | A batch registers the accounts of all its fresh commands, created or not |
| AccountSerial.BoundKept | internal/core/core.go:201-214 | The account bound is kept exactly when the accounts of all fresh commands fit, in particular if all are registered |
| AccountSerial.BoundExample | internal/core/core.go:201-214 | Two admitted submissions that exceed a bound of one account |
| AccountSerial.FailedBatchLeavesNothingIff | internal/core/core.go:272-286 | The state after a failed append is the last durable one exactly when no fresh command creates an account or concerns a registered one |
| AccountBatches.BatchReplays | internal/core/core.go:461-478 | Replaying a batch's records passes every version and duplicate check and gives what the batch's overlay showed |
| AccountBatches.BatchIsItsReplay | internal/core/core.go:228-292 | The engine a batch leaves is the one that replaying its records gives, although agents and slots moved before anything was durable |
| AccountInvariants.DecisionSound | internal/core/types.go:135-209 | Decisions keep balances non-negative, conserve money in transfers, and create only missing accounts |
| AccountInvariants.BatchGood | internal/core/core.go:186-292 | Batches keep the engine invariant: balances, versions, turns, ledger, results and dedupe order |
| AccountDedupe.OrderAfter | internal/core/core.go:480-493 | After any records the dedupe order is the last `window` commands, oldest first |
| AccountDedupe.ApplyRemembers | internal/core/core.go:480-493 | The retained results are those of exactly the commands in the order |
| AccountLog.ScanIgnoresSpare | internal/core/core.go:579-629 | What lies in memory behind a log never changes which records it holds or that it is refused; the program stops exactly when fewer bytes are spare than the overrun of its last payload, and never with four |
| AccountLog.OverrunDecides | internal/core/core.go:657-694 | Parsing stops the program exactly when the buffer is shorter than the overrun; any other overrun leaves the cursor behind the payload, which is refused, and without one nothing behind the payload is looked at |
| AccountLog.ShortRecordExample | internal/core/core.go:657-694 | A rightly summed frame whose record is eight bytes short: it stops the program with fewer than four spare bytes and is refused with more |
| AccountLog.RecordRoundTrip | internal/core/core.go:631-694 | A record parses back to what was written, wherever it stands |
| AccountLog.ScanFrames | internal/core/core.go:579-629 | Scanning a header, any frames and any strict prefix of one more gives exactly the records above the given sequence, and the end of the last complete frame |
| AccountWal.AppendRecord | internal/core/core.go:631-655 | Appends exactly the record's layout |
| AccountWal.FrameBuffer | internal/core/core.go:549-566 | Builds length, payload and checksum of one frame |
| AccountWal.WalFile.AppendBatch | internal/core/core.go:549-577 | One frame and one sync per batch; on failure what may have reached the file |
| AccountWal.ParseWALRecord | internal/core/core.go:657-694 | The cursor-moving parser gives what the layout says, reading on into the capacity of its slice |
| AccountWal.ScanWAL | internal/core/core.go:579-629 | The scan loop gives records, cut and failure of the recursive specification |
| AccountSnapshot.ImageRoundTrip | internal/core/core.go:799-986 | Loading an encoded snapshot gives back rows, ledger, results and their order |
| AccountImages.ImageRestores | internal/core/core.go:855-986 | The image of an engine restores it, whatever its slot numbering |
| AccountImages.ImageIsOrdered | internal/core/core.go:935-980 | The image of every engine that satisfies the invariant passes the loader's order checks |
| AccountDurability.RecoveryAfterAnyCrash | internal/core/core.go:102-172 | After any run of batches, failed appends, snapshots that stop anywhere, reopenings and crashes, and any further crash, opening the files gives the engine after k batches of the history, none of the durable ones missing; it is refused exactly if the log left is not empty and lacks its header, or the registered accounts exceed the bound |
| AccountDurability.DurableForGood | internal/core/core.go:549-577 | Whatever happens later, every store that opens is the engine of a lawful history that extends the batches that were durable |
| AccountDurability.NoMoreIsDurable | internal/core/core.go:549-577 | The number of durable batches is exact: some crash leaves no other |
| AccountDurability.AnswerDurableIff | internal/core/core.go:228-239 | A command that the running engine answers from memory is given the same answer by every engine that a crash leaves, exactly if its record is among the durable batches |
| AccountDurability.VisibleStateDurableIff | internal/core/core.go:186-292 | While the engine takes commands its state is that of the whole history, and no crash takes any of it back exactly if all batches are durable |
| AccountDurability.DurableUnlessReopened | internal/core/core.go:495-534 | Batches that are not durable come only from a process that has opened the files again; one that is written makes all of them durable |
| AccountDurability.WriteAfterFailedResetIff | internal/core/core.go:779-793 | The batch after a snapshot that failed is acknowledged, and the store opens again exactly if the write went to the end of a log with a header; otherwise no crash leaves anything that opens |
| AccountDurability.ReadyUnlessResetFails | internal/core/core.go:779-793 | The next write goes to the end of a log with a header exactly unless the last snapshot failed after truncating the log and nothing has been written or opened since |
| AccountDurability.PoisonedSnapshotIff | internal/core/core.go:736-741 | A snapshot of an engine poisoned by a failed batch restores the agents and registrations of that batch, and is the store from before it exactly if no fresh command creates an account or is about a registered one |
| AccountExamples.LostAnswerExample | internal/core/core.go:524-532 | A run in which a reopened store answers a command as done, writing nothing, and a crash then loses it |
| AccountExamples.TornHeaderExample | internal/core/core.go:513-518 | A crash while the header of a new log is on its way leaves a store that never opens |
| AccountExamples.OverwrittenHeaderExample | internal/core/core.go:779-793 | A snapshot whose last sync fails, and an acknowledged batch after which nothing can be opened |
| AccountExamples.PendingTransferExample | internal/core/core.go:272-286 | A transfer whose beginning failed is pending in the store that is opened after a snapshot |
| AccountRecovery.RecoverImage | internal/core/core.go:142-171 | A snapshot after b batches and a log of frames it covers, then batches up to k, with any torn tail, give the engine after the later of the two |
| AccountRecovery.CutFrames | internal/core/core.go:579-629 | Cutting a log of whole frames anywhere leaves whole frames and a torn one, and loses none before the cut |
| AccountRuns.RunKeeps | internal/core/core.go:736-797 | Logs, snapshots, synced parts, the place of the next write and the history fit together after any events, and durable batches stay in their place |
| AccountRuns.FrameRuins | internal/core/core.go:782-793 | A frame written over a header or behind a gap leaves a file that is no log |
| AccountRuns.PartRuins | internal/core/core.go:782-793 | Part of one does too, or changes nothing |
| AccountCore.Core.SlotFor | internal/core/core.go:377-392 | The slot of an account, registering it if asked; no other slot moves |
| AccountCore.Core.AccountAt | internal/core/core.go:394-402 | The overlay's account where it is marked with the current epoch, else the durable one |
| AccountCore.Core.StartEpoch | internal/core/core.go:215-220 | A new epoch, after a wrap-around too, makes the scratch overlay the empty one |
| AccountCore.Core.StageEffect | internal/core/core.go:404-424 | Marks and scratch after an effect are the overlay map after it |
| AccountCore.Core.ApplyDurable | internal/core/core.go:426-459 | In-place application of any record is the specification's, a missing destination being the account in the first slot |
| AccountCore.Core.ApplyRecovered | internal/core/core.go:461-478 | Applies exactly the records whose versions and identity check, whatever they are |
| AccountCore.Core.Recover | internal/core/core.go:156-165 | The recovery loop accepts and yields what replay by slot number does, for every log |
| AccountCore.ReplayOnIsReplay | internal/core/core.go:426-478 | Replay by slot number is replay by account for every log whose transfers name a destination that existed when they were decided, as those of batches do; AccountDestination.ReplayOnIff has the exact condition |
| AccountCore.StagedVersions | internal/core/core.go:228-275 | Every transfer that a batch writes names a destination that existed when it was decided |
| AccountDestination.MissingDestination | internal/core/core.go:426-447 | A transfer without a registered destination passes the checks, and gives its balance to the account in the first slot |
| AccountDestination.ApplyOnIff | internal/core/core.go:426-447 | One record is applied alike by slot number and by account exactly if it is no accepted transfer or its destination has a slot |
| AccountDestination.ReplayOnIff | internal/core/core.go:461-478 | Replay by slot number is replay by account for every log whose transfers all go to accounts of the snapshot or ones the log names before; of the others none is read alike that either accepts |
| AccountDestination.WrongAccountExample | internal/core/core.go:426-447 | A log of one transfer from account 9 to an unknown one takes 80 from account 7 |
| AccountCore.Core.Remember | internal/core/core.go:480-493 | The ring with its head index and compaction shows the dedupe order of the specification, and its slice stays below twice the window |
| AccountCore.Core.Admit | internal/core/core.go:198-214 | Admission accepts exactly the valid commands that fit the account bound |
| AccountCore.Core.StageBatch | internal/core/core.go:228-275 | The decision loop over slots and scratch stages what the specification stages |
| AccountCore.Core.CommitBatch | internal/core/core.go:215-292 | A committed batch leaves the specification's engine and replies and one synced frame; a failed one leaves accounts, ledger and results as they were and poisons the engine |
| AccountCore.Core.SubmitBatch | internal/core/core.go:186-292 | Closed, poisoned, empty and inadmissible batches change nothing; every other one commits or poisons |
| AccountCore.Core.EncodeSnapshot | internal/core/core.go:799-853 | The encoding loops produce the bytes of the engine's image in slot order |
| Utility.TopIsFirstBest | internal/model/account_agent.generated.go:875-916 | The candidate chosen is the first of those with the highest score among the valid ones |
| Utility.SelectAny | internal/model/account_agent.generated.go:875-916 | The selector over collected valid candidates is the specified choice with hysteresis and commitment |
| Utility.SelectScalar | internal/scheduled/scheduler.generated.go:454-487 | The selector over one scan is the same choice |
| AccountFlow.RunBlocks | internal/model/account_agent.generated.go:1186-1577 | The program-counter loop ends and leaves the temporaries its blocks define |
| AccountFlow.BlocksComputeGuards | internal/model/account_agent.generated.go:1186-1577 | At its end every temporary that guards a candidate holds that candidate's condition |
| AccountFlow.CodeIsPlain | internal/model/account_agent.generated.go:945-1577 | The scored choice over all candidates is the code of a plain case distinction |
| AccountFlow.DecideCode | internal/model/account_agent.generated.go:945-1577 | The generated function, loop and selection together, computes that code |
| AccountFlow.AccountAgent.Step | internal/model/account_agent.generated.go:372-430 | From every instruction the loop ends, at a yield with the board and decision that the remaining instructions give, or failed behind the last one; from its suspension with the specified board and decision |
| AccountFlow.SwitchAgrees | internal/core/types.go:135-209 | What the machine yields for a code is what the switch decides, in every case |
| AccountFlow.TurnAgrees | internal/core/core.go:254-263 | One turn decides alike, counts alike, and leaves a board that mirrors the agent record |
| AccountFlow.RunsAgree | internal/model/account_agent.generated.go:1844-2250 | Over every sequence of commands machine and switch agree turn by turn |
| Varint.UvarintRoundTrip | internal/model/account_agent_delta.go:399-402 | 64-bit numbers read back from their variable-length form |
| Varint.ZigZagRoundTrip | internal/model/account_agent_delta.go:394-397 | Signed numbers read back from their zig-zag form |
| AccountDelta.FieldsRead | internal/model/account_agent_delta.go:145-319 | Reading the changed fields over the previous payload gives the current one |
| AccountDelta.DeltaRoundTrip | internal/model/account_agent_delta.go:60-319 | Applying the delta between two checkpoints of one owner to the first gives the second, an absent first included |
| AccountDelta.RefusedElsewhere | internal/model/account_agent_delta.go:228-241 | A delta is refused on every predecessor with another identity |
| AccountDelta.FoldGivesLast | internal/model/account_agent_delta.go:104-139 | Folding the deltas of a whole run gives the machine's last checkpoint |
| AccountDelta.DurableAgent.ExportDelta | internal/model/account_agent_delta.go:113-120 | Nothing before the first yield; otherwise applying the delta to the committed checkpoint gives the current one if the recorded hash is that checkpoint's, and is refused if not |
| AccountDelta.DurableAgent.AcceptCommitted | internal/model/account_agent_delta.go:122-129 | Behind a yield only, the frontier moves to the machine's payload and to the hash of the argument |
| AccountDelta.DurableAgent.Turn | internal/model/account_agent_delta.go:104-139 | Stepping, exporting and accepting keep the agent at its run's checkpoint, and the deltas of all turns fold to it |
| AccountDelta.DurableAgent.Restored | internal/model/account_agent_delta.go:91-101 | Restored from the checkpoint of a run it is at that run's last turn, with that checkpoint committed |
| AccountDelta.RestoreDurable | internal/model/account_agent_delta.go:91-101 | The durable facade is restored exactly from checkpoints whose decision is well-shaped too |
| AccountDelta.Restore | internal/model/account_agent.generated.go:799-859 | A checkpoint is accepted exactly if it has yielded in the known state at an instruction up to 6, and restored field by field |
| AccountDelta.RestoreAndStep | internal/model/account_agent.generated.go:799-843 | What a restored machine holds after its next turn, or that it fails |
| AccountDelta.ResumesIff | internal/model/account_agent.generated.go:853-859 | A restored machine takes its next turn as one that has yielded does exactly from instruction 0 or 5, and fails exactly at 6 |
| AccountDelta.RestoredContinues | internal/model/account_agent.generated.go:799-843 | Restored from its checkpoint after any turns, a machine holds after any further ones what the original holds |
| AccountDelta.FoldedContinues | internal/model/account_agent_delta.go:91-101 | So does one restored from the checkpoint that the deltas of a run fold to |
| Dispatcher.WritesInFlightDisjoint | internal/scheduled/conflict.go:266-414 | In every reachable state no two jobs in flight share a conflict token, and none was ever released twice |
| Dispatcher.SendsNeverBlock | internal/scheduled/scheduled.go:231-276 | Admitted requests stay within the capacity, active jobs equal queued, running and completed ones and stay within the workers, so no bounded channel is full when something is sent |
| Dispatcher.AnsweredOnce | internal/scheduled/scheduled.go:377-401 | A request is answered at most once and is then nowhere in the scheduler |
| DispatchSelection.FirstLegalIsOldest | internal/scheduled/conflict.go:421-465 | In every reachable state the first request that is neither blocked nor waiting for its batch is the oldest such |
| DispatchSelection.LegalRequests | internal/scheduled/conflict.go:421-458 | The nested loops list exactly the requests that may be dispatched, with priority, batch size and age, in order |
| DispatchSelection.CandidatesAre | internal/scheduled/conflict.go:421-458 | The listed requests are those whose token is free and, for a read, whose batch is full or time is up |
| DispatchSelection.SelectRequest | internal/scheduled/conflict.go:416-578 | Nothing is taken exactly if nothing may be dispatched; a starving request is taken first, the most starved; and the request taken is the one behind the action that the policy chooses from what the survey of the legal requests shows |
| DispatchSelection.SelectByController | internal/scheduled/conflict.go:521-578 | The same of a selection by the generated controller, which moves one decision on |
| DispatchSelection.SelectionsAgree | internal/scheduled/conflict.go:521-551 | Over every run of selections from requests queued before they are looked at, both policies choose alike |
| DispatchSelection.TieExample | internal/scheduled/conflict.go:497-519 | A read and a write from which the two policies dispatch different requests |
| Dispatcher.RunKeepsInvariant | internal/scheduled/conflict.go:266-414 | Counting, channel bounds, ownership and order hold in every reachable state |
| Dispatcher.GatherLimits | internal/scheduled/plan.go:41-46 | A group stays within the batch limit, and reads are joined by reads only |
| Dispatcher.Loop.Arrive | internal/scheduled/conflict.go:338-339 | Insertion keeps arrivals in sequence order behind equals |
| Dispatcher.Loop.DispatchOne | internal/scheduled/conflict.go:284-326 | Takes the request and its compatible companions off the list in place and owns the first one's token |
| Dispatcher.Loop.CompleteJob | internal/scheduled/conflict.go:350-368 | Releases what the job owns and nothing else |
| FairPolicy.Survey | internal/scheduled/conflict.go:483-496 | One pass finds the highest request, the fullest batch and the most starved request, or that there is none |
| FairPolicy.RawIsBestIff | internal/scheduled/conflict.go:504-519 | Comparisons and scan find the same best action and score exactly when the oldest request is not tied for it |
| FairPolicy.StepsAgreeIff | internal/scheduled/conflict.go:580-606 | One decision of the two policies agrees exactly when something is starving, the current action is held, or the oldest request is not tied |
| FairPolicy.NoTieWithoutNegativeAges | internal/scheduled/conflict.go:497-509 | Non-negative ages never tie |
| FairPolicy.RunsAgree | internal/scheduled/scheduler.generated.go:400-487 | With non-negative ages both take the same action at every step of every run and hold the same action, score and commitment age |
| FairPolicy.ConventionalPolicy.SelectAction | internal/scheduled/conflict.go:580-606 | The in-place policy step is the specified one |
| FairPolicy.FairController.Step | internal/scheduled/scheduler.generated.go:400-439 | The generated step ends at its suspension with the specified choice and utility site |
| Placement.PlacedAtEveryBarrier | experiments/BSOSim/M2/simulation.go:81-114 | At every round barrier, across any kills that leave a live worker, each unfinished agent is held by exactly the live worker its placement names, waits or has a step queued, and all its queued envelopes carry its generation |
| Placement.StaleUnreachable | experiments/BSOSim/M2/scheduler.go:121-124 | The stale-generation error is never reported |
| Placement.NeverStale | experiments/BSOSim/M2/scheduler.go:114-124 | An envelope at the head of a round is for its agent's current generation |
| Placement.KillLosesNothing | experiments/BSOSim/M2/scheduler.go:189-239 | A kill that leaves a live worker loses no agent and finishes none |
| Placement.RunKeepsInvariant | experiments/BSOSim/M2/simulation.go:236-445 | Stepping, delivering, waking, restarting, killing and draining keep placement, queues, generations and transport in agreement |
| Placement.BestIsLeastLoaded | experiments/BSOSim/M2/scheduler.go:164-176 | The chosen worker is the first of the least loaded live ones, and there is one exactly if some worker lives |
| PlacementScheduler.SchedulerCoordinator.LeastLoaded | experiments/BSOSim/M2/scheduler.go:167-176 | The scan over the workers finds that worker |
| PlacementScheduler.SchedulerCoordinator.AssignAgent | experiments/BSOSim/M2/scheduler.go:164-188 | In-place assignment changes workers and placement as the placement step does |
| PlacementScheduler.SchedulerCoordinator.Migrate | experiments/BSOSim/M2/scheduler.go:224-238 | A restored agent is placed and its envelopes readdressed, as one placement step |
| PlacementScheduler.SchedulerCoordinator.KillWorker | experiments/BSOSim/M2/scheduler.go:189-239 | Killing in place empties the worker and moves its agents one by one; it fails only when no worker lives |
| PlacementScheduler.SchedulerCoordinator.Complete | experiments/BSOSim/M2/scheduler.go:241-252 | Removes a finished agent exactly if it is still placed on that worker |
| PlacementScheduler.SchedulerCoordinator.StartRounds | experiments/BSOSim/M2/scheduler.go:90-103 | Every live worker takes its queue for the round and forgets whose steps were in it |
| PlacementScheduler.SchedulerCoordinator.Deliver | experiments/BSOSim/M2/transport.go:91-118 | Draining puts each envelope into the queue of the worker it names, and fails exactly if one names none |
| PlacementScheduler.SchedulerWorker.EnqueueStep | experiments/BSOSim/M2/scheduler.go:77-89 | A step is queued at most once per agent, on live workers only |
| PlacementScheduler.SchedulerWorker.TakeRound | experiments/BSOSim/M2/scheduler.go:90-103 | Deleting the marks of the taken steps one by one clears them all |
| PlacementScheduler.Transport.RetargetAll | experiments/BSOSim/M2/transport.go:120-129 | Readdresses exactly the envelopes of one transfer |

## Left out

- Files, directories, locks and real sync calls: a crash leaves of every file one of its versions since the last sync, cut anywhere behind what is synced; renames are atomic, a sync that succeeds covers everything written before it, and the directory entry of a new log is never lost.
- JSON, CRC-32 and SHA-256 themselves.
- KeyedRuns.RecoveryAfterAnyCrash: asks for well-formed UTF-8 in identities, codes and keys; KeyedScrub and KeyedGivenBack state exactly what happens without that to stores that have not been snapshotted. Snapshots in runs are values; KeyedEnvelope.FileRoundTrip connects them to the file.
- KeyedGivenBack.ReopenedIff: stores that have been snapshotted, whose keys pass through the names of a JSON object, are not covered.
- KeyedCommit.GroupEqualsSingles: a record too large for a frame counts as a storage failure, after which a group fails as a whole.
- Trimming of identities and codes recognises ASCII white space only.
- Contexts and deadlines; cancellation of a request is a flag, cancellation of a scan is not modelled.
- Bucket and dataset bookkeeping of the catalog file, and the FORMAT files.
- AccountRecovery.RecoverImage: the engine is the one that replay by account gives; AccountDestination.ReplayOnIff states for which logs that is what the slots hold, and by AccountCore.ReplayOnIsReplay and AccountCore.StagedVersions those of every batch are among them.
- AccountDestination.ReplayOnIff: logs that name account 0, which stands for no account, are not covered.
- AccountWal.WalFile.AppendBatch: writes at the end of the file; AccountRuns models the place of the next write.
- AccountCore.Core.EncodeSnapshot: the loader and the opening sequence are modelled on values, not in place; AccountImages and AccountRuns connect the two.
- AccountDurability.RecoveryAfterAnyCrash: covers runs that snapshot a poisoned engine only where the failed batch has left nothing in memory, and not a half-finished log reset while that batch's whole frame is in the log; AccountDurability.PoisonedSnapshotIff states what the others restore. Which of its checks a bad snapshot fails is not distinguished.
- AccountDurability.DurableForGood: the same runs.
- AccountFlow.RunsAgree: the dispatch chain of the decision builder is a match, its register loop is modelled in DecideCode only.
- Authentication of envelopes, envelope codecs, metrics and crash points of the transfer simulation; message identities are triples instead of strings, and expiry is a choice instead of a round count.
- Liveness of the transfer protocol beyond one Commit and one Ack: a remembered reconciliation answer can keep an unfinished transfer from progressing.
- Placement.RunKeepsInvariant: agent steps and deliveries are modelled on values with the databases' answers as choices; goroutines of workers are interleaved item by item.
- DispatchSelection.SelectRequest: counters, traces and the strategies that always take the oldest request are not modelled; in Dispatcher any request whose token is free may be dispatched, which includes every one that is selected.
- Dispatcher shutdown, which drops pending requests without an answer; tickers, observers, plant characterisation and the other control modes.
- `internal/researchengine`, `experiments/BSOSim/M1`, `experiments/BSOTrust`, `internal/m5`, `cmd` and benchmarks: earlier copies of the same ideas, or input and output that would add easier members only.
