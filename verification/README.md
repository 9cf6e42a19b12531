# Verified model of the key management service's data path

A Dafny 4.11 model of the parts of the repository where concurrency and the end-to-end data path meet,
with machine-checked proofs. `dafny verify dfyconfig.toml` checks everything; no file depends on
anything outside this directory.

## What is modelled

**The ETL pipeline** (`Pipeline`, `PipelineEffects`, `PipelineSafety`, `PipelineRuns`). `runETL`
connects a feeder, N workers and one batch writer over two bounded channels; main orders the shutdown with two wait groups. The model is a labelled
transition system: one action is one channel operation, one Encrypt call, one INSERT or one close, and a
run is any interleaving. Worker count, channel capacities and batch size are parameters (each at least
1). What an Encrypt call or an INSERT comes back with is chosen by the action. `BatchWriter` is the
writer on its own, as a class over the one reused backing array, and `InsertStatement` the statement it
sends. An action that the program could not survive (a send or close on a closed channel) sets `panicked`.
The `Effects` modules restate the step functions field by field as a relation and prove that the steps
satisfy it; the proofs about steps work from the relation.

**The parallel verifier** (`Verifier`, `VerifierEffects`, `VerifierSafety`, `VerifierResults`,
`VerifierRuns`, `VerifierReturns`, `VerifierSmooth`, `VerifierTimed`, `VerifierDelays`, `VerifierPrompt`,
`VerifierLate`, `VerifierWitnesses`). `verifyAllDataWithContext` from the moment both tables have been
read: main loop with semaphore, outer and inner goroutine per record, collector, closer, the cancellation
path that drains the channel beside the collector, and both safety timers. In the untimed model every
timer may fire at any moment. `VerifierTimed` adds a millisecond clock: timers are never early, the
collector's timer is re-armed at each turn of its loop as in the code, and a goroutine past its deadline
sends its result within a given delay. `VerifierDelays` also bounds how long a goroutine takes to leave the
group and the closer to notice; `VerifierPrompt` lets time pass only while every goroutine is blocked;
`VerifierLate` builds the runs that show which bounds are exact.

**The data path** (`Base64`, `StoredField`, `Aead`, `MasterKey`, `Records`, `StoredRows`,
`Verification`). Base64 is written out from section 4 of RFC 4648 (with Go's tolerance of newlines),
hexadecimal from section 8. AES-GCM is an abstract cipher in the sense of section 5.2 of RFC 5116:
12-octet nonce, 16-octet tag, opening what was sealed gives the plaintext; `Cipher.Lawful` says so, and
it is the only assumption made about it. Encrypted records are counted *through decryption*, so
"no record is lost" includes "and it still decrypts to its card".

**ETL followed by verification** (`Capstone`) joins all of the above.

**The batch endpoint and its SSIS client** (`BatchPool`, `BatchHandler`, `SsisClient`, `Alignment`). The
worker pool as a transition system, the restore-by-index and compaction loops over real arrays, the client
as a class whose rows are objects it writes into (the same object may come again holding the next row), and
the composition of the two.

**The PKCS#11 session** (`Pkcs11Provider`, `Pkcs11Locks`, `Pkcs11Linear`). The provider as a class over a
session that allows one active operation at a time (PKCS #11 Base Specification v2.40: an Init call is answered
CKR_OPERATION_ACTIVE while another operation is active), the interleavings of any number of calls under
the two mutexes, and the proof that interleaved calls are answered as if made one after another.

## Findings

- The verifier's documentation (docs/ETL_VERIFICATION_GUIDE.md:118) says 20 parallel workers; the code caps
  them at 10 (cmd/etl-worker/main.go:423-427). The model follows the code.
- That cap bounds the outer goroutines only. After a record's deadline its inner check keeps running without
  a slot: `VerifierWitnesses.ChecksOutliveSlots` has every check running at once with one slot configured.
- A cancelled verification can lose one result, namely the one the collector holds at that moment
  (`VerifierRuns.CancelledReturnIsComplete` is the exact condition,
  `VerifierWitnesses.CancellationCanLoseOne` a run).
- Forcing the closer after 15 minutes can make a later send panic exactly when some goroutine still owes its
  result (`VerifierRuns.ForcedCloseCanPanic`). From the start, such a panic is possible exactly when a result
  can be 14 min 45 s late and some record is stored (`VerifierLate.PanicBoundIsExact`, with the run in
  `VerifierLate.LateCanPanic`); the forced close itself can fire exactly when that lateness and the closer's
  own delay add up to as much (`VerifierLate.ForceBoundIsExact`).
- The batch endpoint drops failed items and the client assigns by position, so a batch is safe exactly when
  its failed items are its last ones (`Alignment.AlignedIffFailuresAreSuffix`); otherwise the row of the
  first failed item is given another row's ciphertext (`Alignment.FirstFailedRowTakesNext`).
- `findKeyHandle` ignores what FindObjectsFinal reports. One failure there leaves the session unusable for
  ever (`Pkcs11Locks.OneUnendedIsForever`).
- A stored field does not record where the nonce ends; it is unambiguous because all nonces have 12 octets
  (`StoredField.BoundaryIsNotStored`, `StoredField.CombineIsInjective`).

## Model

| member | source | states |
|---|---|---|
| `Base64.EncodeLength` | internal/kms/encryption_format.go:23-26 | encoding n octets gives 4·⌈n/3⌉ characters |
| `Base64.RoundTrip` | internal/kms/encryption_format.go:23-46 | decoding what was encoded gives the octets back, for every octet string and padding case |
| `Base64.DecodeAccepts` | internal/kms/encryption_format.go:35-39 | a text decodes if and only if it is whole groups of four symbols with correct padding only at its end |
| `Base64.Vectors` | internal/kms/encryption_format.go:23-26 | the encoding agrees with the standard's vectors for one, two and three octets |
| `Base64.Alphabet` | internal/kms/encryption_format.go:23-46 | the alphabet of table 1 of RFC 4648, in both directions |
| `Base64.GroupBits` | internal/kms/encryption_format.go:23-26 | four sextets hold the bits of three octets in order |
| `Base64.LastGroup` | internal/kms/encryption_format.go:23-26 | a last group is that of the octets filled up with zeros, with padding for the symbols beyond them |
| `Base64.NewlineIgnored` | internal/kms/encryption_format.go:35-39 | a carriage return or line feed anywhere makes no difference to decoding |
| `StoredField.SplitCombine` | internal/kms/encryption_format.go:23-46 | splitting a combined field at the nonce's length gives the same nonce and ciphertext |
| `StoredField.FieldHolds` | internal/kms/encryption_format.go:23-46 | the field is base64 of nonce and then ciphertext; splitting fails exactly for bad base64 or too few octets and otherwise cuts after the nonce |
| `StoredField.CombineIsInjective` | internal/kms/encryption_format.go:23-26 | two fields with 12-octet nonces are equal only if nonces and ciphertexts are |
| `StoredField.BoundaryIsNotStored` | internal/kms/encryption_format.go:23-26 | with nonces of different lengths two different pairs share one field |
| `StoredField.SplitAccepts` | internal/kms/encryption_format.go:35-46 | splitting succeeds if and only if the field is base64, newlines aside, of at least nonceSize octets |
| `StoredField.StoredLength` | internal/kms/encryption_format.go:23-26 | a plaintext of L octets is stored in 4·⌈(L+28)/3⌉ characters |
| `Aead.FileManager.Encrypt` | internal/kms/crypto.go:58-73 | succeeds exactly with a key and a nonce; the answer has the drawn nonce, 16 octets more than the plaintext, and opens to the plaintext |
| `Aead.FileManager.Decrypt` | internal/kms/crypto.go:76-89 | answers a plaintext only if a key is loaded, the nonce has 12 octets and the cipher opens the ciphertext to it; each error has its exact condition, a ciphertext the cipher refuses among them; what a lawful cipher sealed under this nonce comes back |
| `MasterKey.BytesTrimSpace` | internal/kms/crypto.go:105-121 | the two index loops give the slice outside which there are only spaces, tabs, line feeds and carriage returns, and at whose ends there is none |
| `MasterKey.TrimmedIsMaximal` | internal/kms/crypto.go:105-121 | the trimmed slice has only whitespace on both sides of it and no whitespace at its ends |
| `MasterKey.TrimmedIsUnique` | internal/kms/crypto.go:105-121 | no other slice is like that: trimming whitespace + core + whitespace gives the core |
| `MasterKey.TrimIsIdempotent` | internal/kms/crypto.go:105-121 | trimming twice is trimming once |
| `MasterKey.LoadMasterKey` | internal/kms/crypto.go:32-39 | trimming, hex decoding and the length check give the 32 octets written by the 64 digits, digit pair by digit pair; invalid hex exactly for an odd count or a foreign character |
| `MasterKey.NibblesAre` | internal/kms/crypto.go:32-39 | the digits and their values |
| `MasterKey.AcceptedFiles` | internal/kms/crypto.go:32-39 | a file is accepted if and only if it is whitespace, 64 hex digits, whitespace |
| `MasterKey.LoadPrinted` | internal/kms/crypto.go:22-39 | any 32-octet key printed in any mix of letter cases inside any whitespace loads back |
| `Records.AssembledIsCard` | cmd/etl-worker/main.go:975-982 | the record a worker assembles decrypts to its card, whatever nonces were drawn |
| `InsertStatement.InsertBatch` | cmd/etl-worker/main.go:1008-1060 | nothing is sent for an empty batch; otherwise parameters 4i to 4i+3 are id, PAN, CVV and other data of record i, and the text is the head followed by one comma-separated group of four placeholders a record |
| `InsertStatement.StatementMeansBatch` | cmd/etl-worker/main.go:1020-1034 | bound the way a driver binds it, the statement inserts one row per record, in order |
| `InsertStatement.StatementStoresBatch` | cmd/etl-worker/main.go:1020-1037 | reading the bound rows back as id, PAN, CVV and other data gives the batch |
| `InsertStatement.PlaceholdersMatchParams` | cmd/etl-worker/main.go:1020-1037 | as many placeholders as parameters, and at most 2000 of them for a batch of at most 500 |
| `BatchWriter.Writer.Append` | cmd/etl-worker/main.go:987-1001 | appending adds the record at the end of the batch and always fits the reused array |
| `BatchWriter.Writer.Flush` | cmd/etl-worker/main.go:988-999 | one INSERT of exactly the batch unless it is empty; if it succeeds the table gains the batch and processed its length, otherwise errors gains its length; nothing else changes; the batch is empty afterwards |
| `BatchWriter.Writer.Receive` | cmd/etl-worker/main.go:1000-1005 | one turn keeps everything received in order in INSERTs and batch, and only ever sends full batches |
| `BatchWriter.Writer.Run` | cmd/etl-worker/main.go:985-1007 | the INSERTs are what was received cut into batches; processed is the size of the table and processed + errors the number received; if all INSERTs succeed the table is what was received, if none does it is empty |
| `BatchWriter.WriterAccountsForAll` | cmd/etl-worker/main.go:992-997 | processed + errors is the number of records received, for any pattern of failing INSERTs |
| `Sequences.LastChunk` | cmd/etl-worker/main.go:1000-1006 | full batches and a shorter rest are the chunks of their concatenation, and the rest is never an empty batch |
| `Sequences.ChunkCount` | cmd/etl-worker/main.go:1000-1006 | n records make ⌈n/BatchSize⌉ batches |
| `PipelineSafety.OrderedStep` | cmd/etl-worker/main.go:266-286 | every step of every goroutine keeps the shutdown order: jobs closed, workers out, results closed, writer out, main; nothing panics and no channel overflows |
| `PipelineSafety.CountedStep` | cmd/etl-worker/main.go:988-1006 | every step keeps the counters equal to what they count and the batch within its size |
| `PipelineSafety.BatchedStep` | cmd/etl-worker/main.go:987-1006 | every step keeps INSERTs and batch together equal to what was received, in order, and every INSERT's rows stored or rejected |
| `PipelineSafety.ConservedStep` | cmd/etl-worker/main.go:928-1006 | every step keeps each scannable source row in the system exactly once, encrypted rows being seen through decryption |
| `PipelineRuns.RunKeeps` | cmd/etl-worker/main.go:266-286 | the four invariants hold along every run, and each step uses up some of the measure |
| `PipelineRuns.Progress` | cmd/etl-worker/main.go:266-290 | until main returns some goroutine can move, whatever worker count, capacities and batch size, and whether calls and INSERTs are to succeed or to fail |
| `PipelineRuns.RunsAreBounded` | cmd/etl-worker/main.go:266-286 | every run has at most 7 steps a source row, one a worker and 4; no panic; each channel closed at most once |
| `PipelineRuns.StuckMeansReturned` | cmd/etl-worker/main.go:284-290 | a run that cannot go on has returned: no deadlock |
| `PipelineRuns.FinalFlushIsLast` | cmd/etl-worker/main.go:1000-1006 | when the final flush happens all rows have been fed, both channels are empty and all workers are out |
| `PipelineRuns.StatementsFit` | cmd/etl-worker/main.go:1000-1037 | in every reachable state each INSERT issued has between 4 and 4·batchSize parameters |
| `PipelineRuns.EtlOutcome` | cmd/etl-worker/main.go:266-290 | at the end stored rows, rows of failed INSERTs and given-up cards partition the source; processed + errors is its size; the INSERTs are what the writer received cut into batches, and their rows are the stored and the rejected ones |
| `PipelineRuns.CleanRunStoresEverything` | cmd/etl-worker/main.go:266-290 | without failures the destination decrypts to exactly the source |
| `PipelineRuns.CleanRunExists` | cmd/etl-worker/main.go:266-290 | from every source some run stores everything |
| `PipelineRuns.WorstRunExists` | cmd/etl-worker/main.go:266-290 | and some run stores nothing and counts every card as an error |
| `PipelineRuns.VerdictDecides` | cmd/etl-worker/main.go:988-999 | in any interleaving an INSERT's verdict stores its batch and adds its length to processed, or to errors, and changes nothing else of these |
| `PipelineRuns.FailureGivesUp` | cmd/etl-worker/main.go:939-970 | a failed Encrypt call adds one error, gives up that card and leaves the worker free for the next |
| `PipelineRuns.SuccessGoesOn` | cmd/etl-worker/main.go:973-982 | a successful one goes on with PAN and nonce, then with the record of both combined fields |
| `PipelineRuns.CardsAreScannableRows` | cmd/etl-worker/main.go:1061-1078 | a card counts in the source as often as a scannable row holds it |
| `PipelineRuns.FailedInsertsStoreNothing` | cmd/etl-worker/main.go:988-999 | if no INSERT succeeds the table and processed stay empty, and errors counts the rows rejected and the cards given up |
| `StoredRows.LoadStored` | cmd/etl-worker/main.go:385-404 | an id is in the map exactly if some row that scans carries it, and is mapped to the last such row |
| `StoredRows.ByIdMeaning` | cmd/etl-worker/main.go:385-404 | an id is in the map exactly if some row carries it, and maps to the last such row |
| `Verification.ResultIsAboutCard` | cmd/etl-worker/main.go:536-549 | every kind of result carries its record's id, PAN, CVV and other data, and a match implies an empty error |
| `Verification.MissingIsReported` | cmd/etl-worker/main.go:536-549 | the missing error stands in a field exactly if the id is not stored, and then in both, with nothing decrypted or matched |
| `Verification.StoredIsReported` | cmd/etl-worker/main.go:551-582 | a result about a stored id is a timeout in both fields, with nothing decrypted or matched, or tells what the two checks of the stored fields found |
| `Verification.FieldsReported` | cmd/etl-worker/main.go:640-705 | each field is reported on its own: a split error exactly if it does not split, no error exactly if it was answered and decrypts, then with that plaintext, a match exactly if it equals the original |
| `Verification.PerfectIsStored` | cmd/etl-worker/main.go:640-705 | a perfect match is only reported for a record that really decrypts to its card |
| `Verification.StoredIsPerfect` | cmd/etl-worker/main.go:640-705 | and is reported for such a record whenever both Decrypt calls are answered |
| `Verification.CountMatches` | cmd/etl-worker/main.go:707-725 | the counting loop gives the number of positions where the PAN matches without error, where the CVV does, or where both do, as requested |
| `Verification.ColoursMean` | cmd/etl-worker/main.go:808-818 | red exactly with an error in either field, green exactly with both matches and no error, yellow exactly without error but not with both matches |
| `Verification.Summarize` | cmd/etl-worker/main.go:839-843 | total, the three match counts, and errors as total − perfect |
| `Verification.ColoursPartition` | cmd/etl-worker/main.go:808-843 | green, red and yellow rows partition the results; green are the perfect matches; red + yellow is "Errors/Mismatches" |
| `Verification.SummaryBounds` | cmd/etl-worker/main.go:839-843 | pan + cvv − total ≤ perfect ≤ min(pan, cvv) |
| `VerifierSafety.StepKeeps` | cmd/etl-worker/main.go:415-633 | every step of main, outer and inner goroutines, collector, closer and cancellation keeps the order, size, closing and settlement invariants |
| `VerifierSafety.SendNeverBlocks` | cmd/etl-worker/main.go:454-455 | the results channel holds at most one result a record, so it always has room |
| `VerifierResults.GenuineStep` | cmd/etl-worker/main.go:536-600 | every result anywhere in the system was produced for a source record by one of the three branches |
| `VerifierResults.ConservedStep` | cmd/etl-worker/main.go:460-600 | every step keeps, for each record main has passed, exactly one result owed, under way or collected |
| `VerifierRuns.ReachableTraced` | cmd/etl-worker/main.go:415-633 | all of these hold in every reachable state |
| `VerifierRuns.BoundedParallelism` | cmd/etl-worker/main.go:423-428 | at most as many outer goroutines as configured, and at most 10, hold a slot; the channel of twice as many places as records always has room; it is closed at most once |
| `VerifierReturns.CompleteIffUnspoiled` | cmd/etl-worker/main.go:457-632 | an uncancelled return is complete if and only if the collector did not give up and the closer was not forced too early (or there was nothing to verify) |
| `VerifierReturns.NothingReturnedTwice` | cmd/etl-worker/main.go:457-632 | no return, cancelled, spoiled or not, holds a record twice or one that is not in the source |
| `VerifierReturns.ReturnedRecordsSayWhy` | cmd/etl-worker/main.go:536-600 | every returned record of every run: reported missing in each field exactly if its id is not stored; timed out in both fields or none; either way red with no field filled or matched; otherwise it shows the stored fields, what each decrypts to and whether that is the original |
| `VerifierReturns.MissingMakes` | cmd/etl-worker/main.go:536-549 | the result sent for an id that is not stored, field by field |
| `VerifierReturns.TimeOutMakes` | cmd/etl-worker/main.go:572-582 | the result of a passed deadline, field by field |
| `VerifierReturns.ReportMakes` | cmd/etl-worker/main.go:563-571 | a check reports each field by what its own Decrypt call came back with |
| `VerifierRuns.CompleteWithoutTimers` | cmd/etl-worker/main.go:457-632 | in particular when neither timer fires, for any mix of missing rows, timeouts and completions |
| `VerifierRuns.CancelledReturn` | cmd/etl-worker/main.go:520-533 | a cancelled return has no duplicate and no invented result, and lacks at most one of those sent |
| `VerifierRuns.CancelledReturnIsComplete` | cmd/etl-worker/main.go:460-533 | it lacks none if and only if the collector has no result in hand when main returns |
| `VerifierRuns.PanicsOnlyWhenCutShort` | cmd/etl-worker/main.go:525-620 | nothing is sent on or closes a closed channel unless the closer was forced with results outstanding |
| `VerifierRuns.ForcedCloseCanPanic` | cmd/etl-worker/main.go:612-619 | forcing the closer allows a panic if and only if some goroutine still owes its result |
| `VerifierRuns.RunsAreBounded` | cmd/etl-worker/main.go:415-633 | every run has at most 20 steps a record and 15 |
| `VerifierRuns.Progress` | cmd/etl-worker/main.go:460-632 | until main returns some goroutine can move without safety timer or cancellation |
| `VerifierRuns.StuckMeansReturned` | cmd/etl-worker/main.go:460-632 | a run that cannot go on has returned or panicked: no schedule deadlocks |
| `VerifierSmooth.SmoothRunExists` | cmd/etl-worker/main.go:415-633 | over any source and destination some run without failing calls, timeouts, cancellation and safety timers ends with main returning |
| `VerifierSmooth.EnvironmentIsFree` | cmd/etl-worker/main.go:460-620 | calls may be answered or not, also after their record's deadline; deadline, safety timers and cancellation may come whenever they are waited for |
| `VerifierTimed.TimersAre` | cmd/etl-worker/main.go:464-616 | 15 seconds a record, 10 minutes between results, 15 minutes for the group |
| `VerifierTimed.ClocksAre` | cmd/etl-worker/main.go:464-616 | a record's deadline runs from its own start, the collector's wait from its last result, the closer's from its own start |
| `VerifierDelays.ForcedCloseNeverFires` | cmd/etl-worker/main.go:603-620 | with that delay and the closer's own together below 14 min 45 s, the 15-minute forced close never fires |
| `VerifierLate.LateCanPanic` | cmd/etl-worker/main.go:553-620 | for every source with a stored record, a run from the start in which the forced close makes a late send panic, once results may be 14 min 45 s late |
| `VerifierLate.PanicBoundIsExact` | cmd/etl-worker/main.go:553-620 | some run panics if and only if results may be that late and a record is stored |
| `VerifierLate.ForceBoundIsExact` | cmd/etl-worker/main.go:603-620 | some run has the forced close if and only if the two delays reach 14 min 45 s, or, with nothing stored, the closer's own reaches 15 minutes |
| `VerifierPrompt.PromptRunsAreComplete` | cmd/etl-worker/main.go:460-632 | with prompt scheduling neither the 10-minute nor the 15-minute timer ever fires, for any number of records, so every uncancelled return is complete |
| `VerifierPrompt.PromptRunExists` | cmd/etl-worker/main.go:460-632 | there are such runs, over any source and destination |
| `VerifierWitnesses.ChecksOutliveSlots` | cmd/etl-worker/main.go:551-587 | any number of inner checks can be running while no slot is taken |
| `VerifierWitnesses.SlotsCanAllBeTaken` | cmd/etl-worker/main.go:423-428 | a run in which as many slots are taken as the bound allows |
| `VerifierWitnesses.CancellationCanLoseOne` | cmd/etl-worker/main.go:520-533 | a run whose cancelled return lacks a result that was sent |
| `Capstone.FoundIsCard` | cmd/etl-worker/main.go:385-404 | looking a card's id up in the read-back table finds a record exactly if the card was stored, and it decrypts to the card |
| `Capstone.StoredCount` | cmd/etl-worker/main.go:385-404 | the map has as many ids as the run stored rows |
| `Capstone.GreenIsStored` | cmd/etl-worker/main.go:640-705 | after any ETL run, in any verifier run, a green row is about a stored record that decrypts to it |
| `Capstone.MatchIffStored` | cmd/etl-worker/main.go:369-633 | without timeouts and unanswered calls, PANMatch and CVVMatch hold exactly for the records whose batch was inserted |
| `Capstone.PerfectMatchesAreProcessed` | cmd/etl-worker/main.go:238-290 | and if the run completes, "Perfect Matches" equals processedCount |
| `Capstone.ProcessedCanBeConfirmed` | cmd/etl-worker/main.go:238-290 | after any ETL run there is a verifier run that reports exactly processedCount perfect matches |
| `BatchPool.OrderedStep` | cmd/kms-http-server/main.go:196-225 | every step keeps the pool's shutdown order; nothing panics |
| `BatchPool.FaithfulStep` | cmd/kms-http-server/main.go:205-211 | every step keeps each reply paired with the outcome of the item it names |
| `BatchPool.ConservedStep` | cmd/kms-http-server/main.go:200-235 | every step keeps each queued item in the pool exactly once |
| `BatchPool.PoolIsSafe` | cmd/kms-http-server/main.go:178-225 | in every reachable state: no panic, channels closed at most once, room for the next send, as many workers as items or 50, at most 50 items in their hands |
| `BatchPool.EveryRunEnds` | cmd/kms-http-server/main.go:196-235 | every complete run has exactly 5 steps an item, one a worker and 3, none is longer, and a stuck one is responding |
| `BatchPool.CollectedIsReordering` | cmd/kms-http-server/main.go:199-235 | whatever the schedule, the collected replies name every item exactly once, with its outcome |
| `BatchHandler.ReorderingPermutes` | cmd/kms-http-server/main.go:228-235 | their outcomes are a permutation of the items' |
| `BatchHandler.Restore` | cmd/kms-http-server/main.go:228-235 | afterwards each slot shows its item's outcome, and the errors are a permutation of the failures' messages |
| `BatchHandler.Compact` | cmd/kms-http-server/main.go:237-254 | the results are the entries of the delivered items, in item order |
| `BatchHandler.BatchEncrypt` | cmd/kms-http-server/main.go:154-261 | 400 for no items or more than 1000; otherwise one entry for each item answered with a ciphertext, in item order, ciphertext and nonce in base64; errors holds each message as often as an item failed with it |
| `BatchHandler.EveryItemAccountedFor` | cmd/kms-http-server/main.go:247-260 | results and errors add up to the items if and only if no answer has an empty ciphertext |
| `BatchHandler.SealedAnswersAreDelivered` | cmd/kms-http-server/main.go:247-253 | an answer made by a lawful cipher is never filtered out |
| `SsisClient.WriteBack` | docs/SSIS_SCRIPT_EXAMPLE.cs:174-191 | each row object holds the result of its last position in the batch, or blank where results run out |
| `SsisClient.BlankAll` | docs/SSIS_SCRIPT_EXAMPLE.cs:203-214 | after a failed call every row of the batch is blank |
| `SsisClient.Component.ProcessBatch` | docs/SSIS_SCRIPT_EXAMPLE.cs:141-215 | one request with the buffered PANs, position by position; the rows then hold the answer, over what they held; the buffer stays |
| `SsisClient.Component.ProcessRowInBatch` | docs/SSIS_SCRIPT_EXAMPLE.cs:124-139 | the row is buffered, and a full buffer is sent and emptied |
| `SsisClient.Component.PostExecute` | docs/SSIS_SCRIPT_EXAMPLE.cs:61-69 | a nonempty rest is sent, an empty one is not |
| `SsisClient.Execute` | docs/SSIS_SCRIPT_EXAMPLE.cs:61-139 | over a whole run the k-th text posted is the PAN the k-th row object had when handed over, or the empty text for null; requests have the batch size except a shorter last; a row object not handed over again ends with the result at its place in its request's answer, or blank |
| `Sequences.QuotientAndRemainder` | docs/SSIS_SCRIPT_EXAMPLE.cs:124-139 | the request and the place of the k-th row are quotient and remainder of k by the batch size |
| `SsisClient.EveryRowHasItsCell` | docs/SSIS_SCRIPT_EXAMPLE.cs:174-191 | whichever objects are handed over, a row object ends with the cell of its last use: the k-th result of the i-th answer if that was place k of batch i |
| `SsisClient.DistinctRowsAreUsedOnce` | docs/SSIS_SCRIPT_EXAMPLE.cs:124-131 | when every row comes in an object of its own every use is a last use, so each row ends with its own place's cell |
| `SsisClient.AllAdmittedIff` | docs/SSIS_SCRIPT_EXAMPLE.cs:124-139 | no request is empty; all are within the endpoint's 1000 exactly if the batch size is, or the rows are fewer |
| `Alignment.RowsBeforeFirstFailure` | cmd/kms-http-server/main.go:227-254 | every row before the first failed item gets its own ciphertext |
| `Alignment.FirstFailedRowTakesNext` | docs/SSIS_SCRIPT_EXAMPLE.cs:174-191 | the row of the first failed item gets the ciphertext of the next delivered one |
| `Alignment.AlignedIffFailuresAreSuffix` | docs/SSIS_SCRIPT_EXAMPLE.cs:174-191 | all rows end with their own ciphertext or blank if and only if the failed items are a suffix |
| `Alignment.AllOwnIffNoneFailed` | docs/SSIS_SCRIPT_EXAMPLE.cs:174-191 | all rows end with their own ciphertext if and only if none failed |
| `Alignment.NoForeignPanIffFailuresAreSuffix` | docs/SSIS_SCRIPT_EXAMPLE.cs:174-191 | for distinct PANs, every row is blank or decrypts to its own PAN if and only if the failed items are a suffix |
| `Alignment.RunAlignedIffFailuresAreSuffixes` | docs/SSIS_SCRIPT_EXAMPLE.cs:61-191 | the same over a whole client run in which requests may also fail: every row ends with its own ciphertext or blank if and only if in each answered batch the failed items are a suffix |
| `Pkcs11Provider.Provider.FindKeyHandle` | internal/kms/hsm_pkcs11.go:115-135 | the first object found, or the error of the step that failed; the search is left active exactly if it started and did not end |
| `Pkcs11Provider.Provider.Encrypt` | internal/kms/hsm_pkcs11.go:144-175 | succeeds exactly when every step does, with the first key found, that ciphertext and nonce; otherwise the error of the first step to fail; leaves the session unused exactly when it was and all it started ended, on every error path |
| `Pkcs11Provider.Provider.Decrypt` | internal/kms/hsm_pkcs11.go:178-203 | the same for decryption |
| `Pkcs11Provider.HsmManager.Encrypt` | internal/kms/hsm.go:95-121 | answers what the provider answers, with the same effect on the session |
| `Pkcs11Provider.HsmManager.Decrypt` | internal/kms/hsm.go:125-145 | the same for decryption |
| `Pkcs11Provider.NewHsmManager` | internal/kms/hsm.go:56-90 | a manager exists exactly if the provider is present and its test encryption succeeds; the session is left unused exactly as by any Encrypt |
| `Pkcs11Provider.DecryptUndoesEncrypt` | internal/kms/hsm_pkcs11.go:144-203 | a successful Encrypt followed by a Decrypt that finds the same key gives the plaintext back exactly if the first operation ended and no step of the second fails |
| `Pkcs11Locks.ExclusiveStep` | internal/kms/hsm.go:95-145 | every step keeps each lock held by exactly the call it names |
| `Pkcs11Locks.MutualExclusion` | internal/kms/hsm.go:95-145 | in every reachable state at most one call is inside each lock, health checks included |
| `Pkcs11Locks.NeverRefused` | internal/kms/hsm_pkcs11.go:144-203 | while searches and operations end, no Init meets an active operation and the session is unused whenever the lock is free |
| `Pkcs11Locks.UnusedIffAllEnded` | internal/kms/hsm_pkcs11.go:115-203 | with the lock free the session is unused if and only if every search and operation so far ended |
| `Pkcs11Locks.OneUnendedIsForever` | internal/kms/hsm_pkcs11.go:124-133 | after one that did not end, no call ever searches or operates again |
| `Pkcs11Locks.EveryInitIsRefused` | internal/kms/hsm_pkcs11.go:115-133 | and every later Init meets it, its call being answered with that error |
| `Pkcs11Locks.DeviceIsFree` | internal/kms/hsm_pkcs11.go:115-203 | what the device decides is never ruled out by the interleaving |
| `Pkcs11Linear.StepKeeps` | internal/kms/hsm_pkcs11.go:144-203 | every step keeps the answered calls a sequential history and the call under way in line with it |
| `Pkcs11Linear.Linearised` | internal/kms/hsm_pkcs11.go:144-203 | at every moment the answered calls are, in the order they released the provider, answered and chained as undisturbed calls of the provider's methods; each once |
| `Pkcs11Linear.EveryCallIsRealised` | internal/kms/hsm_pkcs11.go:144-203 | conversely, for all decisions of the device a call holding the provider can come to the end the provider's method ensures |
| `Pkcs11Locks.Progress` | internal/kms/hsm.go:95-145 | with calls outstanding one of them can move: the two locks cannot deadlock |
| `Pkcs11Locks.AllCallsComplete` | internal/kms/hsm.go:95-145 | every run has at most 9 steps a call, and cannot go on exactly when every call has completed |

## Left out

- One INSERT is all-or-nothing and its outcome is what the driver reports; partial inserts and a commit whose confirmation is lost are not modelled.
- AES-GCM, random number generation and the gRPC transport: foreign code, present as the abstract cipher, the drawn nonce and the outcome of each call. Failing calls may fail for any reason at any time. Go's GCM panics on a nonce of another length; `Aead` has that as an error value.
- The ETL's connection test before the pipeline starts, and its logging and progress output.
- The Postgres variant of the INSERT: the text up to VALUES is the parameter `head`, taken to hold no question mark.
- The verifier before both tables are read (a cancellation there returns nothing), the SQL reading itself, and its progress messages.
- Goroutine starts: a goroutine counts as started when it is created. A record's 15-second context is created by its goroutine; the timed model counts it from the creation.
- The verifier's return reads the shared slice without the lock while the collector may still append (cmd/etl-worker/main.go:532); the model takes the slice as it is at that instant, and does not model a torn read.
- Capstone.PerfectMatchesAreProcessed: assumes a destination that was empty before the run, source rows unchanged between the phases and unique source ids, which the tables' keys are for.
- `mu` around FileManager, and its Close, which zeroes the key.
- The batch endpoint's JSON, headers and request parsing; the single-item endpoints; an answer that is neither a response nor an error.
- Alignment.RunAlignedIffFailuresAreSuffixes: is about runs in which every row comes in an object of its own. Whether the SSIS runtime does that or passes one buffer object again and again is not part of this model; `Execute` and `EveryRowHasItsCell` hold either way.
- The SSIS component's single-row mode, configuration and messages; results with missing fields.
- Pkcs11Locks.NeverRefused: assumes FindObjectsFinal succeeds and C_Encrypt and C_Decrypt end their operation, as `Ends` says; `UnusedIffAllEnded` shows the assumption is exact.
- Pkcs11Locks.AllCallsComplete: each caller makes one call; a goroutine making several is several callers whose runs are among those considered.
- PKCS#11 slot choice, login and Close; the provider's GetKey, which always fails.
- JWT and login, AWS, Azure and stub key providers, manager selection from the environment, Excel cell writing and widths, masking helpers, SQL schemas and scripts: single-branch or presentational.
- Texts are octet or character sequences; Unicode normalisation and JSON escaping are not modelled.
