# Torrent Stream Hub: a verified model

This project models the parts of Torrent Stream Hub where a mistake loses payload bytes, downloads
what it must not, trusts data nobody verified, or deadlocks, and proves what those parts promise.
`dafny verify dfyconfig.toml` checks everything.

Concurrency is modelled as state machines. A step is one critical section, one SQL transaction or
one file-system call; a run is any sequence of steps; what other goroutines, the network, the disk
and the operator may do in between is a nondeterministic step or a step's argument. Main results
hold for every run. Objects that the program updates in place are classes whose methods are proved
equal to a specification function, and the results are proved about that function. Loops are
methods with invariants.

| part | files | what is proved |
|---|---|---|
| Runtime policy | `RuntimePolicy` | an inductive invariant over every event sequence; terminal, disk and verification latches; an event that loses eligibility always closes the payload |
| Payload gate and slots | `ManagedTorrent`, `Scheduler`, `PayloadGate`, `Text` | under every interleaving an open gate is managed and eligible, slots stay within capacity, only a valid ticket opens a gate, only the queue head gets a slot |
| Command coordinator | `Coordinator`, `KeyOrder` | mutual exclusion per key, exact reference counts, one drain, no circular wait, never stuck |
| Fast resume | `Bitmap`, `Checkpoint`, `Codec`, `CodecObjects`, `Filter`, `ResumeLedger`, `SealWorker` | the envelope codec is an exact bijection on valid checkpoints, the filter trusts exactly the vouched pieces, trust only shrinks between commits, stale commits fail, no accepted mark is lost |
| Storage move | `StorageMove`, `StorageRecovery`, `StaleRetry`, `SparseCopy` | the bytes exist at every crash point, the unlink is last, cancel leaves no trace, an interrupted move completes, and after any run with any stale writes exactly when it still does |
| Streaming | `StreamRanges`, `StreamOverlay`, `VerifiedBytes`, `Arithmetic` | the overlay's high-priority pieces are exactly the union of the files' ranges over every run; verified-byte prefix sums count exactly the verified bytes |
| Intent and deletion | `IntentAck`, `DeletionCancel` | an acknowledged revision is the one applied; a cancel of a deletion lets at most one more file go |

`Wrappers` holds the shared option type.

Two promises turned out false of the code as it stands. Each has a concrete run and the exact
condition under which it holds:

- A move is not always recoverable after a crash, because a retry writes back the journal it
  captured under a check of the stage alone. Three concrete runs end where nothing completes them:
  over a staged file (`StaleRetry.StaleRetryExample`), over a staged directory before any file
  (`StaleRetry.StaleFolderExample`), and over the copy begun when a rename crossed devices
  (`StaleRetry.StaleRenameExample`). After any run, whatever was written and wherever the process
  stopped, completion is reachable if and only if the row then describes the disk well enough:
  `StaleRetry.CrashExact`, with the condition `Recovers` stage by stage. A row without a staging
  identity, for instance, needs staging to be empty, unless a rename on one device makes it
  unnecessary. The condition has to be read at the stop: `StaleRetry.LaterWriteMatters` shows a
  write that is harmless until the worker's next.
- After a commit that is durable but reports an error, an incremental apply leaves the runtime's
  settings at no revision: `IntentAck.OutsideBreaksLiteral`, and the if-and-only-if in
  `IntentAck.IncrementalExact`. The acknowledgement itself is never wrong
  (`IntentAck.AcknowledgedIsApplied`).

The engine's `RestoreVerificationBlock` would break the overlay mirror on an eligible torrent
(`StreamOverlay.BlockBreaksMirror`). The program calls it only on a runtime it has just registered
inactive, which `RuntimePolicy.BlockedRestoreIsInactive` proves, so the mirror holds on every run of
the program; `StreamOverlay.CallsMirrorExactly` gives the exact condition for the bare methods.

## Model

| member | source | states |
|---|---|---|
| RuntimePolicy.ActivateSound | internal/engine/runtime_policy.go:114-146 | an activation that sets run, faults and disk from a phase yields a policy with no slot that meets the invariant |
| RuntimePolicy.VerifySound | internal/engine/runtime_policy.go:166-189 | every accepted verification event keeps the invariant: checking implies uncertain, a slot implies eligibility |
| RuntimePolicy.NextSound | internal/engine/runtime_policy.go:72-253 | every event, accepted or rejected, keeps the invariant |
| RuntimePolicy.RunSound | internal/engine/runtime_policy.go:72-253 | any event sequence from a policy meeting the invariant keeps it |
| RuntimePolicy.ReachableSound | internal/engine/runtime_policy.go:72-253 | every policy reachable from the zero policy meets the invariant |
| RuntimePolicy.TerminalAbsorbing | internal/engine/runtime_policy.go:76-78 | after deletion or close every later event is rejected and nothing ever changes |
| RuntimePolicy.SlotOnlyRequested | internal/engine/runtime_policy.go:208-221 | no event but a slot request turns the slot on |
| RuntimePolicy.ActivationDisk | internal/engine/runtime_policy.go:108-142 | an activation clears a disk block if and only if it reports recovery and its phase is not disk-full |
| RuntimePolicy.VerifyKeepsDisk | internal/engine/runtime_policy.go:166-189 | verification events leave the disk block and registration alone |
| RuntimePolicy.DiskClearedOnlyByRecovery | internal/engine/runtime_policy.go:84-143 | for every accepted event, the disk block ends if and only if the event is a recovered activation outside disk-full |
| RuntimePolicy.DiskLatched | internal/engine/runtime_policy.go:72-253 | along any event sequence without such an activation a disk block stays and payload stays ineligible |
| RuntimePolicy.UncertaintyEndsOnlyBySuccess | internal/engine/runtime_policy.go:166-189 | for every accepted event, uncertainty ends if and only if the event is a successful verification |
| RuntimePolicy.VerificationBlocksPayload | internal/engine/runtime_policy.go:35-43 | along any event sequence without a success, an uncertain policy admits neither payload nor upload |
| RuntimePolicy.VerificationBeginVetoes | internal/engine/runtime_policy.go:166-189 | once a verification began, nothing but its success reopens payload or upload |
| RuntimePolicy.LosingEligibilityClosesPayload | internal/engine/runtime_policy.go:143-246 | an accepted event that ends payload eligibility always orders the payload closed |
| RuntimePolicy.DownloadingIffSlot | internal/engine/runtime_policy.go:45-67 | in every reachable policy the displayed phase is downloading if and only if the slot is held |
| RuntimePolicy.RestoredHeldOff | internal/usecase/activation.go:9-48 | restoring a paused record, or one with any activation block, leaves a policy that is held off by run, disk or a fault, whatever the precedence chose to display |
| RuntimePolicy.HeldOffStays | internal/engine/runtime_policy.go:72-253 | without an activation or a successful verification such a policy stays held off and ineligible over any events |
| RuntimePolicy.BlockedRestoreIsInactive | internal/usecase/storage_migration.go:553-564 | when the restore goes on to install a verification block the payload is not eligible |
| ManagedTorrent.ApplyIsNext | internal/engine/state_transition.go:59-91 | installing a decision moves the policy by the transition function, leaves the gate alone, and advances the epoch whenever the policy changes |
| ManagedTorrent.ApplyFollows | internal/engine/state_transition.go:59-91 | it keeps the policy invariant and grants no slot unless one was requested |
| ManagedTorrent.ApplyAndCloseSound | internal/engine/quiesce.go:10-46 | applying an event and obeying its close order leaves an open gate only on an eligible policy |
| ManagedTorrent.PauseSound | internal/engine/engine.go:837-875 | pausing always ends with the gate closed, whether or not the event is accepted |
| ManagedTorrent.ResumeSound | internal/engine/engine.go:890-956 | resuming opens no gate and grants no slot by itself |
| ManagedTorrent.ActiveActivationEligible | internal/engine/restore.go:160-260 | a full activation whose projection is active leaves the payload eligible |
| ManagedTorrent.FinishRestoreSound | internal/engine/restore.go:114-260 | finishing a restore opens no gate, also when merging or activation fails |
| ManagedTorrent.ReconcileSound | internal/engine/selection.go:22-66 | observing the selection keeps the gate invariant and grants no slot |
| ManagedTorrent.ReleaseSound | internal/engine/resource_manager.go:225-235 | releasing a failed slot keeps the gate invariant and grants nothing |
| ManagedTorrent.PrioritySound | internal/engine/priority.go:24-122 | changing priorities keeps the gate invariant and always advances the epoch, so tickets taken before it are void |
| ManagedTorrent.AdmitSound | internal/engine/download_gate.go:187-266 | the second half of an admission opens a closed gate only for a still valid ticket and an eligible policy |
| ManagedTorrent.EffectSound | internal/engine/engine.go:837-1028 | every other locked section on one torrent keeps the gate invariant, grants no slot and opens no gate |
| ManagedTorrent.Managed.constructor | internal/engine/engine.go:649-792 | a new runtime has the zero policy and a closed gate |
| ManagedTorrent.Managed.InstallDecision | internal/engine/state_transition.go:59-91 | the fields after the call are the specified installation of the decision; nothing else changes |
| ManagedTorrent.Managed.ApplyStateEvent | internal/engine/state_transition.go:59-91 | fields and result are those of the pure transition, on the rejecting path too |
| ManagedTorrent.Managed.ApplyAndCloseGate | internal/engine/quiesce.go:10-46 | the object follows the section whose gate invariant ApplyAndCloseSound proves |
| ManagedTorrent.Managed.FinishAdmission | internal/engine/download_gate.go:187-266 | the object follows the section AdmitSound is about, and returns true exactly when that section admits |
| Scheduler.BeforeTotal | internal/engine/resource_manager.go:68-80 | for different hashes exactly one of two torrents comes first in the queue order |
| Scheduler.BeforeTransitive | internal/engine/resource_manager.go:68-80 | the queue order is transitive although it mixes positioned and unpositioned torrents |
| Scheduler.HeadUnique | internal/engine/resource_manager.go:189-221 | the head does not depend on the map's iteration order |
| Scheduler.SchedulerHead | internal/engine/resource_manager.go:189-221 | the scan finds the first waiting torrent of the queue order, and none if and only if nobody waits |
| Scheduler.SlotsUpdate | internal/engine/resource_manager.go:172-184 | replacing one torrent changes the slot count by exactly its own slot |
| Scheduler.SlotCount | internal/engine/resource_manager.go:172-184 | the scan counts the held slots |
| Scheduler.RequestOutcome | internal/engine/runtime_policy.go:208-221 | a slot request is granted if and only if the torrent waits and capacity is offered, and otherwise changes nothing |
| Scheduler.HeadIsNext | internal/engine/resource_manager.go:134-141 | in queue order with nobody waiting earlier, the torrent visited is the head |
| Scheduler.Visit | internal/engine/resource_manager.go:127-145 | one turn grants only below capacity, and in queue order leaves the visited torrent served while a slot is free |
| Scheduler.Pass | internal/engine/resource_manager.go:86-161 | a pass never exceeds the capacity, and one in which no holder loses its slot ends with all slots held or nobody waiting |
| PayloadGate.StepSafe | internal/engine/download_gate.go:112-266 | every locked section of every goroutine keeps: open gates and slots only on managed generations, eligible where open, within capacity |
| PayloadGate.RunSafe | internal/engine/download_gate.go:112-266 | the same over every interleaving |
| PayloadGate.OpenGateIsEligible | internal/engine/download_gate.go:187-266 | in every reachable state an open gate belongs to a managed generation whose policy is eligible |
| PayloadGate.SlotsWithinCapacity | internal/engine/resource_manager.go:131-142 | in every reachable state at most the configured number of slots is held |
| PayloadGate.RunKeepsMax | internal/engine/resource_manager.go:131-142 | no step changes the configured capacity |
| PayloadGate.ChoiceIsHead | internal/engine/resource_manager.go:189-221 | the torrent the state machine offers a slot to is exactly the head of any listing of the managed torrents |
| PayloadGate.StepEvolves | internal/engine/download_gate.go:187-266 | every step moves each generation's epoch, token and fence forward only, and opens or grants only as an admission or probe end |
| PayloadGate.GateOpensOnValidTicket | internal/engine/download_gate.go:187-266 | whenever a step opens a gate it is an admission end whose ticket still matches a managed, eligible torrent |
| PayloadGate.GrantGoesToHead | internal/engine/resource_manager.go:110-142 | whenever a step grants a slot it ends a valid probe of the queue head below capacity |
| PayloadGate.RunFollows | internal/engine/runtime_work.go:8-29 | over any run a generation's epoch, token and fence never go back |
| PayloadGate.DisturbedAdmissionNeverOpens | internal/engine/download_gate.go:187-266 | a torrent disturbed at any time while an admission was preparing is never opened by that admission, whatever happens in between |
| Coordinator.ReferenceSafe | internal/usecase/coordinator.go:49-64 | a reference, also on a closed or draining coordinator, keeps the counts exact |
| Coordinator.UnreferenceSafe | internal/usecase/coordinator.go:66-78 | an unreference keeps the counts exact, drops the entry with its last caller, and closes the drain channel at most once |
| Coordinator.StepSafe | internal/usecase/coordinator.go:49-296 | every step of every caller keeps counts, ownership and shutdown order |
| Coordinator.RunSafe | internal/usecase/coordinator.go:49-296 | the same over every interleaving |
| Coordinator.OwnerEmptiesChannel | internal/usecase/coordinator.go:91-114 | while a caller owns a key the key's permit channel is empty |
| Coordinator.OneHolderPerKey | internal/usecase/coordinator.go:80-139 | in every reachable state two owners of one key are the same call |
| Coordinator.CountsAreExact | internal/usecase/coordinator.go:49-78 | in every reachable state the total and each entry's count equal the calls in flight, and an entry exists if and only if it has callers |
| Coordinator.DrainedOnce | internal/usecase/coordinator.go:170-257 | the drain channel is closed at most once, only with admission closed, and whenever closed with no caller left; drain callers never coexist with ordinary ones |
| Coordinator.FinishIsFinal | internal/usecase/coordinator.go:287-296 | after the drain finished no caller is ever admitted again |
| Coordinator.EmptySafe | internal/usecase/coordinator.go:44-47 | the new coordinator meets the invariant |
| Coordinator.ApplicationCoordinator.constructor | internal/usecase/coordinator.go:44-47 | a new coordinator is the empty registry |
| Coordinator.ApplicationCoordinator.Reference | internal/usecase/coordinator.go:49-64 | the object takes the Reference step and finds an entry if and only if the coordinator admits the caller |
| Coordinator.ApplicationCoordinator.Unreference | internal/usecase/coordinator.go:66-78 | the object takes the Unreference step |
| Coordinator.ApplicationCoordinator.Close | internal/usecase/coordinator.go:170-187 | the object takes the Close step and is closed afterwards |
| Coordinator.ApplicationCoordinator.Finish | internal/usecase/coordinator.go:287-296 | finishing succeeds if and only if no reference is left |
| KeyOrder.SkipRepeats | internal/usecase/coordinator.go:143-165 | skipping equal neighbours of the sorted keys gives strictly increasing keys with the same members |
| KeyOrder.MoveIsStep | internal/usecase/coordinator.go:143-165 | every move of a multi-key caller is a step of the coordinator or leaves it alone |
| KeyOrder.MoveOrders | internal/usecase/coordinator.go:143-165 | every move keeps each caller's reservations a prefix of its increasing keys |
| KeyOrder.MoveSane | internal/usecase/coordinator.go:80-165 | every move keeps the coordinator invariant and the key discipline together |
| KeyOrder.RunSane | internal/usecase/coordinator.go:80-165 | the same over every interleaving |
| KeyOrder.RunsAreSane | internal/usecase/coordinator.go:80-165 | every reachable world meets both |
| KeyOrder.WantedIncreases | internal/usecase/coordinator.go:143-165 | a blocked caller wants a smaller key than the blocked caller it waits for |
| KeyOrder.BlockedByOwner | internal/usecase/coordinator.go:91-114 | a blocked caller always waits for another caller that owns its key |
| KeyOrder.NoCircularWait | internal/usecase/coordinator.go:143-165 | no chain of waiting callers of any length closes into a circle |
| KeyOrder.SomeOwnerCanMove | internal/usecase/coordinator.go:143-165 | from any blocked caller the chain of owners ends at one that is not blocked |
| KeyOrder.NeverStuck | internal/usecase/coordinator.go:143-165 | in every reachable world with a blocked caller some key owner can move |
| KeyOrder.UnwoundHoldsNothing | internal/usecase/coordinator.go:143-165 | a caller that failed or released and unwound has no reference left |
| SealWorker.StepSound | internal/fastresume/worker.go:59-171 | every mark, shutdown and worker step keeps queue and owner map in balance and within the limit |
| SealWorker.RunSound | internal/fastresume/worker.go:59-171 | the same over every interleaving |
| SealWorker.MarkIsOwed | internal/fastresume/worker.go:59-75 | an accepted mark leaves the owner queued or flagged for another seal |
| SealWorker.MarksAreServed | internal/fastresume/worker.go:138-171 | along any run an owed owner is sealed or still owed |
| SealWorker.AcceptedMarkIsServed | internal/fastresume/worker.go:59-171 | from the start, a mark accepted at any time is followed by a seal begun after it or is still owed |
| SealWorker.BatchSealsInOrder | internal/fastresume/worker.go:138-171 | the i-th seal of a batch is of the i-th owner queued at its start, so no owner is sealed twice in one batch |
| SealWorker.DrainLeavesFailures | internal/fastresume/worker.go:108-171 | during a drain an owner is queued again if and only if its seal failed, so a drain without failures ends empty |
| SealWorker.SealQueue.constructor | internal/fastresume/worker.go:50-55 | a new worker has nothing queued |
| SealWorker.SealQueue.MarkDirty | internal/fastresume/worker.go:59-75 | the object takes the mark step and returns true exactly when the mark is accepted |
| SealWorker.SealQueue.Shutdown | internal/fastresume/worker.go:82-89 | the object takes the shutdown step of the state machine, which may fall between any two sections of a batch |
| SealWorker.SealQueue.Interfere | internal/fastresume/worker.go:59-96 | marks and shutdowns while the lock is free keep the balance, the executing owner and the front of the queue, and the worker is closing exactly if it was or a shutdown arrived |
| SealWorker.SealQueue.SealHead | internal/fastresume/worker.go:152-165 | a turn seals the old head, keeps the rest in front, and requeues a failure, with marks and a shutdown arriving during the seal |
| SealWorker.SealQueue.SealNext | internal/fastresume/worker.go:143-169 | a turn of a batch seals the next owner of its start and keeps the batch's bookkeeping |
| SealWorker.SealQueue.Between | internal/fastresume/worker.go:143-151 | arrivals between two turns leave the batch where it is |
| SealWorker.SealQueue.Batch | internal/fastresume/worker.go:138-171 | under any arrivals before and during each turn, the batch seals a prefix of its starting queue in order, stops early only on cancellation or closing, seals nobody in an ordinary batch after a shutdown arrived, returns exactly the failed owners, and leaves the unreached ones in front |
| Bitmap.ValidMeansNoStrayBits | internal/fastresume/policy.go:107-112 | the shift test accepts a bitmap of the right size if and only if no bit beyond the last piece is set |
| Bitmap.ShiftedOut | internal/fastresume/policy.go:107-112 | shifting right leaves zero if and only if no higher bit is set |
| Bitmap.SamePieces | internal/fastresume/policy.go:105-112 | a bitmap is determined by its pieces |
| Checkpoint.ValidateFiles | internal/fastresume/policy.go:168-196 | the one-pass loop with running totals gives the verdict defined per file over prefixes |
| Checkpoint.AcceptedFiles | internal/fastresume/policy.go:168-196 | the files are accepted if and only if all are well placed, in order, disjoint, inside the extent, with distinct keys, within the path budget, and none is another's parent |
| Checkpoint.CatalogStep | internal/fastresume/policy.go:168-190 | a further file keeps the catalog property if and only if the loop's checks on the running end, total and keys pass |
| Checkpoint.VerdictIsSound | internal/fastresume/policy.go:155-197 | a checkpoint validates if and only if it is sound in that declarative sense |
| Codec.IntRoundTrip | internal/fastresume/codec.go:72-78 | an int64 survives little-endian encoding and decoding, negative values included |
| Codec.IntBytes | internal/fastresume/codec.go:72-78 | every eight bytes are the encoding of the integer they decode to |
| Codec.ReadsText | internal/fastresume/codec.go:79-90 | reading a written text within the limit gives it back and leaves exactly what follows |
| Codec.TextWasRead | internal/fastresume/codec.go:79-90 | a text read without error had exactly its encoding in front, and was within the limit |
| Codec.ReadsFile | internal/fastresume/codec.go:126-141 | reading a written file record gives it back |
| Codec.FileWasRead | internal/fastresume/codec.go:126-141 | a record read with a zero or one presence flag had exactly its encoding in front |
| Codec.ReadsFiles | internal/fastresume/codec.go:124-141 | reading the written files within the shrinking path budget gives them all back |
| Codec.FilesWereRead | internal/fastresume/codec.go:124-141 | files read without error had exactly their encodings in front |
| Codec.DecodeEncode | internal/fastresume/codec.go:20-154 | decoding what was encoded gives the checkpoint back, for every checkpoint that encodes |
| Codec.EncodeDecode | internal/fastresume/codec.go:20-154 | encoding what was decoded gives the same bytes back, for all input bytes that decode: no second encoding exists |
| CodecObjects.Encoder.constructor | internal/fastresume/codec.go:12-24 | the buffer starts with the given bytes |
| CodecObjects.Encoder.Integer | internal/fastresume/codec.go:14-14 | appends the encoding of an int64 and nothing else |
| CodecObjects.Encoder.Str | internal/fastresume/codec.go:15-18 | appends a length-prefixed text and nothing else |
| CodecObjects.Encoder.Integers | internal/fastresume/codec.go:32-34 | the loop appends the integers in order |
| CodecObjects.Encoder.Strs | internal/fastresume/codec.go:29-31 | the loop appends the texts in order |
| CodecObjects.Encoder.WriteFile | internal/fastresume/codec.go:35-47 | appends one file record |
| CodecObjects.Encoder.WriteFiles | internal/fastresume/codec.go:35-47 | the loop appends the records in order |
| CodecObjects.EncodeCheckpoint | internal/fastresume/codec.go:20-53 | the imperative encoder returns the specified bytes, or the validation or budget error |
| CodecObjects.Decoder.constructor | internal/fastresume/codec.go:55-58 | the decoder starts on all bytes without an error |
| CodecObjects.Decoder.Next | internal/fastresume/codec.go:60-71 | takes n bytes, or sets the sticky error and takes none |
| CodecObjects.Decoder.Integer | internal/fastresume/codec.go:72-78 | reads an int64, zero after an error |
| CodecObjects.Decoder.Str | internal/fastresume/codec.go:79-90 | reads a text within the limit, empty after an error |
| CodecObjects.Decoder.Integers | internal/fastresume/codec.go:100-110 | the loop reads the integers in order |
| CodecObjects.Decoder.Strs | internal/fastresume/codec.go:102-104 | the loop reads the texts in order, each with its own limit |
| CodecObjects.Decoder.Files | internal/fastresume/codec.go:124-141 | the loop reads the specified records or fails with the specified error |
| CodecObjects.ReadRecords | internal/fastresume/codec.go:124-141 | the loop with a running path total refines the recursive reader, error precedence included |
| CodecObjects.DecodeCheckpoint | internal/fastresume/codec.go:92-154 | the imperative decoder returns the specified checkpoint or error on every input |
| CodecObjects.DecodeRest | internal/fastresume/codec.go:100-154 | after magic and schema it refines the specified decoder |
| CodecObjects.DecodeFilesAndPieces | internal/fastresume/codec.go:124-154 | files, bitmap, trailing-byte check and validation refine the specification |
| Filter.PieceRange | internal/fastresume/policy.go:270-279 | the two divisions delimit exactly the pieces sharing a byte with the file |
| Filter.LastPieceInRange | internal/fastresume/policy.go:270-279 | a file inside the extent ends inside the bitmap |
| Filter.ClearFilePieces | internal/fastresume/policy.go:270-279 | in place, exactly the pieces overlapping the file are cleared and every other bit stays |
| Filter.DropChangedFiles | internal/fastresume/policy.go:260-266 | exactly the pieces overlapping a changed file are cleared, and a change is reported if and only if there is one |
| Filter.Revoke | internal/fastresume/policy.go:254-259 | exactly the revoked pieces are cleared, and a revocation is reported if and only if it hit a saved piece |
| Filter.StrayBitsStayClear | internal/fastresume/policy.go:107-112 | a bitmap narrowed from a valid one is valid |
| Filter.Filter | internal/fastresume/policy.go:224-268 | a candidate piece is trusted if and only if it was saved, not revoked, and touched only by intact files; every rejection and reason is exact |
| ResumeLedger.CodecIsLawful | internal/repository/resume.go:209-223 | the ledger's laws about encoding hold of the envelope codec |
| ResumeLedger.RevokedBits | internal/repository/resume.go:356-361 | the byte loop adds exactly the masked pieces that were saved |
| ResumeLedger.ChangesMeansNewlyRevoked | internal/repository/resume.go:356-361 | a change is seen if and only if some saved piece is newly revoked |
| ResumeLedger.RevokeBits | internal/repository/resume.go:356-361 | the loop computes both |
| ResumeLedger.RevokedStaysWithin | internal/repository/resume.go:356-361 | revoked pieces stay a subset of the saved ones and a valid bitmap |
| ResumeLedger.StepSound | internal/repository/resume.go:135-402 | every transaction and trigger keeps head and row consistent: the row decodes, belongs to the head's token, and passes its digest |
| ResumeLedger.RunSound | internal/repository/resume.go:135-402 | the same over every run |
| ResumeLedger.LoadNeverReportsDamage | internal/repository/resume.go:227-268 | on every reachable ledger a load fails if and only if record or revision differ from the head, and then with a conflict, never with damage |
| ResumeLedger.TrustOnlyShrinks | internal/repository/resume.go:135-402 | no step but a successful commit makes a piece trusted |
| ResumeLedger.TrustShrinksBetweenCommits | internal/repository/resume.go:135-402 | over any run without a successful commit the trusted pieces only shrink |
| ResumeLedger.CommitTrustsItsPieces | internal/repository/resume.go:283-321 | after a successful commit exactly the checkpoint's pieces are trusted |
| ResumeLedger.RevokeIsEffective | internal/repository/resume.go:325-377 | after a successful revoke no masked piece is trusted |
| ResumeLedger.EffectRaisesEpoch | internal/repository/migrations/0020_resume_checkpoints.sql:1-42 | a step raises the mutation epoch if and only if it disturbs the ledger |
| ResumeLedger.EpochRises | internal/repository/migrations/0021_resume_mutation_fences.sql:1-21 | over any run the epoch never falls, rises if anything disturbed, and otherwise nothing changed at all |
| ResumeLedger.StaleCommitFails | internal/repository/resume.go:270-321 | a commit with a token captured before a disturbing step fails and changes nothing; undisturbed, it does what it would have done at once |
| ResumeLedger.WhatDisturbs | internal/repository/resume.go:135-402 | which steps disturb: every barrier, every invalidation, a capture of another record or revision, a revoke that hits a trusted piece |
| ResumeLedger.ResumeStore.constructor | internal/repository/resume.go:117-133 | a new owner has no head |
| ResumeLedger.ResumeStore.CaptureResume | internal/repository/resume.go:135-164 | the object takes the capture transaction, with its outcome |
| ResumeLedger.ResumeStore.CommitResume | internal/repository/resume.go:283-321 | the object takes the commit transaction, with its outcome |
| ResumeLedger.ResumeStore.RevokeResume | internal/repository/resume.go:325-377 | the object takes the revoke transaction, with its outcome |
| ResumeLedger.ResumeStore.InvalidateResume | internal/repository/resume.go:381-402 | the object takes the invalidate transaction, with its outcome |
| ResumeLedger.ResumeStore.InvalidateResumeMutation | internal/repository/resume_mutation.go:63-97 | the object takes the barrier step |
| ResumeLedger.ResumeStore.PendingPieces | internal/repository/resume_mutation.go:150-161 | the hooks' pending bitmap holds exactly the trusted pieces |
| StorageMove.StepSafe | internal/usecase/storage_move.go:29-157 | every worker action, command, crash and engine write keeps the payload where the durable stage says it is |
| StorageMove.RunSafe | internal/usecase/storage_move.go:29-497 | the same over every run |
| StorageMove.BytesAlwaysExist | internal/usecase/storage_move.go:228-473 | after every run, stopped anywhere, every file's bytes exist under source, quarantine or target, and in full where the mapping points |
| StorageMove.NoStepDropsBytes | internal/usecase/storage_move.go:228-473 | no step but the engine's own write makes bytes under a source, quarantine or target name disappear from all three |
| StorageMove.UnlinkIsLast | internal/usecase/storage_move.go:389-404 | whenever the unlink acts, the mapping already points at a target that holds the same bytes |
| StorageMove.DeparturesKept | internal/usecase/storage_move.go:228-473 | a file that leaves the source is the same file in quarantine or target |
| StorageMove.OnlyUnlinkRemoves | internal/usecase/storage_move.go:360-416 | only the unlink takes a file out of quarantine, and only quarantine or the directory move takes one out of the source |
| StorageMove.LateStep | internal/usecase/storage_commands.go:199-243 | no step leads from publishing or later back to an earlier stage |
| StorageMove.LateForever | internal/usecase/storage_commands.go:199-243 | the same over every run |
| StorageMove.CancelLeavesNoTrace | internal/usecase/storage_move.go:475-497 | a run that ends cancelled or earlier never had a target, a quarantine or a moved mapping, its source held the payload throughout, and without engine writes is exactly as it was |
| StorageMove.NoCancelOncePublishing | internal/usecase/storage_commands.go:199-243 | once publishing began no cancel, however stale, has any effect |
| StorageMove.RecoveryRow.constructor | internal/repository/storage_operations.go:20-65 | a new row of a planned operation on an undamaged source is a state from which every run is safe |
| StorageMove.RecoveryRow.WorkerTransition | internal/usecase/storage_commands.go:25-42 | built on the swap it is the state machine's worker transition, the refused case included |
| StorageMove.RecoveryRow.SubmitCommand | internal/usecase/storage_commands.go:199-243 | built on the swap it is the state machine's submit step, stale commands included, and keeps the payload safe |
| StorageMove.RecoveryRow.CommitMapping | internal/repository/storage_operations.go:141-181 | it is the state machine's commit step: stage and mapping change together on a published row with a valid target, and the payload stays safe |
| StorageRecovery.StepSound | internal/usecase/storage_move_copy.go:18-201 | every step with current commands keeps the durable journal in agreement with the disk, whichever write was the last to become durable |
| StorageRecovery.RunSound | internal/usecase/storage_move_copy.go:18-201 | the same over every run |
| StorageRecovery.RemoveEntries | internal/usecase/storage_move.go:360-419 | the removal loop ends with every planned file removed and recorded, is a run of the state machine, and leaves the target untouched |
| StorageRecovery.SweepAll | internal/usecase/storage_move.go:360-419 | from any interrupted removal there is a run that finishes it |
| StorageRecovery.CreateAll | internal/usecase/storage_move_copy.go:52-100 | from any interrupted creation of copies there is a run that creates the rest |
| StorageRecovery.FillAll | internal/usecase/storage_move_copy.go:101-112 | from any partly written copies there is a run that completes them |
| StorageRecovery.CopyCompletes | internal/usecase/storage_move_copy.go:18-121 | a restarted copy can always reach a verified staging directory |
| StorageRecovery.FromCopying | internal/usecase/storage_move.go:96-103 | a restart in copying can be carried to completion |
| StorageRecovery.FromPublishing | internal/usecase/storage_move.go:228-301 | a restart in publishing can be carried to completion, with the target there or not, and whether or not a rename crosses devices |
| StorageRecovery.FromRefusedRename | internal/usecase/storage_move.go:288-295 | a rename refused across devices goes on as a copy that can be carried to completion |
| StorageRecovery.FromPublished | internal/usecase/storage_move.go:111-125 | a restart in published can be carried to completion |
| StorageRecovery.FromCommitted | internal/usecase/storage_move.go:126-129 | a restart in committed can be carried to completion |
| StorageRecovery.FromCleanup | internal/usecase/storage_move.go:317-473 | a restart in cleanup can be carried to completion, wherever the removal stopped |
| StorageRecovery.FromPrepared | internal/usecase/storage_move.go:61-95 | a restart in prepared on an intact source can be carried to completion, by rename, by copy, or by a copy after a rename that crossed devices |
| StorageRecovery.FromWaiting | internal/usecase/storage_move.go:29-60 | the same from waiting for readers |
| StorageRecovery.FromQueued | internal/usecase/storage_move.go:29-60 | the same from queued |
| StorageRecovery.RestartCompletes | internal/usecase/storage_worker.go:54-128 | from every agreeing state of a move under way, with the recorded source intact before copying, a crash and a retry can be followed to the end on one device or across two: mapping moved, source gone |
| StorageRecovery.InterruptedMoveCompletes | internal/usecase/storage_worker.go:54-128 | after any run from a planned operation without stale writes, completion is reachable from every stage, on one device or across two, before copying if the source is the recorded one |
| StaleRetry.StepCore | internal/usecase/storage_move.go:29-473 | every step, stale writes included, keeps what row and worker say true of the disk |
| StaleRetry.JournalStays | internal/usecase/storage_commands.go:25-42 | a journal that is true stays true through every step of the same stage, whoever holds it |
| StaleRetry.StepTruthful | internal/usecase/storage_commands.go:25-42 | every step keeps every journal in circulation, captured ones included, true of the disk |
| StaleRetry.RunTruthful | internal/usecase/storage_commands.go:25-42 | the same over every run, with any number of stale writes |
| StaleRetry.CopyingExact | internal/usecase/storage_move_copy.go:123-201 | a true copying journal agrees with the disk if and only if it names a staging directory with anything below it, files or directories, and every staged file with bytes |
| StaleRetry.PublishingExact | internal/usecase/storage_move.go:251-269 | while publishing a copy without a target: if and only if a complete copy is as recorded, or an incomplete one has its staging directory and all its files with bytes recorded |
| StaleRetry.LandedExact | internal/usecase/storage_move.go:229-248 | with a target there, a publishing journal agrees with the disk if and only if it describes that target |
| StaleRetry.CleanupExact | internal/usecase/storage_move.go:333-356 | a cleanup journal agrees with the disk if and only if the source is gone or its quarantine is usable |
| StaleRetry.StuckForever | internal/usecase/storage_move_copy.go:123-201 | a cancelled operation, or one where every journal anybody holds misses the disk, never completes, whatever is tried; a rename row that must fall back over an occupied staging directory is one |
| StaleRetry.GoesOn | internal/usecase/storage_worker.go:54-128 | a stopped operation whose row meets the condition can be carried to completion |
| StaleRetry.CrashExact | internal/usecase/storage_worker.go:54-128 | after any run from a planned operation, at every pending stage: once the process stops, completion is reachable if and only if the stage's condition holds of row and disk, such as an intact source before copying, known or empty staging while copying, a target the row describes, a usable quarantine in cleanup |
| StaleRetry.StaleWriteExact | internal/usecase/storage_commands.go:199-243 | a command writes its captured journal back, the worker goes on without writing the row, the process stops: completion is reachable if and only if that journal meets the condition on the disk at the stop |
| StaleRetry.StaleRetryExample | internal/usecase/storage_commands.go:219-227 | a concrete run with one staged file after which nothing completes the operation |
| StaleRetry.StaleFolderExample | internal/usecase/storage_move_copy.go:41-51 | the same with only a directory below staging |
| StaleRetry.StaleRenameExample | internal/usecase/storage_move.go:288-295 | the same for a retry that says rename, put back after the rename crossed devices and a copy was begun |
| StaleRetry.LaterWriteMatters | internal/usecase/storage_move_copy.go:96-112 | a retry that meets the condition when it is written and not after the worker's next byte |
| SparseCopy.OpenFile.constructor | internal/usecase/storage_move_copy.go:203-242 | an opened copy has the bytes found on disk and the offset at its start |
| SparseCopy.OpenFile.Truncate | internal/usecase/storage_move_copy.go:263-308 | cuts or zero-extends to the length and leaves the offset |
| SparseCopy.OpenFile.Skip | internal/usecase/storage_move_copy.go:284-286 | moves the offset and writes nothing |
| SparseCopy.OpenFile.Write | internal/usecase/storage_move_copy.go:286-288 | overwrites at the offset, filling a gap with zeros, and advances |
| SparseCopy.IsPrefix | internal/usecase/storage_move_copy.go:246-262 | the chunked comparison is true if and only if the copy holds a prefix of the source |
| SparseCopy.HoleFilled | internal/usecase/storage_move_copy.go:277-309 | skipping a chunk of zeros and extending later reads back as that chunk |
| SparseCopy.CopyFile | internal/usecase/storage_move_copy.go:243-312 | the copy ends byte for byte equal to the source, holes and trailing zeros included |
| StreamRanges.Sort | internal/engine/stream.go:885-890 | sorted by begin and end with the same ranges |
| StreamRanges.Merge | internal/engine/stream.go:872-903 | disjoint, separated, ordered ranges covering exactly the same pieces |
| StreamRanges.MergeSorted | internal/engine/stream.go:891-903 | the same for the loop over sorted ranges |
| StreamRanges.Contains | internal/engine/stream.go:905-912 | true if and only if some range covers the piece |
| StreamRanges.Window | internal/engine/stream.go:792-843 | covers exactly head, tail and play regions clipped to the file, and nothing for degenerate bounds |
| StreamRanges.WindowCoversPlayhead | internal/engine/stream.go:845-870 | every byte of the sliding window lies in a piece of the play region |
| StreamOverlay.RefreshMirrors | internal/engine/stream.go:602-657 | a refresh leaves the high-priority pieces exactly the union of the files' applied ranges |
| StreamOverlay.ClearExact | internal/engine/stream.go:665-699 | clearing a file keeps the mirror if and only if the runtime is eligible, the file held nothing, or no other file holds anything |
| StreamOverlay.StepMirrors | internal/engine/stream.go:346-699 | every operation of the program keeps the mirror |
| StreamOverlay.StepMirrorsExactly | internal/engine/stream.go:346-699 | any step keeps the mirror if and only if it is not a losing clear |
| StreamOverlay.RunMirrors | internal/engine/stream.go:346-699 | the mirror over every run of the program |
| StreamOverlay.NeighbourKeepsPieces | internal/engine/stream.go:496-545 | removing a session never takes a piece another file of the torrent still wants |
| StreamOverlay.StepCounted | internal/engine/stream.go:346-545 | stream and preload counters equal the sessions of each kind after every step |
| StreamOverlay.ClearedFilesAreIdle | internal/engine/stream.go:553-588 | whenever a clear acts on a file the file has no session |
| StreamOverlay.BlockBreaksMirror | internal/engine/observations.go:31-49 | about the bare engine method: a state after a block on an eligible torrent in which a removal breaks the mirror |
| StreamOverlay.BareBlockLeadsThere | internal/engine/observations.go:31-49 | two adds and the bare method lead to that state; the program makes no such call |
| StreamOverlay.CallsMirrorExactly | internal/engine/stream.go:346-699 | over any calls of the engine methods the mirror holds throughout if and only if no call is a losing clear |
| StreamOverlay.StreamManager.constructor | internal/engine/stream.go:91-97 | a new manager holds nothing |
| StreamOverlay.StreamManager.RefreshTorrentOverlay | internal/engine/stream.go:602-657 | the object takes the refresh |
| StreamOverlay.StreamManager.AddSession | internal/engine/stream.go:346-416 | the object takes the add and returns the new session's identifier |
| StreamOverlay.StreamManager.ClearStreamOverlay | internal/engine/stream.go:665-699 | the object takes the clear |
| StreamOverlay.StreamManager.RemoveSession | internal/engine/stream.go:496-545 | the object takes the removal, debounced or not |
| StreamOverlay.StreamManager.ExpireDebounce | internal/engine/stream.go:578-588 | a timer acts only on the state and version it was set for |
| StreamOverlay.RecomputeAll | internal/engine/stream.go:602-657 | the loop over files yields the recomputed states and the unions before and after |
| IntentAck.StepSound | internal/usecase/intent_command.go:14-46 | every step of commands, binds, observations and crashes keeps acknowledged settings equal to the acknowledged revision |
| IntentAck.RunSound | internal/usecase/intent_command.go:14-46 | the same over every run |
| IntentAck.AcknowledgedIsApplied | internal/engine/observations.go:83-142 | in every reachable state a runtime that acknowledges the latest revision has exactly its settings |
| IntentAck.SavedObservationIsTrue | internal/repository/intent.go:109-144 | a saved observation that claims the latest revision carries its settings |
| IntentAck.StillBehind | internal/usecase/observations.go:35-44 | an incremental step never raises the acknowledgement of a runtime that missed a revision |
| IntentAck.NeverAcknowledgedIncrementally | internal/usecase/observations.go:35-44 | no run of incremental commands lets such a runtime acknowledge again |
| IntentAck.IncrementalExact | internal/usecase/observations.go:35-44 | an incremental apply keeps settings equal to the acknowledged revision if and only if the runtime was bound to the latest revision or the value was already set |
| IntentAck.NoGapStep | internal/usecase/intent_command.go:14-46 | without revisions that no command applied, every step keeps the runtime without a gap |
| IntentAck.LiteralAtRest | internal/usecase/intent_command.go:14-46 | then, whenever no command is in progress, settings equal the acknowledged revision |
| IntentAck.OutsideBreaksLiteral | internal/usecase/intent_command.go:16-22 | a concrete run in which a durable commit that reported an error breaks that equality |
| DeletionCancel.StepSound | internal/usecase/temporary_files.go:233-297 | every statement, unlink, cancel and crash keeps stage, removal mark and files consistent |
| DeletionCancel.RunSound | internal/usecase/temporary_files.go:233-297 | the same over every run |
| DeletionCancel.CancelStopsDeletion | internal/usecase/deletion_recovery.go:77-98 | after a cancel request the record stays, the request stays, and over all later steps at most one more file goes |
| DeletionCancel.RemovalIsRecorded | internal/repository/recovery.go:138-153 | once any file went the row says so, and a record is deleted only after all its owned files are gone |
| DeletionCancel.StepRemoves | internal/usecase/temporary_files.go:267-292 | files removed and files left add up, and only owned files go |
| DeletionCancel.OnlyOwnedFilesGo | internal/usecase/temporary_files.go:267-292 | the same over every run |
| DeletionCancel.CancelAfterGateLosesOne | internal/repository/recovery.go:75-88 | the bound is sharp: a cancel between gate and unlink loses one file |
| DeletionCancel.RemoveOwned | internal/usecase/temporary_files.go:267-292 | the loop removes exactly the owned files before the first refused gate and reports whether any was there |
| VerifiedBytes.CountInRun | internal/engine/progress.go:11-41 | inside a run the count grows by every byte or by none |
| VerifiedBytes.Build | internal/engine/progress.go:16-26 | each interval carries the count up to its start, and the total is the count of all pieces |
| VerifiedBytes.Search | internal/engine/progress.go:31-34 | the binary search finds the first interval ending at or after the position |
| VerifiedBytes.Prefix | internal/engine/progress.go:11-41 | the looked-up value is the number of verified bytes before the position, for every position |
| VerifiedBytes.DifferenceCounts | internal/engine/progress.go:27-40 | a difference of two prefixes is the number of verified bytes between them |
| VerifiedBytes.DifferenceBounds | internal/engine/progress.go:27-40 | it is between zero and the distance, and the distance if and only if every byte is verified |
| VerifiedBytes.FileCompleteExactly | internal/engine/selection.go:30-46 | a file's difference equals its length if and only if all pieces it touches are verified |
| VerifiedBytes.ObserveSelection | internal/engine/selection.go:30-46 | selection and payload are reported complete if and only if every selected, respectively every, file is |
| VerifiedBytes.Continuous | internal/engine/cache_emul.go:99-129 | the result is a solid stretch that ends at the file's end or at an incomplete piece, zero on degenerate input |
| VerifiedBytes.Window | internal/engine/cache_emul.go:99-129 | over piece runs it is the largest verified stretch ahead of the offset |
| VerifiedBytes.LargestWindow | internal/engine/cache_emul.go:99-129 | a stretch ahead is fully verified by the prefix sums if and only if it is within that window |

## Left out

- HTTP, SSE and UI delivery, configuration, metadata fetching, logging, the compatibility API: not modelled, they would add only easy members.
- The BitTorrent library, SQLite and the operating system: their calls are steps with the promised effect; write-back loss before a sync and reuse of file identities are not modelled.
- Wall-clock timeouts, tickers and contexts: a step may find its context done at any time instead.
- Counters (policy epochs, slot tokens, versions, fences) are unbounded and attachment tokens are counted up; the ledger's explicit limit at the largest int64 is modelled.
- Digests are taken to identify contents; in the ledger only that the digest is a function of its input is used.
- The upload gate: only its eligibility is modelled, in the runtime policy.
- Storage move: planning, the locate variant, a source that does not exist, unmapped files that are retained, claims, volumes, free space and owner-marker files are not modelled, so completion is up to their answers; staging is taken to be on the target's device, as its path beside the target makes it; one operation version is followed, and the worker's actions within a stage are unordered steps on values rather than in-place updates, so the batches of 64 entries are not distinguished.
- Coordinator: acquire, tryAcquire and drain acquire are steps on values; only the sections under the registry mutex are an object.
- Path rules of the layout (cleaning, collision keys, parents) are parameters of checkpoint validation, constrained by nothing.
- Resume ledger: one storage owner is followed; whether the ownership and durability fence admits a transaction is an input, and the SQL triggers are one barrier step.
- Stream overlay: one live torrent is followed; closing all streams, rollback of a failed add and the older remove call are not modelled, and piece priorities are only high or not.
- Intent: attaching a runtime fence and binding it are one step.
- Deletion: stopping the runtime, ownership and volume checks and pruning of empty directories are not modelled.
- Scheduler.Pass: says nothing about waiting torrents when reconciliation takes a slot away during the pass, because the freed slot is offered only at the next pass.
- Completion LRU, peer priority, folder naming and legacy recovery are not modelled.
