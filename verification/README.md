# The agent's durable delivery path, modelled and proved

This project models how the agent keeps what it collects until the backend has taken
it: two crash-recovering spools, the move of a version 1 metrics spool to a version 2
scope, the hand-off from a log reader through its checkpoint to the logs spool and the
delivery worker, and, around them, the capability manager, the bounded sender and the
splitting of a metrics snapshot into request bodies.

`dafny verify dfyconfig.toml` checks everything.

## How the model is built

**Storage.** `Storage.Directory` is a directory as a crash sees it: the list of views it
has had since its last directory fsync, each file as last written and as last made
durable.  Every system call may fail, the machine may stop in any of them, and a crash
keeps one of the views.  A file that was not fsynced may come back torn; torn bytes
never decode.  Every durable write of the agent is a chain of these calls, so "cut
anywhere" below means between or inside any two of them.  A ghost count of the calls that
failed, here, in `Reader.Link` and in `Lifecycle.Manager`, lets every operation say when it
must succeed: what fails for no reason of its own fails because a call did.

**The logs spool.** `LogSpool` says which directory images runs can leave and which queue
each denotes (a complete stage counts as done, a torn one as not begun); `LogRecovery`
and `LogDisk` are the opening and the operations; `LogRuns` is whole runs.

**The hand-off.** `Handoff` is a state machine over one stream (a tailed file or the
journal) with arbitrary other streams: the queue, the reader's progress as a ledger of
byte ranges, its entry in the checkpoint table, the durable checkpoint, the group it
committed last and may offer again, the worker, and everything the remote ingested, with
what each record says.
`HandoffRuns` states what every run guarantees, `HandoffOvertake` exactly when order can
be lost; `Reader.Link` lets the imperative tailer and journal reader take only legal
steps, with other streams and the worker interleaved before each.  `CheckpointFile` shows
that a checkpoint save has happened or has not, and is never torn; `SpoolRefinement` that
the spool on disk carries out the hand-off's queue, and `LogDelivery` is the worker that
drains it while readers go on using it.

**The metrics spool.** `MetricSpool`, `MetricAccounts`, `MetricMigration`,
`MetricOpening` and `MetricDisk` do the same for the metrics queue and its migration;
`MetricRuns` is whole runs of the spool, `MetricDelivery` the two loops around it by
record numbers, and `MetricDeliveryRuns` carries those over to the directory.

Several invariants are written as a quantifier over a key (`Keys`): that only keeps the
verifier from unfolding them everywhere.

## What turned out not to hold

Each of these is proved, with the exact condition or a concrete case, and the code is
modelled as it is.

- The head of the logs queue moves between a peek and its acknowledgement exactly when an
  older record is activated in between (`LogQueue.HeadAfterActivate`, `LogQueue.HeadMoves`).
  The acknowledgement of what the remote took is then refused, and delivery stops until the
  agent is restarted (`LogDelivery.HeadKeptIff`, `LogDelivery.LogWorker.DeliverOne`,
  `HandoffRuns.AckRefusedRun`).
- A checkpoint that replaces one whose record is still unready strands that record: after
  that no run makes it deliverable (`HandoffRuns.SaveRecoverableIff`,
  `HandoffRuns.StrandingRun`, `HandoffRuns.StrandedForever`).
- In multiline mode a committed group whose activation failed is kept and offered again.
  An acknowledged record can so be admitted and delivered a second time, exactly when it
  is the group stuck, and a group that has grown is admitted under a new identity that
  covers its committed bytes again (`HandoffRuns.AckedOnce`, `HandoffRuns.SecondOfferAdds`,
  `HandoffRuns.SecondDelivery`).
- Order within a generation is lost when a generation is begun, or a file reopened, before
  a left-over admission with something admissible in between, or away from the durable
  checkpoint; the condition on queue and offset is exact (`HandoffOvertake.OrderKeptIff`,
  `HandoffOvertake.MisalignedRun`).
- An oversize line in multiline mode moves the durable checkpoint past the group held; a
  restart then loses the group for good (`HandoffLoss.OverrunThenRestartLoses`,
  `HandoffLoss.PassedIsLost`).
- A file discovered with fewer than 256 bytes that grows is taken for another file at the
  next start, and `start_at=end` then passes over what was appended since the checkpoint
  (`Discovery.ResumesIff`).
- A logs record that rots while its complete activation is staged is kept aside, and then
  no opening succeeds: the activation names no record any more (`LogRuns.OrphanedByRot`;
  the contract of `LogDisk.LogDisk.Open` excludes success there).
- Logs records kept aside leave the budget but not the bound on entries, so a spool within
  its budget can be refused for too many entries (`LogRuns.AsideKeepsEntry`); the metrics
  spool cannot (`MetricOpening.FewEntries`).
- Only the metrics spool guards its last sequence: a logs admission of the last one leaves a
  directory that no opening accepts (`LogRuns.PutOpensIff`, `LogDisk.LogDisk.Open`).
- Payloads are bounded before they are normalized; a record that normalization makes longer
  than 5 MiB is stored, and then no opening succeeds (`LogRuns.PutReadableIff`,
  `MetricRuns.PutReadableIff`, and the contracts of both `Open`).
- A journalled move of a version 1 metrics spool can be finished if and only if the control
  file is there.  A directory with the backup only can be moved, but if the agent stops once
  the journal is durable, no later opening finishes the move or opens the spool
  (`MetricOpening.MoveFinishesIff`, `MetricOpening.HalfwayReached`).
- A version 1 metrics directory that holds nothing but a stage never opens, and a version 1
  spool whose control copies differ is never moved; a version 2 spool refuses any pending
  stage, complete or torn (`MetricOpening.Explains`, in the contract of
  `MetricDisk.MetricDisk.Open`: each of these refusals says exactly that, and success
  excludes it).
- An overlong journal entry is never passed, so a reader that meets one stays before it
  (`Journal.JournalReader.Consume`).
- A metrics response whose `data` is null hides the points its outer object rejects, and the
  batch counts as accepted (`Sender.RejectionOverlookedIff`).

## Model

| member | source | states |
|---|---|---|
| `Storage.StagedSurvivors` | internal/queue/logs_disk_linux.go:502-517 | while a stage is being filled, a crash leaves everything else as it was and the stage absent, torn or whole |
| `Storage.SettledSurvivor` | internal/queue/logs_disk_linux.go:566-573 | a directory at rest comes back from a crash in exactly one way |
| `Storage.Directory.Fill` | internal/queue/logs_disk_linux.go:502-517 | create, write, fsync of a stage: complete on success, and every crash in between leaves only the stage unsettled |
| `Storage.Directory.Commit` | internal/queue/logs_disk_linux.go:518-521 | rename and directory fsync: a crash keeps what could survive before, or the moved image, and success leaves only the latter |
| `Storage.Directory.Drop` | internal/queue/logs_disk_linux.go:440-446 | unlink and directory fsync: a crash keeps the file or loses exactly that file |
| `Storage.Directory.Replace` | internal/queue/logs_disk_linux.go:523-565 | the whole replacement chain, cut anywhere, leaves the old target, a stage beside it, or the new target |
| `CheckpointFile.CheckpointFile.Save` | internal/logtail/tailer_linux.go:497-524 | a save that succeeds is the only checkpoint a crash can leave; one that fails has happened or not; later saves may follow failed ones |
| `CheckpointFile.LoadsWhole` | internal/journaltail/reader_linux.go:308-334 | whatever survives a crash loads as one of the saved checkpoints, never torn |
| `SpoolAccounts.TotalChange` | internal/queue/disk_linux.go:386-388 | changing the charge of one record changes the total by the difference |
| `SpoolAccounts.CountMembers` | internal/queue/logs_disk_linux.go:142-143 | counting records by number counts the set of them |
| `SpoolAccounts.ChargeBlocks` | internal/queue/disk_linux.go:50 | a file is charged the least number of whole 4096-byte blocks that hold it |
| `SpoolNames.NamesInOrder` | internal/queue/disk_linux.go:195 | zero-padded names sort as strings exactly as their numbers do, and differ when those do |
| `SpoolNames.TwentyDigits` | internal/queue/disk_linux.go:304 | twenty digits hold every 64-bit sequence |
| `SpoolNames.IncreasingUnique` | internal/queue/disk_linux.go:195 | a sorted name list is determined by its members |
| `SpoolNames.InsertIncreasing` | internal/queue/logs_disk_linux.go:364-365 | appending a name and sorting keeps the list strictly sorted |
| `LogQueue.ActivateNumber` | internal/queue/logs_disk_linux.go:333-371 | activation changes its own record only, and repeating it changes nothing |
| `LogQueue.HeadAfterActivate` | internal/queue/logs_disk_linux.go:364-365 | the head stays the head if and only if the activated record is not older |
| `LogQueue.HeadMoves` | internal/queue/logs_disk_linux.go:428-430 | a queue whose head moves between a peek and its acknowledgement exists |
| `LogSpool.LogicalSound` | internal/queue/logs_disk_linux.go:137-139 | the queue an image denotes holds each identity once, under numbers already given out |
| `LogSpool.PutCutSafe` | internal/queue/logs_disk_linux.go:317-330 | an admission cut anywhere has happened, has only used up its number, or has not begun |
| `LogSpool.ActivateCutSafe` | internal/queue/logs_disk_linux.go:350-371 | an activation cut anywhere, also while a failed admission is still staged, has happened or has not begun |
| `LogSpool.AckCutSafe` | internal/queue/logs_disk_linux.go:440-452 | an acknowledgement cut anywhere has happened or has not begun |
| `LogSpool.RotSafe` | internal/queue/logs_disk_linux.go:471-481 | a record that stops decoding, at any moment, is lost alone; it orphans a staged activation if and only if that names the record |
| `LogRecovery.ManifestRecovered` | internal/queue/logs_disk_linux.go:166-201 | finishing a control replacement keeps the queue, and is refused exactly when its stage is torn |
| `LogRecovery.PendingRecovered` | internal/queue/logs_disk_linux.go:206-241 | finishing an admission keeps the queue the image denoted, and is refused exactly when its stage is torn or unreadable |
| `LogRecovery.ActivationMoved` | internal/queue/logs_disk_linux.go:250-281 | finishing an activation keeps the queue the image denoted and leaves the spool at rest |
| `LogRecovery.FreshManifest` | internal/queue/logs_disk_linux.go:98-103 | the first control file of a new directory, cut anywhere, denotes the empty queue |
| `LogDisk.IndexUnique` | internal/queue/logs_disk_linux.go:117-152 | while no record is rotten, names and admission map are a function of the directory, so reopening rebuilds those in memory |
| `LogDisk.BudgetBound` | internal/queue/logs_disk_linux.go:313-329 | bytes are an upper bound of reserve plus charges and never exceed the budget; count is the number of record files and of admissions |
| `LogDisk.ReopenNeverRaises` | internal/queue/logs_disk_linux.go:117-154 | a spool at rest that is opened again counts no more bytes than it did before |
| `LogDisk.PutGood` | internal/queue/logs_disk_linux.go:317-330 | the index after an admission agrees with the directory, within both bounds |
| `LogDisk.ActivateGood` | internal/queue/logs_disk_linux.go:358-365 | the index after an activation agrees with the directory, though bytes are not adjusted |
| `LogDisk.AckGood` | internal/queue/logs_disk_linux.go:447-450 | the index after an acknowledgement agrees with the directory, though the smaller size is subtracted |
| `LogDisk.LogDisk.RecoverLogManifest` | internal/queue/logs_disk_linux.go:166-201 | an interrupted control replacement is finished or refused; without a stage nothing is touched; no crash in it changes the queue |
| `LogDisk.LogDisk.LoadControl` | internal/queue/logs_disk_linux.go:96-109 | the control file is read, or created in a new directory, without changing the queue; one that does not decode, or gives no sequence, is refused |
| `LogDisk.LogDisk.RecoverPendingRecord` | internal/queue/logs_disk_linux.go:206-241 | an interrupted admission is finished or refused because torn; conflict is unreachable |
| `LogDisk.LogDisk.Scan` | internal/queue/logs_disk_linux.go:117-146 | every record file is indexed or kept aside; unexpected entries and duplicate identities are unreachable |
| `LogDisk.LogDisk.RecoverPendingActivation` | internal/queue/logs_disk_linux.go:250-281 | an interrupted activation is finished, or refused because torn or unreadable; a conflict means that the record it names has rotted, and then it is never finished |
| `LogDisk.LogDisk.Open` | internal/queue/logs_disk_linux.go:92-154 | opening any image a run can leave yields exactly the queue it denotes with an agreeing index that counts no more bytes than the image weighs, or a refusal the image explains: a torn stage, an orphaned activation, a record too long to read, too many entries, the budget; it fails for I/O exactly when a call failed; a crash in it loses nothing; a control file that gives no sequence is always refused |
| `LogDisk.LogDisk.PutAdmission` | internal/queue/logs_disk_linux.go:291-331 | each answer exactly when the source gives it; success admits under the next number; it fails exactly when a call failed, closes the spool and leaves a cut admission |
| `LogDisk.LogDisk.Activate` | internal/queue/logs_disk_linux.go:335-371 | an unready admission that can be read is made deliverable unless a call fails, which leaves a cut activation; an unknown or ready one is left alone; nothing happens exactly on a cancellation or when the record cannot be read |
| `LogDisk.LogDisk.Next` | internal/queue/logs_disk_linux.go:373-420 | the item is the oldest ready record with its payload; undecodable heads are kept aside, counted, and change no other record; it gives none only when none is ready, the spool is closed, the caller cancelled, a head is too long, or a call failed |
| `LogDisk.LogDisk.Ack` | internal/queue/logs_disk_linux.go:422-452 | exactly the current head, if it can be read, is acknowledged unless a call fails, and success removes exactly that record |
| `LogDisk.LogDisk.QuarantineHead` | internal/queue/logs_disk_linux.go:391-403 | keeping an undecodable head aside changes no other record, counts it, and fails only when a call does |
| `LogRuns.StepAtomic` | internal/queue/logs_disk_linux.go:92-152 | each event, complete or cut, changes the queue by one whole operation or by none, and orphans an activation only by rotting the record it names |
| `LogRuns.AdmissionSteps` | internal/queue/logs_disk_linux.go:303-316 | what the admission checks let through, cut anywhere, is a step of a run |
| `LogRuns.RunSafe` | internal/queue/logs_disk_linux.go:92-152 | along every run, with rot at any moment, each image is one that LogDisk.LogDisk.Open speaks of and meets the budget, denotes a sound queue, and each event is one whole operation or none |
| `LogRuns.RecordSurvives` | internal/queue/logs_disk_linux.go:291-371 | over every run a record keeps its number, identity and payload until acknowledged or rotten, and becomes ready only by its own activation |
| `LogRuns.NumberNeverReused` | internal/queue/logs_disk_linux.go:317-319 | a number once given out and free is never given out again |
| `LogRuns.OrphanedByRot` | internal/queue/logs_disk_linux.go:264-267 | along every run an activation is orphaned, which no opening gets past, if and only if the record it names rotted while it was staged |
| `LogRuns.PutOpensIff` | internal/queue/logs_disk_linux.go:318-321 | the control file an admission leaves gives no sequence, which every opening refuses, if and only if the sequence was the last |
| `LogRuns.PutReadableIff` | internal/queue/logs_disk_linux.go:300-316 | record files stay readable after an admission if and only if they were and the normalized record is within 5 MiB; LogDisk.LogDisk.Open opens only readable ones |
| `LogRuns.AsideKeepsEntry` | internal/queue/logs_disk_linux.go:114-116 | a record kept aside leaves the budget but stays an entry, so only the entry bound is still used up by it |
| `Handoff.TiledBehind` | internal/logtail/tailer_linux.go:363-380 | ranges of the ledger lie at or before its position |
| `Handoff.LiveUnkept` | internal/logtail/tailer_linux.go:350-351 | the reader's next record was never kept before |
| `Handoff.MovesTiled` | internal/logtail/tailer_linux.go:283-380 | each way a checkpoint moves, a group offered again included, keeps the ranges tiled, says why a range holds no record, and keeps at most the record it names |
| `Handoff.StepInv` | internal/logtail/tailer_linux.go:350-390 | every step keeps: nothing kept is lost, only checkpointed records are ready, delivered records are checkpointed, what was rejected holds no record and what was refused the encoder refuses |
| `Handoff.StepWorded` | internal/logtail/tailer_linux.go:350-362 | every step keeps: what is queued, about to be sent, or ingested of the stream says what its bytes say |
| `HandoffOrder.StepOrder` | internal/queue/logs_disk_linux.go:335-371 | every step keeps the order of numbers, ranges and deliveries, second offers aside |
| `HandoffOrder.HeadFirst` | internal/queue/logs_disk_linux.go:384-411 | the head lies at or before every other deliverable record of its generation |
| `HandoffOrder.RecoverStep` | internal/logtail/tailer_linux.go:381-390 | every step keeps each kept unready record the one some checkpoint remembers, while no unready one is replaced |
| `HandoffRuns.RunOk` | internal/collectors/logs_linux.go:104-198 | the invariants hold after every run of steps with any interleaving, failed save, failed activation, second offer and restart |
| `HandoffRuns.NoLoss` | internal/logtail/tailer_linux.go:256-390 | every byte of every generation the durable checkpoint has begun, up to any point it reached there, lies where the stream has no record, or in a record that the encoder refused, or in one that is queued with its own text, or acknowledged after the remote heard that text, or kept aside, or was passed over by an overrun |
| `HandoffRuns.SaysItsBytes` | internal/logtail/tailer_linux.go:350-362 | over every run each queued record, each delivery, and whatever the worker holds says what the bytes of its range say |
| `HandoffRuns.PassedByOverrun` | internal/logtail/tailer_linux.go:283-288 | bytes are passed over only by a checkpoint for an oversize line while lines are held |
| `HandoffRuns.NeverBeforeCheckpoint` | internal/logtail/tailer_linux.go:350-362 | a ready record lies at or below the durable checkpoint |
| `HandoffRuns.AckedOnce` | internal/logtail/tailer_linux.go:350-362 | an acknowledged identity that no second offer put back was ingested, is not queued and is not being sent, and comes back if and only if it is the group stuck |
| `HandoffRuns.OnlySecondOffer` | internal/logtail/tailer_linux.go:342-362 | what enters the queue covers committed bytes if and only if it is a second offer |
| `HandoffRuns.SecondOfferAdds` | internal/logtail/tailer_linux.go:342-362 | a second offer adds a record if and only if the record has left the queue, or the group has grown and is not queued yet; only a grown one has an identity the ledger does not keep |
| `HandoffRuns.SecondDelivery` | internal/logtail/tailer_linux.go:358-360 | a run in which a committed group whose activation failed is delivered, acknowledged and delivered again |
| `HandoffRuns.AckRefusedRun` | internal/collectors/logs_linux.go:170-174 | a run in which the remote takes the head, an older record becomes ready, and the acknowledgement is refused |
| `HandoffRuns.DeliveredInOrder` | internal/collectors/logs_linux.go:160-198 | while every new generation and reopening was straight, the remote ingests each generation in the order of its bytes, repeats and second offers aside |
| `HandoffOvertake.OrderKeptIff` | internal/logtail/tailer_linux.go:222-273 | beginning a generation or reopening a file keeps the order on every continuation without another such step if and only if no left-over admission has anything admissible before it and the durable checkpoint is near |
| `HandoffOvertake.Overtaken` | internal/logtail/tailer_linux.go:222-273 | a left-over admission with something admissible between the reader and itself is delivered before it on some continuation |
| `HandoffOvertake.MisalignedRun` | internal/logtail/tailer_linux.go:222-273 | a run in which a truncation whose save fails, a restart and a new generation at the old offset lead to delivery out of order |
| `HandoffRuns.RestartRecovers` | internal/logtail/tailer_linux.go:381-390 | after a restart, activating the remembered admission leaves no kept record unready |
| `HandoffRuns.SaveRecoverableIff` | internal/logtail/tailer_linux.go:363-380 | a checkpoint keeps every admission recoverable if and only if the one it replaces is not unready, second offers aside |
| `HandoffRuns.StrandedForever` | internal/logtail/tailer_linux.go:358-365 | a kept record that no checkpoint remembers, and that is not the group at hand, is never made ready by any run |
| `HandoffRuns.StrandingRun` | internal/logtail/tailer_linux.go:355-362 | a run from the first discovery that strands a record |
| `HandoffLoss.TilesDisjoint` | internal/logtail/tailer_linux.go:363-380 | two ranges of a generation share no byte, unless the later is a record offered again over what was not passed |
| `HandoffLoss.PassedIsLost` | internal/logtail/tailer_linux.go:283-288 | whatever range a durable checkpoint has passed over at a restart, no continuation ever delivers a byte of it |
| `HandoffLoss.OverrunThenRestartLoses` | internal/logtail/tailer_linux.go:283-288 | after an oversize line's checkpoint, any steps that commit no other record, and a restart, no continuation ever delivers a byte of the group held |
| `SpoolRefinement.AtomicRefines` | internal/queue/logs_disk_linux.go:291-371 | a whole spool operation is one enabled step of the hand-off |
| `SpoolRefinement.SpoolRefinesHandoff` | internal/queue/logs_disk_linux.go:92-152 | along any run of the spool on disk, what a permitted operation leaves, cut anywhere, is one step of the hand-off or none |
| `LogDelivery.HeadKeptIff` | internal/collectors/logs_linux.go:160-174 | under the readers a head stays with its payload, and stays the head if and only if no older record becomes ready |
| `LogDelivery.LogWorker.Readers` | internal/collectors/logs_linux.go:104-156 | while readers admit and activate, records are added and made ready, none is changed or removed, and only a failed write closes the spool |
| `LogDelivery.LogWorker.DeliverOne` | internal/collectors/logs_linux.go:160-198 | what is sent is the head with its payload; it leaves the queue exactly when accepted and still the head, unless the acknowledgement fails, which blocks delivery; a rejection blocks, a cancellation changes nothing, exhausted retries go on with everything kept |
| `Discovery.AppendKeepsFingerprint` | internal/logtail/tailer_linux.go:413-421 | appending keeps the fingerprint if and only if 256 bytes were there already |
| `Discovery.ResumesIff` | internal/logtail/tailer_linux.go:222-240 | a grown file resumes at its checkpoint if and only if it held 256 bytes or did not grow; otherwise it starts at the end or at the old offset of a new generation |
| `Discovery.FirstSeen` | internal/logtail/tailer_linux.go:222-240 | a file first seen is read from its start or its end, and resumes there if it has not grown |
| `Discovery.DiscoveryLegal` | internal/logtail/tailer_linux.go:222-240 | taking a file up anew is a legal step of the hand-off, and keeps admissions recoverable exactly while nothing remembered is unready |
| `Reader.ForeignStep` | internal/collectors/logs_linux.go:104-156 | other streams and the worker leave the reader's progress, memory, group at hand and admissions alone |
| `Reader.Link.AdmitRecord` | internal/collectors/logs_linux.go:106-121 | what is admitted says what its bytes say; an admission that returns without error, the first or a second offer, put the record in the queue at some point, or it was refused by the encoder; it fails only when a call does |
| `Reader.Link.SaveCheckpoint` | internal/logtail/tailer_linux.go:363-380 | progress and memory move exactly when the save succeeds; a failed save may have happened |
| `Reader.Link.ActivateRecord` | internal/logtail/tailer_linux.go:358-360 | activation moves nothing of the reader's, and its success settles the remembered record |
| `LogLines.LineEndUnique` | internal/logtail/tailer_linux.go:422-451 | the first newline is the only one that ends the line |
| `LogLines.LineEndPrefix` | internal/logtail/tailer_linux.go:274-278 | a line complete in what the file holds is the same line after it grows |
| `LogLines.StripEndings` | internal/logtail/tailer_linux.go:452-460 | a line loses its line ending, of either kind, and nothing else |
| `LogLines.LinesExtend` | internal/logtail/tailer_linux.go:290-305 | the lines of a range and one more line are the lines of the longer range |
| `LogLines.NextStartStays` | internal/logtail/tailer_linux.go:283-299 | where the next record starts does not move by starting there |
| `LogLines.NothingBefore` | internal/logtail/tailer_linux.go:283-299 | whole lines before the next record hold no content |
| `LogLines.ReadLine` | internal/logtail/tailer_linux.go:422-451 | reading in 4096-byte chunks returns exactly the first newline-terminated range, and tooLarge exactly when it exceeds the bound |
| `Tailer.FitsRegular` | internal/logtail/tailer_linux.go:283-299 | the stream of every file, under any settings, is one the hand-off speaks of |
| `Tailer.RejectedHoldNothing` | internal/logtail/tailer_linux.go:283-299 | what the ledger calls rejected are whole lines without content |
| `Tailer.DeliversLines` | internal/logtail/tailer_linux.go:350-362 | whatever the remote ingests of a file, over every run, is the lines of a range of it, joined by newlines |
| `Tailer.TellOut` | internal/logtail/tailer_linux.go:338-349 | a group handed over is told once, with the body its record was given, also when it was offered before |
| `Tailer.TellStuck` | internal/logtail/tailer_linux.go:342-344 | a group whose activation failed is told as stuck: committed, and not yet handed over |
| `Tailer.HoldLine` | internal/logtail/tailer_linux.go:313-332 | holding one more line keeps the group within its bounds and its body the joined lines, also when the group is stuck |
| `Tailer.PassGroup` | internal/logtail/tailer_linux.go:338-349 | handing a group over, or committing it and keeping it, leaves the lines consumed the same, in order |
| `Tailer.PassRejected` | internal/logtail/tailer_linux.go:283-299 | a rejected line moves positions and adds no content |
| `Tailer.PassAlone` | internal/logtail/tailer_linux.go:293-305 | a plain line handed over starts at the next record position and is one whole group |
| `Tailer.Tailer.Commit` | internal/logtail/tailer_linux.go:363-380 | position, memory and ledger move together, and only on success |
| `Tailer.Tailer.Emit` | internal/logtail/tailer_linux.go:350-362 | only a whole well-formed group is admitted, with the lines of its range as its body, at the next record position or as the group stuck, then committed, then activated; what was committed is told with its body and is in the ledger; it fails only when a call does |
| `Tailer.Tailer.Flush` | internal/logtail/tailer_linux.go:338-349 | success empties the group and keeps all consumed lines; failure keeps the group, and if it was committed it is stuck |
| `Tailer.Tailer.Reject` | internal/logtail/tailer_linux.go:283-299 | after a rejected line, past a held or a stuck group, everything before it is still handed over, held or rejected |
| `Tailer.Tailer.TakeAlone` | internal/logtail/tailer_linux.go:301-305 | a plain line that was not committed is read again, and handed over once, unless a call fails; nothing told before is taken back |
| `Tailer.Tailer.TakeGrouped` | internal/logtail/tailer_linux.go:307-332 | a line joins the group held if and only if it opens none and both bounds allow it; otherwise that group is handed over and the line begins one; each line is consumed exactly once in order, and it fails only when a call does |
| `Tailer.Tailer.FlushBefore` | internal/logtail/tailer_linux.go:307-325 | whatever group is handed over before a line was ended by it: the line opens a group, or the group is full in lines or in bytes |
| `Tailer.Tailer.FlushExpired` | internal/logtail/tailer_linux.go:334-336 | a group handed over without such a line was ended by time, and that is recorded |
| `Tailer.Tailer.Truncated` | internal/logtail/tailer_linux.go:261-273 | a shorter file begins a new generation at its start |
| `Tailer.Tailer.Consume` | internal/logtail/tailer_linux.go:256-337 | through every failure, second offers included, the pass keeps lines, positions, admitted bodies, ledger and the reason each group ended agreeing; within a generation it takes back nothing told or admitted, and time ends at most one group, held for the timeout; a pass in which no call fails leaves no complete line unread and no group held that long |
| `Tailer.Tailer.Poll` | internal/logtail/tailer_linux.go:175-254 | a poll retries the remembered activation and then consumes, with the same guarantees; while no activation fails no unready record is replaced, and while no call fails nothing remembered stays unready |
| `Journal.WatermarkNeverSkips` | internal/journaltail/reader_linux.go:88-97 | from any watermark, whole seconds never skip an entry of its instant or later, and go back less than a second |
| `Journal.StartSelects` | internal/journaltail/reader_linux.go:88-97 | a start at the end takes every entry from its own instant on and none a second older, and a restart without a cursor selects the same entries whatever its clock says |
| `Journal.NewOnlyIff` | internal/journaltail/reader_linux.go:166-176 | entries are taken from the process start only if there is no cursor, no watermark and no positive clock |
| `Journal.JournalReader.Recover` | internal/journaltail/reader_linux.go:98-102 | a start that succeeds has activated the remembered admission, and moves no cursor |
| `Journal.JournalReader.SaveCursor` | internal/journaltail/reader_linux.go:203-211 | a cursor that cannot be saved is taken back |
| `Journal.JournalReader.TakeEntry` | internal/journaltail/reader_linux.go:200-216 | the cursor moves past an entry only when the ledger has kept it under its own identity and with its own text, or the encoder refused it; it fails only when a call does |
| `Journal.JournalReader.Consume` | internal/journaltail/reader_linux.go:189-225 | every entry the cursor passes that can be parsed is kept by the ledger or refused by the encoder, and none is overlong; it passes them all exactly when no call fails and none is overlong |
| `Journal.JournalReader.Round` | internal/journaltail/reader_linux.go:135-164 | each journalctl process is asked for what the cursor, or without one the watermark, says, and passes only committed or unparseable entries |
| `Journal.FitsRegular` | internal/journaltail/reader_linux.go:189-199 | the stream of the journal is one the hand-off speaks of |
| `Journal.DeliversEntries` | internal/journaltail/reader_linux.go:189-216 | every delivery of an entry, over every run, says what the entry says |
| `MetricSpool.PutCutSafe` | internal/queue/disk_linux.go:301-316 | a Put cut anywhere has happened, has only used up its number, or has not begun |
| `MetricSpool.Reserved1Safe` | internal/queue/disk_linux.go:252-258 | between the two control copies no queue is lost and at most one number is used up |
| `MetricSpool.AckCutSafe` | internal/queue/disk_linux.go:379-385 | an acknowledgement cut anywhere has happened or has not begun |
| `MetricSpool.RotSafe` | internal/queue/disk_linux.go:107-110 | at any moment a rotten record is lost alone, and a rotten control copy loses no record and reuses no number |
| `MetricSpool.SequencesBelow` | internal/queue/disk_linux.go:171-173 | every record is below whichever control copy would be loaded |
| `MetricAccounts.IndexUnique` | internal/queue/disk_linux.go:148-199 | one directory, one index: names, count, bytes, quarantined and next |
| `MetricAccounts.PutGood` | internal/queue/disk_linux.go:304-316 | after a Put the index is exact again, within both bounds |
| `MetricAccounts.AckGood` | internal/queue/disk_linux.go:386-388 | after an acknowledgement the index is exact again |
| `MetricAccounts.AsideGood` | internal/queue/disk_linux.go:270-276 | quarantine keeps bytes and count and moves the record from names to quarantined |
| `MetricAccounts.RotGood` | internal/queue/disk_linux.go:259-269 | rot changes neither names nor bytes nor count |
| `MetricAccounts.HeadOldest` | internal/queue/disk_linux.go:333-353 | the first name is the oldest record |
| `MetricMigration.JournalCutSafe` | internal/queue/migration_linux.go:151-155 | journalling a move, cut anywhere, touches no record and can be taken up again |
| `MetricMigration.BackupCutSafe` | internal/queue/migration_linux.go:162-166 | rewriting the backup, cut anywhere, touches no record and can be taken up again |
| `MetricMigration.JsonCutSafe` | internal/queue/migration_linux.go:170-172 | rewriting the control file, cut anywhere, touches no record and can be taken up again |
| `MetricMigration.JournalRemoved` | internal/queue/migration_linux.go:176-180 | removing the journal leaves a version 2 spool at rest with equal copies |
| `MetricMigration.RotMigrating` | internal/queue/migration_linux.go:89-103 | a record or the control file that rots in the middle of a move costs at most that record, and the move can be taken up again |
| `MetricOpening.MovingDone` | internal/queue/migration_linux.go:161-181 | a finished move has both copies at version 2, the new scope and the same next, no journal, no stage, every record file as it was |
| `MetricOpening.CopyRead` | internal/queue/migration_linux.go:107-150 | what the control copy of a known directory says, and when version 1 copies disagree |
| `MetricOpening.ScanDone` | internal/queue/disk_linux.go:148-195 | the scan counts exactly what the directory held and lists every live record |
| `MetricOpening.FewEntries` | internal/queue/disk_linux.go:145-147 | a directory that runs leave, within any budget that can be configured, never has too many entries |
| `MetricOpening.MoveFinishesIff` | internal/queue/migration_linux.go:86-103 | a journalled move, with everything else in order, is finished by an opening if and only if the control file is there |
| `MetricOpening.HalfwayReached` | internal/queue/migration_linux.go:84-90 | a version 1 directory with a backup only, whose move is journalled and then cut, is left in a state that no opening gets past |
| `MetricDisk.MetricDisk.Write` | internal/queue/disk_linux.go:230-251 | an exclusive stage, removed again after a failure unless that fails too; any crash leaves the old target, a stage, or the new target |
| `MetricDisk.MetricDisk.SaveManifest` | internal/queue/disk_linux.go:252-258 | backup first, then control file, cut anywhere |
| `MetricDisk.MetricDisk.Put` | internal/queue/disk_linux.go:277-322 | each answer exactly when the source gives it; success appends under the next number and keeps the index exact; it fails exactly when a call failed |
| `MetricDisk.MetricDisk.Next` | internal/queue/disk_linux.go:323-362 | the item is the oldest decodable record; undecodable ones are quarantined and keep their space and count; it gives none only when there is none, the spool is closed, the caller cancelled, one is too long, or a call failed |
| `MetricDisk.MetricDisk.Ack` | internal/queue/disk_linux.go:363-390 | exactly the front is acknowledged unless a call fails, and success removes exactly it |
| `MetricDisk.MetricDisk.ScopeWrite` | internal/queue/migration_linux.go:31-65 | exactly the stage that was begun is resumed, any other is a conflict that changes nothing |
| `MetricDisk.MetricDisk.FinishMigration` | internal/queue/migration_linux.go:161-181 | from a journal and whatever stages crashed attempts left, the move completes with records untouched, or stops on a torn stage |
| `MetricDisk.MetricDisk.ResumeMigration` | internal/queue/migration_linux.go:74-103 | a journal is taken up only under its own scope; another scope changes nothing |
| `MetricDisk.MetricDisk.ReadControl` | internal/queue/migration_linux.go:107-160 | without a journal: the same scope opens, the verified legacy scope is moved, anything else is refused unchanged, version 1 copies that disagree included |
| `MetricDisk.MetricDisk.LoadManifest` | internal/queue/migration_linux.go:66-160 | every refusal but an I/O error or a stage conflict leaves the directory untouched |
| `MetricDisk.MetricDisk.Scan` | internal/queue/disk_linux.go:148-191 | every record is counted or quarantined; unexpected entries and bad sequences are unreachable |
| `MetricDisk.MetricDisk.Open` | internal/queue/disk_linux.go:130-199 | opening any known directory yields the queue it denotes with an exact index, or a refusal the directory explains; it opens only without a torn or pending stage, with agreeing copies, readable records, room, and a control file beside any journal; it fails for I/O exactly when a call failed; a crash in it loses nothing and moves only undecodable records aside |
| `MetricRuns.PutSteps` | internal/queue/disk_linux.go:297-303 | what the Put checks let through, cut anywhere, is a step of a run |
| `MetricRuns.RunSafe` | internal/queue/disk_linux.go:130-199 | along every run, with rot at any moment, each image is known and within both budgets, and each event is one whole operation or none |
| `MetricRuns.RecordSurvives` | internal/queue/disk_linux.go:277-390 | over every run a record stays, bytes and all, until acknowledged or rotten |
| `MetricRuns.ReceiptsIncrease` | internal/queue/disk_linux.go:301-321 | a receipt that was returned is never issued again across crashes, openings and rotten copies |
| `MetricRuns.PutReadableIff` | internal/queue/disk_linux.go:286-300 | record files stay readable after a Put if and only if they were and the compact record is within 5 MiB; MetricDisk.MetricDisk.Open opens only readable ones |
| `MetricDelivery.StepInv` | internal/collectors/metrics.go:137-182 | every step by record numbers keeps the front, the order of ingestion, and what was given accounted for |
| `MetricDeliveryRuns.MoveRefines` | internal/collectors/metrics.go:137-182 | every event of the spool under the worker's permission, cut anywhere, and every step of the worker, is one step by record numbers or none |
| `MetricDeliveryRuns.RunIsChain` | internal/collectors/metrics.go:137-182 | the directories a run passes through are a chain of the spool |
| `MetricDeliveryRuns.HeadStable` | internal/collectors/metrics.go:141-160 | what was peeked is still the front of the directory when it is acknowledged |
| `MetricDeliveryRuns.IngestedInOrder` | internal/collectors/metrics.go:137-182 | the remote ingests nondecreasing sequence numbers through retries, lost responses, crashes, openings and moves |
| `MetricDeliveryRuns.AtLeastOnce` | internal/collectors/metrics.go:219-235 | every batch whose Put returned is in the directory with its bytes, undecodable there or kept aside, or was acknowledged after the remote took it |
| `MetricDeliveryRuns.GivenOnce` | internal/collectors/metrics.go:219-235 | a number that was returned is below whatever number comes next |
| `MetricDeliveryRuns.Conservation` | internal/collectors/metrics.go:137-182 | records found plus records that appeared equals those acknowledged plus those in the directory, quarantined ones included |
| `MetricDelivery.Metrics.Offer` | internal/collectors/metrics.go:219-235 | batches are offered in order until one fails that was not cancelled, which stops the scrape and blocks; a full spool drops one and goes on; queued counts exactly what was stored, and a closed spool stores none |
| `MetricDelivery.Metrics.OfferOne` | internal/collectors/metrics.go:219-235 | what each answer of the spool does to the counters, the spool and the block |
| `MetricDelivery.Metrics.Scrape` | internal/collectors/metrics.go:186-189 | once delivery is blocked a scrape offers nothing |
| `MetricDelivery.Metrics.Acknowledge` | internal/collectors/metrics.go:155-160 | success removes the accepted front and counts it; failure blocks, and the front may have gone with the spool closed |
| `MetricDelivery.Metrics.Settle` | internal/collectors/metrics.go:154-179 | what each outcome makes of the front, the counters and the two loops |
| `MetricDelivery.Metrics.DeliverOne` | internal/collectors/metrics.go:137-182 | for every look at the front and every outcome: only an accepted front leaves the spool, counted as delivered unless its acknowledgement failed; a refusal pauses and blocks with the front kept; exhausted retries count one, keep the front and go on; a cancellation changes nothing; any other failure blocks |
| `Lifecycle.SaneFacts` | internal/app/app.go:53-86 | no capability has two possibly running instances, and every instance whose start failed was told to stop |
| `Lifecycle.Manager.Start` | internal/app/app.go:53-71 | a failed start leaves the table alone, is told to stop, and degrades the manager if it may still run |
| `Lifecycle.Manager.Launch` | internal/app/app.go:59-70 | an instance that fails to start is told to stop; one that starts enters the table under its own name |
| `Lifecycle.Manager.Stop` | internal/app/app.go:72-86 | an instance leaves the table exactly when it stopped cleanly |
| `Lifecycle.Manager.StopOthers` | internal/app/app.go:87-95 | what a policy does not enable is told to stop, all of it or up to the first failure; the rest is left alone |
| `Lifecycle.Manager.Restore` | internal/app/app.go:87-110 | the prior policy's capabilities are active again, or the manager is degraded; everything else is told to stop and every missing one is tried, whatever fails; running instances are kept |
| `Lifecycle.Manager.Refuse` | internal/app/app.go:111-135 | a policy is let through exactly when the manager can take it and it is well formed, newer and registered; each refusal says why |
| `Lifecycle.Manager.Transition` | internal/app/app.go:150-178 | nothing is constructed while something the new policy does not enable is active; success has stored the policy |
| `Lifecycle.Manager.Apply` | internal/app/app.go:111-182 | an admissible policy is applied, and stored, exactly when nothing fails; success makes exactly the new policy active, failure leaves the policy current; versions only increase; shared instances keep their identity; nothing is constructed for an unregistered capability |
| `Lifecycle.Manager.Close` | internal/app/app.go:183-194 | everything active is told to stop, nothing is started again, and what did not stop cleanly degrades the manager |
| `Sender.DelayFits` | internal/exporter/sender.go:67-93 | no delay overflows 64 bits, and logs never wait beyond thirty minutes |
| `Sender.SecondsHonoredIff` | internal/exporter/sender.go:68-76 | a metrics retry waits exactly the seconds of Retry-After (section 10.2.3 of RFC 9110) if and only if they fit; logs if and only if within thirty minutes |
| `Sender.DateHonoredIff` | internal/exporter/sender.go:77-92 | a date ahead is waited for exactly, if and only if it is no further than times can differ, or for logs thirty minutes |
| `Sender.BackoffBounds` | internal/exporter/sender.go:77-81 | without a usable header the wait lies between one second and thirty and a half |
| `Sender.BackoffDoubles` | internal/exporter/sender.go:80 | without a usable header, jitter aside, the wait begins at one second and doubles up to thirty |
| `Sender.AcceptedWhole` | internal/exporter/sender.go:143-194 | exactly when a response is accepted: metrics only when the members read reject no point, logs whatever part is |
| `Sender.RejectionOverlookedIff` | internal/exporter/sender.go:148-176 | points that the outer object rejects are overlooked if and only if data is null or speaks for itself |
| `Sender.Sender.Send` | internal/exporter/sender.go:94-218 | every attempt but the last goes on to another, and the last, or a cancellation, determines the outcome; at most the configured attempts; attempts begun equal failures plus acceptances; accepted exactly when one acceptance is counted; every wait is the one asked for |
| `Sender.Sender.Attempt` | internal/exporter/sender.go:96-216 | how each answer ends or continues the loop and what it counts as, and that a wait follows exactly what may pass, even after the last attempt if the server answered |
| `Batching.Batcher.Encode` | internal/pipeline/metrics.go:82-102 | a run that fits is one body; otherwise halving ends, and appends bodies that cover the run in order, or fails for a point too large alone |
| `Batching.Batcher.Batches` | internal/pipeline/metrics.go:77-113 | the batches are the points in order, each within both bounds, and each a slice of as many points as allowed or half of a run that was too large; failure is only for bad limits, serialization, or a point too large alone |
| `Batching.PointInBatch` | internal/pipeline/metrics.go:90-99 | when size does not shrink as points are added, a split exists only if every point fits alone |

## Left out

- Process restarts without a machine crash are crashes that keep the latest view; a spool reopened without one is the same image.
- After an I/O error in the middle of a write the spool object closes itself, or, in a failed quarantine, its index may be behind.  A closed logs spool goes on activating: what that leaves of the directory is in `LogRuns.Step`, but the class is stated for agreeing indexes only.
- LogDisk.LogDisk.Activate: is stated for an index that agrees with the directory, because after a failed admission only images are followed, not the object.
- The backup of the metrics spool does not rot in the middle of a move, and stages and the logs control file do not rot; record rot is size-preserving.
- Version 1 removal of a pending stage is followed by a directory fsync of its own; the source has one fsync at the end of the opening.
- Reading a file, or listing the directory, does not fail; an error there would end the operation that reads, or for a metrics control file fall back to its backup.
- Permission, owner, symlink, block-size and lock checks gate opening and are not part of this model; there is one opener.
- JSON and SHA-256 are abstract: decoding undoes encoding, torn bytes decode to nothing, the hash is injective, and the normalized payload is given; only encoded sizes are kept.
- HandoffRuns.NoLoss: excludes bytes passed over by an oversize line in multiline mode, because the code loses those (`HandoffLoss.OverrunThenRestartLoses`).
- HandoffRuns.RestartRecovers: requires that no checkpoint replaced one whose record was unready, and leaves second offers aside, because the code forgets such records (`HandoffRuns.SaveRecoverableIff`).
- HandoffRuns.DeliveredInOrder: requires that every generation begun and every file reopened was straight, and leaves second offers aside, because the code loses the order otherwise (`HandoffOvertake.OrderKeptIff`).
- HandoffRuns.AckedOnce: leaves out records that a second offer put back after they had left the queue, because the code delivers those again (`HandoffRuns.SecondDelivery`).
- Bytes of a generation only grow; a file rewritten in place without shrinking is not told apart by the code either.
- Eventual activation and eventual delivery are not claimed: regrouping or truncation after a crash can leave an unready record behind.
- The encoder's refusal of a record depends on its identity only; attributes, timestamps and resource fields are not modelled.
- Sequence wrap-around of the logs spool appears only in `LogRuns.PutOpensIff`; the other results stop before the last sequence.
- Polling, file discovery by pattern, the open-files bound, lost-file timeouts, tickers, jitter sources and clocks are arbitrary choices.
- HTTP, TLS, credentials, journalctl processes and OTLP serialization are arbitrary outcomes or an abstract size.
- Configuration parsing, policy gating, platform metrics, the in-memory queue, installers and release scripts would add easy members only.
