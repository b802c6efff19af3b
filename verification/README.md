# A verified model of bilive-rec's durable core

This project models, in Dafny, three linked parts of bilive-rec and proves what they promise.

- **The state database** (`Model`, `History`, `Database`, `Transitions`, `StateStore`): sessions,
  segments, submissions, rooms and upload-target gates, and every transition over them. `Transitions`
  says of each transition when it is enabled and what it makes of the five tables; the class
  `StateStore.Store` performs it on its fields, all or nothing. `Invariants` and `Preservation` hold one
  inductive invariant over all tables; `Runs`, `Gates`, `WorkerRuns`, `Progress`, `Ownership`,
  `Inspection`, `UploadWork` and `UploadWorker` draw the consequences for whole runs, for startup, for diagnosis and
  for the upload worker.
- **The artifact commit protocol** (`FileSystem`, `FileLayout`, `ArtifactCommit`, `ArtifactRuns`): a
  directory with a visible and a durable side, where a crash keeps some prefix of the unsynced changes,
  and the protocol that persists an intent, moves or removes a file, syncs the directory and persists the
  outcome. A crash may come after every step. `ArtifactRuns` takes the protocol through whole runs, and
  takes the recorder's files to the disk.
- **The FLV pipeline** (`FlvFormat`, `AvcPayload`, `Amf`, `AmfStreams`, `Metadata`, `Timestamps`,
  `FlvPipeline`, `SegmentFile`, `Recorder`, `Epochs`, `StreamLedger`, `Lookalikes`, `FlvRecorder`): the
  tag codec (Annex E of the Adobe Flash Video File Format Specification 10.1), filler removal in place
  (ISO/IEC 14496-15 section 5.2.4.1 and Table 7-1 of ITU-T H.264), the AMF0 reader and writer (sections
  2.2 to 2.12 of the AMF0 specification), metadata rewriting, timestamp rebasing and the recorder.
  `Recorder` is the recorder as a state machine over parsed tags in which everything about a file follows
  from the tags logged for it, and `StreamLedger` says which tags of the stream those are; the classes in
  `FlvRecorder` keep buffers, sizes and an index up tag by tag and are proved to stay in step with it.

`SegmentKeys` shows that the table's text keys order and find a session's rows as `StateStore` lists
them. `Wrappers`, `Sequences`, `ByteStrings` and `Numerals` are shared helpers.

## What turned out not to hold as one might expect

The code is modelled as it is; each of these is stated exactly.

- A file that is not dropped for its size, and whose stream sent more than 1022 metadata properties
  besides those the recorder writes itself, or whose first metadata body exceeds 1 MiB, always ends as
  failed: the rewrite re-parses its own output, gets nothing back, and comes out shorter
  (`Metadata.RewriteKeepsLengthIff`, `Metadata.CrowdedSourceBreaksRewrite`, `Epochs.EveryFileIsSound`).
- A finalization, or a decision for one of two files, keeps the bytes it is about through every run
  that follows exactly if no crash can leave other bytes in their place at its start: if none can, a
  row that gets Ready durably has those bytes, wherever the run stops
  (`ArtifactRuns.FinalizedBytesSurvive`, `ArtifactRuns.DecidedBytesSurvive`), and if one can, that crash
  and startup recovery make the other bytes the recording (`ArtifactCommit.UnshelteredLoses`). A segment
  recorded beside a stray file at its final name is one that loses: finalized, stopped before its part's
  name was synced and recovered, it is Ready with the stray bytes (`ArtifactCommit.StrayFinalTakesOver`).
  Under names that nothing else ever had, every Ready row keeps what was written
  (`ArtifactRuns.RecordedBytesSurvive`).
- The keyframe index looks at payloads only, so an audio tag that starts like an AVC keyframe is indexed
  when it comes before any keyframe or more than 1900 ms after the last entry. Every entry stands for
  video exactly if that never happens (`Lookalikes.IndexIsVideoIff`), and one stream makes it happen
  (`Lookalikes.LookalikeIsReached`).
- A tag of 4 GiB or more whose length matches its header only after truncation to 32 bits is written,
  and does not read back as itself (`FlvFormat.SurvivesWritingIff`).
- The diagnosis reports an invalid upload state for every discard of an upload session that has been
  announced and not completed, which is a state the program goes through in good order
  (`Inspection.InvalidUploadIff`).
- A blocked gate is not protected by the transitions alone: a second attempt in flight on the same target
  may take it over (`Gates.BlockedGateMoves`), as two uploads of one session that both find the target down
  do (`Gates.TakeoverIsReached`). The worker's rule of one call at a time rules that out, whatever
  everyone else writes and however often the program restarts (`WorkerRuns.OwnerAloneReopens`).

## Model

| member | source | states |
|---|---|---|
| History.BeginKeeps | src/state/transitions.rs:756-807 | a claim under a new id keeps the attempt ledger: one open record, the last, and every earlier attempt cleared for retry |
| History.FinishKeeps | src/state/transitions.rs:1878-1940 | finishing the current attempt keeps the ledger and moves its phase by the outcome |
| History.ResolveKeeps | src/state/transitions.rs:1029-1123 | an operator's decision keeps the ledger, whether the attempt was open, ambiguous or blocked |
| History.WithdrawKeeps | src/state/transitions.rs:2011-2034 | giving up an upload that is not open keeps the ledger |
| StateStore.ListSegments | src/state/store.rs:419-433 | a session's rows, each once, in index order |
| Numerals.NumeralsInOrder | src/state/store.rs:374-376 | padded numbers are ordered as text exactly as they are as numbers, in hexadecimal as in decimal |
| SegmentKeys.UuidsInOrder | src/state/store.rs:374-376 | identifiers of 128 bits are ordered, and told apart, by their hyphenated text |
| SegmentKeys.KeysInOrder | src/state/store.rs:374-376 | the order of table keys is that of sessions, and within a session that of indices, for every 128-bit id and 32-bit index |
| SegmentKeys.PrefixTellsSession | src/state/store.rs:419-428 | a key carries the prefix of its own session and of no other, and comes before it exactly if its session does |
| SegmentKeys.DecodeSegments | src/state/store.rs:419-433 | the range scan from the prefix returns exactly the session's rows in index order |
| StateStore.Store.Commit | src/state/store.rs:139-155 | a transaction's five tables become the store's as a whole |
| StateStore.RequireSubmissionParts | src/state/transitions.rs:1694-1718 | passes exactly when every segment is out of the submission or uploaded and usable, and one is uploaded |
| StateStore.AbandonRows | src/state/transitions.rs:573-588 | either one row has an unresolved file intent or a broken ledger and nothing is given up, or every upload in flight becomes ambiguous under its own attempt, every waiting or blocked one is cancelled, and all else stays |
| StateStore.ExcludeFailedRows | src/state/transitions.rs:653-664 | exactly the failed rows are excluded, and their indices are listed in order |
| StateStore.Store.CreateSession | src/state/transitions.rs:35-130 | takes effect if and only if the session is acceptable and its room free, and then claims room and gate |
| StateStore.Store.OpenSegment | src/state/transitions.rs:132-181 | takes effect if and only if the session owns its room and the index is the next, with upload intent from the frozen plan |
| StateStore.Store.UpdateArtifact | src/state/transitions.rs:183-247 | each recording artifact move takes effect if and only if the row is in its starting state and the session may move it |
| StateStore.Store.BeginConflict | src/state/transitions.rs:249-282 | a conflict decision is recorded if and only if the session is in recovery and the row's intent is unresolved |
| StateStore.Store.FailArtifact | src/state/transitions.rs:331-385 | failing a row and demanding recovery of its session and room happen together or not at all |
| StateStore.Store.BeginDelete | src/state/transitions.rs:387-430 | deletion is announced only for an uploaded row of a submitted session whose plan asks for it |
| StateStore.Store.CompleteDelete | src/state/transitions.rs:432-444 | completes exactly an announced deletion |
| StateStore.Store.RequireRecovery | src/state/transitions.rs:446-508 | session and room turn to recovery together, or the room belongs to another session and nothing changes |
| StateStore.Store.CloseSession | src/state/transitions.rs:510-704 | natural end, recovery and abandonment each take effect as a whole or leave everything as it was; abandonment leaves an upload in flight ambiguous under its attempt, cancels what waits or is blocked, and changes no other row |
| StateStore.Store.BeginUpload | src/state/transitions.rs:756-807 | a claim takes effect if and only if every one of its checks passes at that moment |
| StateStore.Store.ReportUpload | src/state/transitions.rs:809-1027 | an outcome is recorded if and only if the attempt is the current open one, with the gate closed for target-wide failures |
| StateStore.Store.ResolveUpload | src/state/transitions.rs:1029-1123 | an operator's decision settles the upload and opens the gate if that attempt owns it |
| StateStore.Store.BeginSubmission | src/state/transitions.rs:1125-1187 | a submission claim takes effect if and only if every one of its checks passes |
| StateStore.Store.ReportSubmission | src/state/transitions.rs:1189-1399 | a submission outcome is recorded if and only if the attempt is the current open one |
| StateStore.Store.ResolveSubmission | src/state/transitions.rs:1401-1493 | an operator's decision settles the submission and opens the gate if that attempt owns it |
| Preservation.CreateSessionKeeps | src/state/transitions.rs:35-130 | creating a session keeps the invariant over all five tables |
| Preservation.OpenSegmentKeeps | src/state/transitions.rs:132-181 | opening a segment keeps the invariant, with indices contiguous from 1 |
| Preservation.MoveKeeps | src/state/transitions.rs:183-247 | every recording artifact move keeps the invariant |
| Preservation.FailArtifactKeeps | src/state/transitions.rs:331-385 | a failed artifact keeps the invariant |
| Preservation.RequireRecoveryKeeps | src/state/transitions.rs:446-508 | demanding recovery keeps the invariant |
| Preservation.BeginUploadKeeps | src/state/transitions.rs:756-807 | claiming an upload keeps the invariant |
| Preservation.ReportUploadKeeps | src/state/transitions.rs:809-1027 | recording an upload outcome keeps the invariant |
| Preservation.ResolveUploadKeeps | src/state/transitions.rs:1029-1123 | deciding an upload keeps the invariant |
| Preservation.BeginSubmissionKeeps | src/state/transitions.rs:1125-1187 | claiming a submission keeps the invariant |
| Preservation.ReportSubmissionKeeps | src/state/transitions.rs:1189-1399 | recording a submission outcome keeps the invariant |
| Preservation.ResolveSubmissionKeeps | src/state/transitions.rs:1401-1493 | deciding a submission keeps the invariant |
| Preservation.CloseSessionKeeps | src/state/transitions.rs:518-704 | every way of closing a session keeps the invariant |
| Preservation.EffectKeeps | src/state/transitions.rs:35-1493 | every transition keeps the invariant |
| Preservation.RunKeeps | src/state/store.rs:139-155 | every run of transitions, refused ones included, keeps the invariant |
| Runs.EffectGrows | src/state/transitions.rs:35-1493 | no transition rewrites a history, reverts an artifact, unsubmits or reopens anything |
| Runs.RunGrows | src/state/transitions.rs:35-1493 | nor does any run |
| Runs.AttemptsAreSafe | src/state/transitions.rs:756-1493 | no blind retry: on every reachable database each attempt but the last ended in a scheduled retry or was decided not done, ids differ, in flight means exactly one open record, and at most one attempt succeeded |
| Runs.OwnershipAlwaysExact | src/state/transitions.rs:82-126 | on every reachable database rooms and sessions agree, and a room has at most one session that is not closed |
| Runs.IndicesContiguous | src/state/transitions.rs:155-164 | a session's segments are numbered 1 to n without a gap |
| Runs.SubmissionFreezes | src/state/transitions.rs:1125-1187 | once a submission exists its session stays completed, no segment is added, and uploaded segments stay uploaded with the same proof, for ever |
| Runs.DeletionIsLicensed | src/state/transitions.rs:387-430 | deleting or deleted implies submitted, uploaded, and a plan that asks for it |
| Runs.DecidedUpload | src/state/transitions.rs:1029-1123 | the operator's decision is what the upload comes to: done with the proof given, or not done and waiting anew unless its session ended without submission; an attempt still open is closed as ambiguous, the gate opens exactly for its owner, and nothing else changes |
| Runs.DecidedSubmission | src/state/transitions.rs:1401-1493 | the same of a submission, which is then submitted or free to be claimed again |
| Runs.RecoveryDemanded | src/state/transitions.rs:446-508 | the first reason stays the session's, a new one joins the record, the room is blocked and shows the first, and nothing else changes |
| Runs.AbandonedUploads | src/state/transitions.rs:2011-2034 | whatever the database, abandoning a session leaves each of its uploads in flight ambiguous under its attempt with that record closed as such, and still open to the operator's decision; nothing about recordings or other sessions changes |
| Runs.CloseOutcome | src/state/transitions.rs:518-704 | a natural end completes the session, or closes it as without recording, exactly if no row is unresolved or failed, and otherwise demands recovery; a recovery ends with exactly the failed rows taken out; the room is free exactly if the session is closed |
| Gates.BlockedGateHolds | src/state/transitions.rs:1751-1817 | a blocked gate names an operation blocked right now, stops every claim on its target at any time, and keeps the owner's session from being abandoned |
| Gates.BlockedGateMoves | src/state/transitions.rs:1751-1840 | a blocked gate changes exactly when its owner is decided, which opens it, or another attempt in flight fails for the whole target |
| Gates.TakeoverIsReached | src/state/transitions.rs:1751-1795 | from the empty database, without any decision: two uploads of one session in flight, and the second takes over the gate that the first blocked |
| Gates.BackoffHolds | src/state/transitions.rs:1797-1817 | while a gate is in backoff no claim on its target that starts before the retry time takes effect, and without a claim only a report on the target or the decision about the owner changes it |
| Gates.BackoffLasts | src/state/transitions.rs:1797-1817 | so a backoff lasts through every run in which claims come too early and nobody else has a say about the gate |
| Gates.RetryWaits | src/state/transitions.rs:1140-1160 | a claim that takes effect starts no earlier than the retry time its row or submission waits for |
| Gates.DisciplineKeeps | src/uploader/worker.rs:187-205 | claims made only when nothing is in flight on the target keep it so |
| Gates.OnlyOwnerReopens | src/state/transitions.rs:1819-1840 | under that discipline, in every run, a blocked gate changes only by the decision about its owner |
| WorkerRuns.LawfulIsDisciplined | src/uploader/worker.rs:97-205 | claims and answers of one worker that awaits each call, writes of everyone else in between, and restarts that settle what was left in flight together keep to one claim at a time |
| WorkerRuns.OwnerAloneReopens | src/state/transitions.rs:1819-1840 | in every such life of the program a blocked gate changes only by the decision about its owner, and that decision opens it |
| Progress.NextStep | src/state/transitions.rs:756-833 | from every reachable database with a completed session not submitted, and whatever the operator answers, some enabled remote step gets closer |
| Progress.CompletedCanBeSubmitted | src/state/transitions.rs:1125-1493 | whatever the operator finds about operations whose outcome is open, done or not done, every completed upload session can reach Submitted by finitely many claims, confirmations and answers at times that never go back |
| Ownership.DetectHardConflicts | src/state/ownership.rs:58-113 | refuses exactly when two sessions that are not closed share a room or a room names a session it cannot belong to |
| Ownership.Audit | src/state/ownership.rs:13-56 | from any database, refuses without writing exactly on a hard conflict, and otherwise leaves an exact ownership graph having turned exactly the mismatched sessions to recovery |
| Inspection.DetectAnomalies | src/state/inspection.rs:221-289 | the list holds exactly the anomalies of sessions, rooms, segments with their files, submissions and upload targets |
| Inspection.MismatchIff | src/state/inspection.rs:291-379 | on any database a room mismatch is reported exactly when ownership is not exact |
| Inspection.InvalidUploadIff | src/state/inspection.rs:584-628 | on reachable databases an invalid upload state is reported exactly for announced discards of upload sessions |
| Inspection.ReachableIsClean | src/state/inspection.rs:662-690 | reachable databases show no mismatch, no orphan and no misplaced submission |
| Inspection.ConflictIff | src/state/inspection.rs:380-582 | a file conflict is reported exactly where startup recovery leaves the files of an intent alone |
| Inspection.DiagnosisForetells | src/state/inspection.rs:430-530 | what is reported of an announced file action tells what startup recovery makes of it: interrupted ones are completed, ones without a file fail, conflicts stay |
| Inspection.NothingReportedIff | src/state/inspection.rs:221-289 | a reachable database shows no anomaly exactly if every session is closed, every recording is there alone or accounted for, no remote operation is in doubt and every gate is open |
| Inspection.SettledFilesAreClean | src/state/inspection.rs:380-582 | in every state a crash can leave, no Ready row is reported missing, and no Filtered row, nor a Deleted one without a part, to have kept a file |
| FileLayout.NamesNeverMeet | src/recorder/segment.rs:61-76 | no two segments, in whatever directories, share a file name, and no segment's two files do |
| FileSystem.Disk.RenameNoReplace | src/recorder/artifact_commit.rs:499-540 | moves the file atomically and never replaces an existing target |
| FileSystem.Disk.RemoveRegularFileIfExists | src/recorder/artifact_commit.rs:459-472 | removes a regular file, accepts a missing one, refuses anything else |
| FileSystem.Disk.SyncParent | src/recorder/artifact_commit.rs:568-587 | makes the visible directory durable |
| ArtifactCommit.CrashKeepsRows | src/recorder/artifact_commit.rs:13-110 | whatever prefix of unsynced changes a crash keeps, every row's promise about its files still holds |
| ArtifactCommit.OpKeepsRows | src/recorder/artifact_commit.rs:13-110 | a file step on one row's paths that keeps its promise keeps every row's |
| ArtifactCommit.Committer.Record | src/recorder/mod.rs:474-515 | the row comes before its part; under names free in every crash state the bytes written are promised for good |
| ArtifactCommit.Committer.Finalize | src/recorder/artifact_commit.rs:13-34 | crashes included, keeps every promise; once done the row is Ready and durably has the part's bytes at its final name; where nothing fails it is done, and where something does the intent stays with its session in recovery and the reason on record |
| ArtifactCommit.Committer.Discard | src/recorder/artifact_commit.rs:36-58 | once done the row is Filtered and both its files are durably gone; it is done where the files allow it and nothing fails, and otherwise the intent stays with the reason on record |
| ArtifactCommit.Committer.Delete | src/recorder/artifact_commit.rs:60-69 | once done the row is Deleted and its final file is durably gone; it is done where the file can be removed and nothing fails, and otherwise stays announced |
| ArtifactCommit.Committer.ResolveConflict | src/recorder/artifact_commit.rs:71-110 | records the decision with the bytes it is about, also where it then crashes, and where nothing fails replays it to an end that agrees with it, exactly if the conflict is open to it; outside a decision for the part, final files in place stay |
| ArtifactCommit.Committer.ReplayConflict | src/recorder/artifact_commit.rs:336-427 | replaying a decision is safe from every crash it may have been interrupted by |
| ArtifactCommit.Committer.ReconcileRow | src/recorder/artifact_commit.rs:124-330 | on a dependable disk, by the row's state and the kinds of its two files: whatever can be completed is, with the right bytes durable or the files durably gone; a row fails only if it was being written or has no file left; in every other case it is left as it is, with the reason on record |
| ArtifactCommit.Committer.Reconcile | src/recorder/artifact_commit.rs:112-334 | every row gets that, given the row and its files as they were before startup recovery began; it never fails while the store works, keeps every final file in place but those of deletions and decisions for the part, never touches submissions and gates, and a second run changes nothing but the times at which rooms were written |
| ArtifactCommit.SettledRowsAreDurable | src/recorder/artifact_commit.rs:13-110 | in every state a crash can leave, Ready rows have their bytes and Filtered and Deleted rows have no file |
| ArtifactCommit.UnshelteredLoses | src/recorder/artifact_commit.rs:124-419 | where some crash leaves such files for an announced finalization or a decision for either file, that crash and recovery make other bytes the recording |
| ArtifactCommit.StrayFinalTakesOver | src/recorder/artifact_commit.rs:13-190 | a segment recorded beside a durable stray final file, announced for finalization, stopped and recovered is Ready with the stray bytes |
| ArtifactCommit.OtherCommandsKeepFiles | src/state/transitions.rs:35-1493 | transitions outside the protocol keep every promise about files |
| ArtifactCommit.NewSegmentKeepsFiles | src/recorder/mod.rs:474-515 | a new segment under names of its own keeps every promise about files |
| ArtifactCommit.Transition | src/state/store.rs:139-155 | each of the other transitions, performed by the store, keeps every promise about files |
| ArtifactRuns.PerformAll | src/recorder/artifact_commit.rs:13-334 | every sequence of recordings, finalizations, discards, deletions, decisions, recoveries, other transitions and stops keeps the invariant, every promise about written bytes, what was decided until it is decided anew, and every final file in place that is neither to be deleted nor to make way for a part |
| ArtifactRuns.RecordedBytesSurvive | src/recorder/artifact_commit.rs:13-334 | a segment recorded where no crash state had its names: whatever happens later, if it is Ready its final file durably has the bytes written |
| ArtifactRuns.DecidedBytesSurvive | src/recorder/artifact_commit.rs:71-427 | a decision for the part or the final file that no crash can intrude on: wherever it stops and whatever follows short of a new decision, if the row is Ready its final file durably has the decided bytes |
| ArtifactRuns.FinalizedBytesSurvive | src/recorder/artifact_commit.rs:13-190 | the same of a finalization and the part's bytes, whatever else has the segment's names |
| ArtifactRuns.CommittedFileIsSound | src/recorder/mod.rs:374-455 | a file of any run, committed and then recovered after any stops, is Ready only if the recorder completed it, and then durably is a file that parses back in full with a correct index; where nothing fails a completed file does get Ready |
| UploadWork.ReconcileSessionUploads | src/uploader/validation.rs:160-180 | three lists, exactly the rows of each kind, parts in recording order |
| UploadWork.ReadyIffSubmittable | src/uploader/validation.rs:122-178 | on reachable databases the worker's readiness equals what the submission transition asks for |
| UploadWork.PendingDurableWork | src/uploader/work.rs:31-104 | the list holds exactly the work that remains |
| UploadWork.HasExecutableDurableWork | src/uploader/work.rs:106-124 | true exactly when some of it needs no gate or has an uploader and a gate that is not blocked |
| UploadWorker.StartsUploadIff | src/uploader/worker.rs:106-188 | under a new id the worker starts an upload exactly if the claim would be accepted, its target has an uploader, its file is there and nothing holds it back |
| UploadWorker.StartsSubmissionIff | src/uploader/worker.rs:310-384 | under a new id the worker starts a submission exactly if the claim would be accepted, its target has an uploader and no stop was asked for |
| UploadWorker.IdleStartsNothing | src/uploader/work.rs:106-124 | with no executable work left, nothing is started or deleted at any time under any circumstances |
| UploadWorker.ExecutableCanStart | src/uploader/work.rs:106-124 | executable work is left exactly if something can be started at some time, or deleted |
| UploadWorker.CleanupNeverRefuses | src/uploader/worker.rs:509-548 | on reachable databases every row of a submitted session is one that cleanup knows |
| UploadWorker.Worker.TryUpload | src/uploader/worker.rs:106-308 | whatever is started is claimed and its answer recorded for what it is: a valid confirmation leaves its proof, a retryable failure a wait until its retry time, a blocking one a block by this attempt, an ambiguous answer an ambiguous upload; the gate closes exactly for target-wide failures; nothing else changes |
| UploadWorker.Worker.TrySubmit | src/uploader/worker.rs:310-507 | the same for a submission, which carries the proof of every uploaded segment of its session, each once, in recording order |
| UploadWorker.Worker.CleanupSubmittedSession | src/uploader/worker.rs:509-548 | never refuses; row by row what is uploaded becomes Deleted where its file was removed and stays Deleting where not, up to the first deletion before which a stop was asked for; nothing else changes |
| UploadWorker.Worker.RunOnce | src/uploader/worker.rs:97-104 | every listed segment and then every listed session has its turn: what may start then is claimed and answered, what is submitted is cleaned up; no transition refuses anything as long as confirmations carry usable proofs, nothing stays in flight, an idle pass changes nothing, and the pass claims only when none of its calls is open |
| UploadWorker.ReconcileInterruptedAttempts | src/state/transitions.rs:1495-1529 | every attempt left open becomes ambiguous as the attempt it was, in the row and in its record, no other row or record changes, nothing is in flight, and all of it is done by reports |
| FlvFormat.HeaderRoundTrip | src/recorder/flv.rs:25-71 | a written file header reads back |
| FlvFormat.HeaderRewrites | src/recorder/flv.rs:25-71 | a header is written back byte for byte exactly when its reserved flags are clear |
| FlvFormat.TagHeaderRoundTrip | src/recorder/flv.rs:74-130 | a tag header within 24-bit sizes reads back |
| FlvFormat.TagHeaderRewrites | src/recorder/flv.rs:74-130 | a parsed tag header is written back byte for byte |
| FlvFormat.TagRoundTrip | src/recorder/flv.rs:149-181 | a tag that fits is written, takes its span and reads back whatever follows |
| FlvFormat.TagRewrites | src/recorder/flv.rs:149-181 | whatever parses as a tag fits and is written back byte for byte |
| FlvFormat.SurvivesWritingIff | src/recorder/flv.rs:102-181 | exactly the tags that fit are written so that they read back, for payloads of every length |
| FlvFormat.WireFormat | src/recorder/flv.rs:25-181 | every byte of a written file header, tag header and back pointer is where Annex E puts it |
| AvcPayload.NaluLengthSize | src/recorder/flv.rs:283-302 | an accepted sequence header gives a length size of 1, 2 or 4 |
| AvcPayload.SplitOfJoin | src/recorder/flv.rs:375-429 | splitting a payload undoes joining its units |
| AvcPayload.JoinOfSplit | src/recorder/flv.rs:375-429 | a payload that splits is exactly its units, each well formed |
| AvcPayload.KeptAccounts | src/recorder/flv.rs:304-351 | what removal keeps and what it counts add up to the old length |
| AvcPayload.CleanedReparses | src/recorder/flv.rs:304-351 | a cleaned packet holds exactly the units whose type is not 12, each once and in order, and cleaning it again changes nothing |
| AvcPayload.Compact | src/recorder/flv.rs:431-453 | moves the kept units to the front in place, in order, without ever failing to read one |
| AvcPayload.RemoveFiller | src/recorder/flv.rs:304-351 | refuses with the right reason and an untouched buffer, or leaves the packet without filler and counters that match |
| Amf.RoundTrip | src/recorder/flv_metadata.rs:128-283 | reading a written value gives it back and stops behind it, empty keys and trailing bytes included |
| Amf.EntryIsNoEnd | src/recorder/flv_metadata.rs:202-208 | no written entry looks like the object end |
| Amf.ReadIsReadable | src/recorder/flv_metadata.rs:128-200 | whatever is read keeps the limits on depth, counts, keys and UTF-8 |
| Amf.RoundTripIff | src/recorder/flv_metadata.rs:128-283 | a written value reads back if and only if it keeps those limits |
| Amf.WireFormat | src/recorder/flv_metadata.rs:228-283 | every type has its marker, and lengths, keys and ends are laid out as the specification has them |
| AmfStreams.Reader.ReadValueAt | src/recorder/flv_metadata.rs:132-167 | the cursor's read agrees with the reader's specification in value and position |
| AmfStreams.Writer.WriteValue | src/recorder/flv_metadata.rs:254-283 | appends exactly the value's encoding |
| Metadata.ParseMetadataProperties | src/recorder/flv_metadata.rs:63-74 | the properties of an `onMetaData` body, or none |
| Metadata.BuildMetadataBody | src/recorder/flv_metadata.rs:13-39 | a body of at most 1022 foreign properties reads back as those, in the stream's order, the duration in seconds and the keyframe tables |
| Metadata.WriteKeyframesValue | src/recorder/flv_metadata.rs:292-312 | under `times` and `filepositions` item by item the time and the offset of each keyframe that fits, and under `spacer` NaN in what is left of the room for 4096 |
| Metadata.KeyframesSize | src/recorder/flv_metadata.rs:292-312 | the index takes the same room however many keyframes it holds |
| Metadata.BodyReparses | src/recorder/flv_metadata.rs:63-74 | a body of at most 1024 properties reads back as those properties |
| Metadata.CrowdedBodyIsRefused | src/recorder/flv_metadata.rs:147-156 | a body of more is not read at all |
| Metadata.BodySize | src/recorder/flv_metadata.rs:13-39 | a body's size depends on the foreign properties alone |
| Metadata.RewriteKeepsLengthIff | src/recorder/mod.rs:653-672 | a rewrite keeps its length exactly with at most 1022 foreign properties in a body of at most 1 MiB, and is shorter otherwise |
| Metadata.RewrittenBodyReparses | src/recorder/mod.rs:653-672 | a rewritten body reads back as the stream's other properties in order, the duration under its name, and times and offsets of the keyframes item by item under theirs |
| Metadata.CrowdedSourceBreaksRewrite | src/recorder/mod.rs:653-672 | 1023 small, well-formed properties break every rewrite |
| Metadata.BodyFitsTag | src/recorder/mod.rs:576-583 | whatever the stream sends, the body fits a 24-bit tag size |
| Timestamps.ReachableClock | src/recorder/flv_pipeline.rs:182-236 | the last output remembered is the maximum of all outputs, and the offset explains the last one |
| Timestamps.StepLaw | src/recorder/flv_pipeline.rs:204-236 | the first tag is at zero; gaps up to 500 ms are kept short of the ends of the range; jumps land 33, 22 or 0 ms behind the maximum, saturating |
| Timestamps.StepBound | src/recorder/flv_pipeline.rs:204-236 | no output exceeds every earlier one by more than 500 ms |
| Timestamps.SpanBound | src/recorder/flv_pipeline.rs:204-236 | n tags span at most 500 * (n - 1) ms |
| Timestamps.TimestampNormalizer.Normalize | src/recorder/flv_pipeline.rs:204-236 | one step of the clock, with only the timestamp of the tag changed |
| FlvPipeline.CacheTagIsKept | src/recorder/flv_pipeline.rs:74-160 | header tags are never written, and one that differs while recording forces a new file unless in-band sets make up for it |
| FlvPipeline.MediaKeepsHeaders | src/recorder/flv_pipeline.rs:110-160 | media tags leave the cached headers alone and go on cleaned, fitting their tag |
| FlvPipeline.InBandStep | src/recorder/flv_pipeline.rs:167-180 | only a keyframe that brings both kinds of parameter sets counts towards confirmation, and two confirm |
| FlvPipeline.FlvNormalizer.ObserveTag | src/recorder/flv_pipeline.rs:69-161 | caching, refusal and cleaning agree with the specification; a tag to be written is a keyframe exactly if it is video whose first two bytes are 0x17 and 0x01; a refused tag changes nothing |
| FlvPipeline.MediaGroupBuffer.ShouldStartNewGroup | src/recorder/flv_pipeline.rs:270-281 | a keyframe after video, or a timestamp 24.999 seconds or more ahead or more than that behind, starts a group |
| FlvPipeline.MediaGroupBuffer.Flush | src/recorder/flv_pipeline.rs:287-312 | a group is unique unless its fingerprint is among the last sixteen, and more than ten repeats in a row exceed the threshold |
| SegmentFile.ReadTagsOfWritten | src/recorder/flv.rs:149-181 | tags written in a row read back as themselves |
| SegmentFile.IndexRises | src/recorder/mod.rs:358-367 | index times rise by more than 1900 ms from entry to entry, and positions with them |
| SegmentFile.IndexIsDense | src/recorder/mod.rs:358-367 | no keyframe is more than 1900 ms later than some index entry at or before it |
| SegmentFile.IndexPointsIntoFile | src/recorder/mod.rs:340-372 | every index entry is the byte offset of a tag of that time whose payload starts with 0x17 0x01 |
| SegmentFile.RewrittenFile | src/recorder/mod.rs:653-695 | the rewrite replaces the metadata body and nothing else |
| SegmentFile.FinishedFileParses | src/recorder/mod.rs:545-695 | a finished file parses back, with nothing left over, as header, final metadata, cached headers and the logged media in order |
| Recorder.ChunkIndependence | src/recorder/mod.rs:139-229 | however a stream is cut into chunks, the recorder ends as after one pass: same tags, files, first error and bytes left |
| Epochs.HandleKeeps | src/recorder/mod.rs:182-219 | handling a tag keeps every promise about files and headers and never finds a header missing |
| StreamLedger.EveryTagIsDecodable | src/recorder/mod.rs:188-299 | in every file of every run each media tag is the cleaned tag of its place in the stream, the audio header and the length size sent last before it are the file's own, and so is the AVC header unless two earlier keyframes of the stream brought both kinds of parameter sets |
| StreamLedger.FilesHoldTheStream | src/recorder/mod.rs:231-338 | on every run the media tags taken are cleaned tags of the stream in its order, the files hold exactly the groups of them that were written, and every other group repeats one written before |
| StreamLedger.EndHoldsTheStream | src/recorder/mod.rs:616-632 | a recording that ends in good order leaves nothing pending: every tag taken was written or repeats what was |
| StreamLedger.TakenIff | src/recorder/mod.rs:182-219 | a tag is taken exactly if it is media to be written, a file is open or it is the keyframe that opens one, no header change waits for a keyframe, and it does not end the run |
| StreamLedger.FilesOpenAtKeyframes | src/recorder/mod.rs:231-299 | no tag opens a file but video that starts with 0x17 0x01 |
| StreamLedger.KeyframeOpensIff | src/recorder/mod.rs:231-299 | a keyframe that is taken opens a file exactly if none is open or the open one has reached its size or its time or has other headers, and the one it closes is that one |
| StreamLedger.TagDedups | src/recorder/flv_pipeline.rs:287-312 | whatever the tag, at most one group ends; it is dropped exactly if its fingerprint is among the newest sixteen written since headers last changed, and the stream ends for repeated data exactly at the eleventh repeat in a row |
| Epochs.EveryFileIsSound | src/recorder/mod.rs:374-455 | each file is dropped exactly when too small, given up exactly when its metadata cannot be rewritten, and otherwise parses back in full; item for item its `filepositions` has the offset of a tag that starts with 0x17 0x01 and whose time is in `times` |
| Lookalikes.IndexIsVideoIff | src/recorder/mod.rs:340-372 | every index entry stands for video if and only if no audio tag that looks like a keyframe comes when the index is ready for another entry |
| Lookalikes.LookalikeIsReached | src/recorder/mod.rs:340-372 | one stream of eight tags that, under every configuration, ends in a file whose index holds an entry for audio |
| FlvRecorder.ActiveSegment.Append | src/recorder/mod.rs:340-372 | the file grows by the tag's bytes, the duration is the longest time, and a tag that starts with 0x17 0x01 is indexed if it is the first or more than 1900 ms after the last; writing never fails |
| FlvRecorder.ActiveSegment.RewriteMetadata | src/recorder/mod.rs:653-695 | overwrites the body in place, or refuses and leaves the file |
| FlvRecorder.FlvRecorder.PushChunk | src/recorder/mod.rs:139-222 | one chunk takes the recorder where the specification's pass takes it, with the same error and the same bytes left |
| FlvRecorder.FlvRecorder.Finalize | src/recorder/mod.rs:616-632 | what is pending is written and the file finished, in step with the specification |
| FlvRecorder.FlvRecorder.MarkFailed | src/recorder/mod.rs:634-650 | the file being written is given up and nothing else changes |

## Left out

- The network, credentials, request signing and the remote services: a remote call is an arbitrary answer.
- Configuration, templates, stream choice, the supervisor's restarts and the command line: easier claims of their own.
- Tasks, channels, events and logging: a stop or crash is a stop between two steps, and transitions do not interleave within one.
- Row and schema encoding: rows keep their fields, and a commit is atomic and durable.
- Session and room names, titles, the submission form and the recording plan beyond what transitions look at.
- Explanations stored in rows are a datatype of the sentences the transitions compose, not rendered text; errors carry a short message.
- Identifiers are unbounded numbers; that a new one is unused is assumed where the program draws it at random.
- SegmentKeys.DecodeSegments: ids are numbers below 2^128 and text is their lower-case hyphenated form.
- Inspection.DetectAnomalies: does not report paths that cannot be inspected, since the modelled directory has none.
- Files: one directory, no permission faults, no files that cannot be inspected, no link-based rename, and no change by anyone else during a run.
- The order in which the audit, the recovery and the diagnosis visit rows, and their messages, other than the set of what they do or report.
- Failures of the disk and of the store while a file is recorded: they end the recording with the row marked failed, which the protocol part covers.
- FlvRecorder.FlvRecorder.OpenNewSegment: does not create the segment row or the file on disk, which `ArtifactCommit.Committer.Record` does.
- FlvRecorder.FlvRecorder.FinalizeCurrentSegment: does not hand the file to the commit protocol, which `ArtifactRuns.CommittedFileIsSound` does for every file of a run.
- ArtifactRuns.CommittedFileIsSound: a file is taken to the disk as a whole, after the stream; its growth on the disk while it is written is not modelled.
- FlvRecorder.FlvRecorder.PushChunk: does not read a clock; whether the time is up is an arbitrary answer for every tag.
- Metadata.BuildMetadataBody: does not compute floating point; the patterns of seconds, offsets and NaN are arbitrary functions, and file offsets are unbounded.
- FlvPipeline.MediaGroupBuffer.Flush: does not compute the hash; a fingerprint is an arbitrary function of the group.
- UploadWorker.Worker.RunOnce: does not compute when a retry is due from the wall clock; that time is an arbitrary answer, and a stop request is one per turn and per deletion.
- UploadWorker.Worker.CleanupSubmittedSession: does not remove files itself; whether a file could be removed is an arbitrary answer per row.
- Retry delays and failure counts beyond their effect on transitions: easier members.
