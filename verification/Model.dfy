/** The durable rows of the state database (src/state/model.rs). */
module Model {
  import opened Wrappers

  type Uuid = nat
  type RoomId = nat
  type Timestamp = int
  type Path = string

  const MAX_U32: nat := 0xFFFF_FFFF

  predicate IsAbsolute(path: Path) {
    |path| > 0 && path[0] == '/'
  }

  predicate IsWhitespace(c: char) {
    c in {'\t', '\n', '\U{0B}', '\U{0C}', '\r', ' ', '\U{85}', '\U{A0}', '\U{1680}',
          '\U{2028}', '\U{2029}', '\U{202F}', '\U{205F}', '\U{3000}'}
    || '\U{2000}' <= c <= '\U{200A}'
  }

  predicate IsControl(c: char) {
    c < ' ' || '\U{7F}' <= c <= '\U{9F}'
  }

  predicate IsBlank(text: string) {
    forall c | c in text :: IsWhitespace(c)
  }

  predicate IsPrintable(text: string) {
    !IsBlank(text) && forall c | c in text :: !IsControl(c)
  }

  /** A persisted explanation: free text, or one of the sentences the transitions compose. */
  datatype Reason =
    | Text(text: string)
    | SegmentFailed(sid: Uuid, index: nat, cause: Reason)
    | UnresolvedIntent(sid: Uuid, index: nat, intent: ArtifactState)
    | FailedNeedsDecision(sid: Uuid, index: nat)
    | OperatorExcluded(cause: Reason)
    | OwnershipMismatch(room: RoomId, sid: Uuid)
    | ArtifactStopped(sid: Uuid, index: nat, detail: string)
  {
    predicate Blank() {
      Text? && IsBlank(text)
    }
  }

  // ----- Sessions -----

  datatype SessionClosure =
    | Completed(closedAt: Timestamp, note: Option<string>)
    | NoUsableRecording(closedAt: Timestamp)
    | Abandoned(closedAt: Timestamp, note: Option<string>)

  datatype SessionLifecycle =
    | Open
    | RecoveryRequired(reason: Reason, detectedAt: Timestamp)
    | Closed(closure: SessionClosure)
  {
    predicate Completed() {
      Closed? && closure.Completed?
    }

    predicate PermitsUpload() {
      Open? || Completed()
    }

    predicate PermitsSubmission() {
      Completed()
    }
  }

  datatype RecordingDecision = FinalizedDecision | AbandonedDecision

  datatype RecordingEvent =
    | RecoveryDetected(detectedAt: Timestamp, reason: Reason)
    | OperatorResolved(resolvedAt: Timestamp, decision: RecordingDecision, note: Option<string>)

  datatype SubmitApi = App | Web

  datatype UploadPrincipal = UploadPrincipal(cookieFile: Path, expectedMid: nat)

  datatype UploadTarget =
    UploadTarget(principal: UploadPrincipal, line: string, threads: nat, submitApi: SubmitApi)

  datatype UploadPlan = UploadPlan(target: UploadTarget, deleteAfterSubmit: bool)

  datatype OutputPlan = LocalOnly | Bilibili(upload: UploadPlan)

  datatype LiveSession = LiveSession(
    id: Uuid,
    roomId: RoomId,
    startedAt: Timestamp,
    lifecycle: SessionLifecycle,
    outputDir: Path,
    credential: Option<Path>,
    outputPlan: OutputPlan,
    events: seq<RecordingEvent>)

  datatype RoomLifecycle = Ready | Owned(sid: Uuid) | Blocked(sid: Uuid)

  datatype RoomState =
    RoomState(lifecycle: RoomLifecycle, changedAt: Timestamp, message: Option<Reason>)

  // ----- Segments -----

  datatype SegmentCloseReason =
    | Rotation
    | StreamEnded
    | ConnectionDropped
    | IdleTimeout(seconds: nat)
    | GracefulShutdown
    | RepeatedMediaData

  datatype ArtifactDecision = KeepPart | KeepFinal | Exclude

  datatype ArtifactResolution =
    ArtifactResolution(decidedAt: Timestamp, decision: ArtifactDecision, note: Option<string>)

  datatype ArtifactState =
    | Writing
    | Finalizing(closeReason: SegmentCloseReason)
    | Ready(closeReason: SegmentCloseReason)
    | Discarding(closeReason: SegmentCloseReason)
    | ResolvingConflict(closeReason: SegmentCloseReason, decision: ArtifactDecision)
    | Filtered(closeReason: SegmentCloseReason)
    | Failed(reason: Reason, failedClose: Option<SegmentCloseReason>)
    | Excluded(excludedFor: Reason)
    | Deleting
    | Deleted
  {
    /** A file action was announced, or recording is under way, and its end is not recorded yet. */
    predicate Unresolved() {
      Writing? || Finalizing? || Discarding? || ResolvingConflict? || Deleting?
    }

    predicate Usable() {
      Ready? || Deleting? || Deleted?
    }

    function CloseReason(): Option<SegmentCloseReason> {
      match this
      case Finalizing(c) => Some(c)
      case Ready(c) => Some(c)
      case Discarding(c) => Some(c)
      case Filtered(c) => Some(c)
      case ResolvingConflict(c, _) => Some(c)
      case Failed(_, c) => c
      case _ => None
    }
  }

  datatype RemoteAttempt = RemoteAttempt(id: Uuid, startedAt: Timestamp)

  /** What the program learned about one remote attempt; `P` is the proof of success. */
  datatype AttemptOutcome<+P> =
    | Confirmed(proof: P)
    | RetryScheduled(reason: Reason)
    | BlockedOutcome(reason: Reason)
    | AmbiguousOutcome(reason: Reason)

  datatype AttemptRecord<+P> = AttemptRecord(
    attempt: RemoteAttempt,
    finishedAt: Option<Timestamp>,
    outcome: Option<AttemptOutcome<P>>)

  datatype OperatorDecision<+P> = ConfirmedNotDone | ConfirmedDone(proof: P)

  datatype OperatorResolution<+P> = OperatorResolution(
    attemptId: Option<Uuid>,
    resolvedAt: Timestamp,
    decision: OperatorDecision<P>,
    note: Option<string>)

  datatype UploadedPart = UploadedPart(filename: string, title: string) {
    predicate Valid() {
      IsPrintable(filename) && IsPrintable(title)
    }
  }

  datatype UploadState =
    | NotPlanned
    | Pending(failures: nat, retryAt: Option<Timestamp>, lastError: Option<Reason>)
    | Attempting(attempt: RemoteAttempt)
    | Blocked(attemptId: Option<Uuid>, reason: Reason)
    | Ambiguous(attempt: RemoteAttempt, reason: Reason)
    | Uploaded(proof: UploadedPart)
    | Cancelled(cancelledAt: Timestamp)
  {
    predicate Due(now: Timestamp) {
      Pending? && (retryAt.None? || retryAt.value <= now)
    }
  }

  const FreshPending: UploadState := Pending(0, None, None)

  datatype SegmentKey = SegmentKey(sid: Uuid, index: nat)

  datatype Segment = Segment(
    sid: Uuid,
    index: nat,
    partPath: Path,
    finalPath: Path,
    artifact: ArtifactState,
    artifactResolutions: seq<ArtifactResolution>,
    upload: UploadState,
    attempts: seq<AttemptRecord<UploadedPart>>,
    resolutions: seq<OperatorResolution<UploadedPart>>)
  {
    function Key(): SegmentKey {
      SegmentKey(sid, index)
    }
  }

  // ----- Submissions -----

  datatype SubmissionProof = SubmissionProof(aid: Option<nat>, bvid: Option<string>) {
    predicate Valid() {
      && aid != Some(0)
      && (aid.Some? || bvid.Some?)
      && (bvid.Some? ==> IsPrintable(bvid.value))
    }
  }

  datatype SubmissionState =
    | RetryScheduledAt(failures: nat, retryAt: Timestamp, lastError: Reason)
    | Attempting(attempt: RemoteAttempt)
    | Blocked(attemptId: Option<Uuid>, reason: Reason)
    | Ambiguous(attempt: RemoteAttempt, reason: Reason)
    | RetryAuthorized(authorizedAt: Timestamp)
    | Submitted(proof: SubmissionProof)
  {
    predicate Due(now: Timestamp) {
      RetryAuthorized? || (RetryScheduledAt? && retryAt <= now)
    }
  }

  datatype Submission = Submission(
    sid: Uuid,
    state: SubmissionState,
    attempts: seq<AttemptRecord<SubmissionProof>>,
    resolutions: seq<OperatorResolution<SubmissionProof>>)

  // ----- Upload targets -----

  datatype RemoteOperation =
    | UploadOp(sid: Uuid, index: nat, attemptId: Uuid)
    | SubmissionOp(sid: Uuid, attemptId: Uuid)

  datatype TargetGate =
    | Ready
    | Backoff(owner: RemoteOperation, failures: nat, retryAt: Timestamp, lastError: Reason)
    | Blocked(owner: RemoteOperation, since: Timestamp, reason: Reason)
  {
    /** Whether a claim made at `now` may pass. */
    predicate Admits(now: Timestamp) {
      Ready? || (Backoff? && retryAt <= now)
    }
  }
}
