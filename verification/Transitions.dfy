/**
  What each domain transition accepts and what it leaves behind, as a guard and an effect on
  one database snapshot (src/state/transitions.rs). A transition whose guard fails changes nothing.
 */
module Transitions {
  import opened Wrappers
  import opened Model
  import opened History
  import opened Database

  // ----- Room ownership -----

  predicate OwnsRoom(db: Db, session: LiveSession) {
    session.roomId in db.rooms && db.rooms[session.roomId].lifecycle == RoomLifecycle.Owned(session.id)
  }

  function DesiredOwner(session: LiveSession): RoomLifecycle
    requires !session.lifecycle.Closed?
  {
    if session.lifecycle.Open? then RoomLifecycle.Owned(session.id) else RoomLifecycle.Blocked(session.id)
  }

  /** Recovery may take a missing, ready or own room row, and never another session's. */
  predicate CanClaimRoom(db: Db, session: LiveSession) {
    && !session.lifecycle.Closed?
    && (session.roomId in db.rooms ==>
          var owner := db.rooms[session.roomId].lifecycle;
          owner.Ready? || owner.sid == session.id)
  }

  function ClaimRoom(db: Db, session: LiveSession, now: Timestamp): Db
    requires !session.lifecycle.Closed?
  {
    if session.roomId in db.rooms && db.rooms[session.roomId].lifecycle == DesiredOwner(session) then db
    else db.PutRoom(session.roomId, DesiredOwner(session), now,
                    if session.lifecycle.Open? then None else Some(session.lifecycle.reason))
  }

  // ----- Sessions -----

  predicate PlanAcceptable(plan: OutputPlan) {
    plan.Bilibili? ==>
      && plan.upload.target.threads > 0
      && !IsBlank(plan.upload.target.line)
      && plan.upload.target.principal.expectedMid > 0
      && IsAbsolute(plan.upload.target.principal.cookieFile)
  }

  predicate AcceptableNewSession(session: LiveSession) {
    && session.lifecycle.Open?
    && session.events == []
    && IsAbsolute(session.outputDir)
    && (session.credential.Some? ==> IsAbsolute(session.credential.value))
    && PlanAcceptable(session.outputPlan)
  }

  ghost predicate CanCreateSession(db: Db, session: LiveSession) {
    && AcceptableNewSession(session)
    && session.id !in db.sessions
    && (forall id | id in db.sessions && db.sessions[id].roomId == session.roomId :: db.sessions[id].lifecycle.Closed?)
    && (session.roomId in db.rooms ==> db.rooms[session.roomId].lifecycle.Ready?)
  }

  ghost function SessionCreated(db: Db, session: LiveSession, now: Timestamp): Db {
    var db := db.PutSession(session).PutRoom(session.roomId, RoomLifecycle.Owned(session.id), now, None);
    if session.outputPlan.Bilibili? && session.outputPlan.upload.target !in db.gates
    then db.PutGate(session.outputPlan.upload.target, TargetGate.Ready)
    else db
  }

  predicate Records(event: RecordingEvent, reason: Reason) {
    event.RecoveryDetected? && event.reason == reason
  }

  predicate HasRecorded(session: LiveSession, reason: Reason) {
    exists i | 0 <= i < |session.events| :: Records(session.events[i], reason)
  }

  /** The session once a recovery reason is noted; the first reason stays the primary one. */
  function RecoveryNoted(session: LiveSession, reason: Reason, now: Timestamp): LiveSession {
    session.(
      events := if HasRecorded(session, reason) then session.events
                else session.events + [RecoveryDetected(now, reason)],
      lifecycle := if session.lifecycle.RecoveryRequired? then session.lifecycle
                   else SessionLifecycle.RecoveryRequired(reason, now))
  }

  function MarkedForRecovery(db: Db, session: LiveSession, reason: Reason, now: Timestamp): Db {
    var noted := RecoveryNoted(session, reason, now);
    db.PutSession(noted).PutRoom(session.roomId, RoomLifecycle.Blocked(session.id), now, Some(noted.lifecycle.reason))
  }

  predicate CanRequireRecovery(db: Db, sid: Uuid, reason: Reason) {
    && !reason.Blank()
    && sid in db.sessions
    && CanClaimRoom(db, db.sessions[sid])
  }

  function RecoveryRequested(db: Db, sid: Uuid, reason: Reason, now: Timestamp): Db
    requires sid in db.sessions
  {
    var session := db.sessions[sid];
    if session.lifecycle.RecoveryRequired? then
      var current := session.lifecycle.reason;
      var noted := if current == reason then session else RecoveryNoted(session, reason, now);
      db.PutSession(noted).PutRoom(session.roomId, RoomLifecycle.Blocked(sid), now, Some(current))
    else
      var noted := session.(
        lifecycle := SessionLifecycle.RecoveryRequired(reason, now),
        events := session.events + [RecoveryDetected(now, reason)]);
      db.PutSession(noted).PutRoom(session.roomId, RoomLifecycle.Blocked(sid), now, Some(reason))
  }

  // ----- Closing a session -----

  datatype CloseRequest =
    | Natural(note: Option<string>)
    | Recover(excludeFailed: bool, note: Option<string>)
    | Abandon(note: Option<string>)

  function UnresolvedIndices(db: Db, sid: Uuid): set<nat> {
    set k | k in db.segments && k.sid == sid && db.segments[k].artifact.Unresolved() :: k.index
  }

  function FailedIndices(db: Db, sid: Uuid): set<nat> {
    set k | k in db.segments && k.sid == sid && db.segments[k].artifact.Failed? :: k.index
  }

  predicate HasUsable(db: Db, sid: Uuid) {
    exists k | k in db.segments :: k.sid == sid && db.segments[k].artifact.Usable()
  }

  /** An interrupted upload becomes ambiguous; one that certainly left nothing behind is cancelled. */
  function UploadAbandoned(segment: Segment, now: Timestamp): Segment
  {
    match segment.upload
    case Attempting(attempt) =>
      segment.(
        upload := UploadState.Ambiguous(attempt, Text("session was abandoned while upload outcome was unknown")),
        attempts := if Position(segment.attempts, attempt.id) < |segment.attempts|
                    then FinishIfOpen(segment.attempts, attempt.id, now) else segment.attempts)
    case Pending(_, _, _) => segment.(upload := Cancelled(now))
    case Blocked(_, _) => segment.(upload := Cancelled(now))
    case _ => segment
  }

  function FailureExcluded(segment: Segment): Segment {
    if segment.artifact.Failed?
    then segment.(artifact := Excluded(OperatorExcluded(segment.artifact.reason)), upload := NotPlanned)
    else segment
  }

  predicate GateBlockedBySession(db: Db, session: LiveSession) {
    && session.outputPlan.Bilibili?
    && session.outputPlan.upload.target in db.gates
    && var gate := db.gates[session.outputPlan.upload.target];
    && gate.Blocked?
    && gate.owner.sid == session.id
  }

  predicate RowAbandonable(segment: Segment) {
    && !segment.artifact.Unresolved()
    && (segment.upload.Attempting? ==> Position(segment.attempts, segment.upload.attempt.id) < |segment.attempts|)
  }

  predicate CanAbandon(db: Db, session: LiveSession) {
    && CanClaimRoom(db, session)
    && session.id !in db.submissions
    && !GateBlockedBySession(db, session)
    && forall k | k in db.segments && k.sid == session.id :: RowAbandonable(db.segments[k])
  }

  predicate CanClose(db: Db, sid: Uuid, request: CloseRequest) {
    && sid in db.sessions
    && var session := db.sessions[sid];
    match request
    case Natural(_) => session.lifecycle.Open? && OwnsRoom(db, session)
    case Recover(excludeFailed, _) =>
      && session.lifecycle.RecoveryRequired?
      && CanClaimRoom(db, session)
      && UnresolvedIndices(db, sid) == {}
      && (excludeFailed || FailedIndices(db, sid) == {})
    case Abandon(_) => CanAbandon(db, session)
  }

  function RowsAbandoned(db: Db, sid: Uuid, now: Timestamp): map<SegmentKey, Segment>
  {
    map k | k in db.segments :: if k.sid == sid then UploadAbandoned(db.segments[k], now) else db.segments[k]
  }

  function RowsExcluded(db: Db, sid: Uuid): map<SegmentKey, Segment> {
    map k | k in db.segments :: if k.sid == sid then FailureExcluded(db.segments[k]) else db.segments[k]
  }

  function ClosedAs(db: Db, session: LiveSession, closure: SessionClosure, events: seq<RecordingEvent>,
      now: Timestamp): Db {
    db.PutSession(session.(lifecycle := Closed(closure), events := session.events + events))
      .PutRoom(session.roomId, RoomLifecycle.Ready, now, None)
  }

  /** Completed when something usable was recorded. */
  function Closure(db: Db, sid: Uuid, note: Option<string>, now: Timestamp): SessionClosure {
    if HasUsable(db, sid) then Completed(now, note) else NoUsableRecording(now)
  }

  ghost function SessionClosed(db: Db, sid: Uuid, request: CloseRequest, now: Timestamp): Db
    requires CanClose(db, sid, request)
  {
    var session := db.sessions[sid];
    match request
    case Abandon(note) =>
      ClosedAs(db.(segments := RowsAbandoned(db, sid, now)), session, Abandoned(now, note),
               [OperatorResolved(now, AbandonedDecision, note)], now)
    case Natural(note) =>
      if UnresolvedIndices(db, sid) != {} then
        var index := Least(UnresolvedIndices(db, sid));
        MarkedForRecovery(db, session, UnresolvedIntent(sid, index, db.segments[SegmentKey(sid, index)].artifact), now)
      else if FailedIndices(db, sid) != {} then
        MarkedForRecovery(db, session, FailedNeedsDecision(sid, Least(FailedIndices(db, sid))), now)
      else
        ClosedAs(db, session, Closure(db, sid, note, now), [], now)
    case Recover(_, note) =>
      ClosedAs(db.(segments := RowsExcluded(db, sid)), session, Closure(db, sid, note, now),
               [OperatorResolved(now, FinalizedDecision, note)], now)
  }

  // ----- Segments -----

  /** Indices are handed out in sequence from 1. */
  ghost function NextIndex(db: Db, sid: Uuid): nat {
    var used := SegmentIndices(db, sid);
    if used == {} then 1 else if Greatest(used) < MAX_U32 then Greatest(used) + 1 else MAX_U32
  }

  ghost predicate CanOpenSegment(db: Db, segment: Segment) {
    && segment.partPath != segment.finalPath
    && IsAbsolute(segment.partPath) && IsAbsolute(segment.finalPath)
    && segment.sid in db.sessions
    && db.sessions[segment.sid].lifecycle.Open?
    && OwnsRoom(db, db.sessions[segment.sid])
    && segment.Key() !in db.segments
    && segment.index == NextIndex(db, segment.sid)
    && segment.artifact.Writing?
  }

  /** Upload intent comes from the session's frozen plan, whatever the caller wrote in the row. */
  function FreshRow(session: LiveSession, segment: Segment): Segment {
    segment.(
      upload := if session.outputPlan.Bilibili? then FreshPending else NotPlanned,
      artifactResolutions := [], attempts := [], resolutions := [])
  }

  ghost function SegmentOpened(db: Db, segment: Segment): Db
    requires segment.sid in db.sessions
  {
    db.PutSegment(FreshRow(db.sessions[segment.sid], segment))
  }

  /** The artifact updates that run under the recording session's room claim. */
  datatype ArtifactMove =
    | BeginFinalization(closeReason: SegmentCloseReason)
    | CompleteFinalization
    | BeginDiscard(closeReason: SegmentCloseReason)
    | CompleteDiscard
    | KeepResolved
    | ExcludeResolved
  {
    predicate RequiresOpen() {
      BeginFinalization? || BeginDiscard?
    }
  }

  const CONFLICT_EXCLUDED := Text("operator excluded a conflicting part/final artifact pair")

  function MoveArtifact(segment: Segment, move: ArtifactMove): Option<Segment> {
    match (move, segment.artifact)
    case (BeginFinalization(reason), Writing) => Some(segment.(artifact := Finalizing(reason)))
    case (CompleteFinalization, Finalizing(reason)) => Some(segment.(artifact := ArtifactState.Ready(reason)))
    case (BeginDiscard(reason), Writing) => Some(segment.(artifact := Discarding(reason)))
    case (CompleteDiscard, Discarding(reason)) => Some(segment.(artifact := Filtered(reason), upload := NotPlanned))
    case (KeepResolved, ResolvingConflict(reason, decision)) =>
      if decision.Exclude? then None else Some(segment.(artifact := ArtifactState.Ready(reason)))
    case (ExcludeResolved, ResolvingConflict(_, decision)) =>
      if decision.Exclude? then Some(segment.(artifact := Excluded(CONFLICT_EXCLUDED), upload := NotPlanned)) else None
    case _ => None
  }

  predicate CanMoveArtifact(db: Db, key: SegmentKey, move: ArtifactMove) {
    && key.sid in db.sessions
    && (if move.RequiresOpen() then db.sessions[key.sid].lifecycle.Open? && OwnsRoom(db, db.sessions[key.sid])
        else CanClaimRoom(db, db.sessions[key.sid]))
    && key in db.segments
    && MoveArtifact(db.segments[key], move).Some?
  }

  function ArtifactMoved(db: Db, key: SegmentKey, move: ArtifactMove, now: Timestamp): Db
    requires CanMoveArtifact(db, key, move)
  {
    ClaimRoom(db, db.sessions[key.sid], now).PutSegment(MoveArtifact(db.segments[key], move).value)
  }

  predicate CanBeginConflict(db: Db, key: SegmentKey) {
    && key.sid in db.sessions
    && db.sessions[key.sid].lifecycle.RecoveryRequired?
    && CanClaimRoom(db, db.sessions[key.sid])
    && key in db.segments
    && (db.segments[key].artifact.Finalizing? || db.segments[key].artifact.Discarding?)
  }

  function ConflictBegun(db: Db, key: SegmentKey, decision: ArtifactDecision, note: Option<string>, now: Timestamp): Db
    requires CanBeginConflict(db, key)
  {
    var segment := db.segments[key];
    ClaimRoom(db, db.sessions[key.sid], now).PutSegment(segment.(
      artifactResolutions := segment.artifactResolutions + [ArtifactResolution(now, decision, note)],
      artifact := ResolvingConflict(segment.artifact.closeReason, decision)))
  }

  predicate CanFailArtifact(db: Db, key: SegmentKey, reason: Reason) {
    && !reason.Blank()
    && key.sid in db.sessions
    && CanClaimRoom(db, db.sessions[key.sid])
    && key in db.segments
    && db.segments[key].artifact.Unresolved() && !db.segments[key].artifact.Deleting?
  }

  function ArtifactFailed(db: Db, key: SegmentKey, reason: Reason, closeReason: Option<SegmentCloseReason>,
      now: Timestamp): Db
    requires CanFailArtifact(db, key, reason)
  {
    var segment := db.segments[key];
    var close := if closeReason.Some? then closeReason else segment.artifact.CloseReason();
    MarkedForRecovery(db.PutSegment(segment.(artifact := Failed(reason, close))),
                      db.sessions[key.sid], SegmentFailed(key.sid, key.index, reason), now)
  }

  predicate CanBeginDelete(db: Db, key: SegmentKey) {
    && key.sid in db.sessions
    && db.sessions[key.sid].lifecycle.PermitsSubmission()
    && db.sessions[key.sid].outputPlan.Bilibili?
    && db.sessions[key.sid].outputPlan.upload.deleteAfterSubmit
    && key.sid in db.submissions
    && db.submissions[key.sid].state.Submitted?
    && key in db.segments
    && db.segments[key].artifact.Ready?
    && db.segments[key].upload.Uploaded?
  }

  predicate CanCompleteDelete(db: Db, key: SegmentKey) {
    key in db.segments && db.segments[key].artifact.Deleting?
  }

  function WithArtifact(db: Db, key: SegmentKey, artifact: ArtifactState): Db
    requires key in db.segments
  {
    db.PutSegment(db.segments[key].(artifact := artifact))
  }

  // ----- Remote attempts: what uploads and submissions share -----

  datatype FailureScope = Item | Target

  /** The remote boundary's answer about one attempt, as the worker records it. */
  datatype RemoteReport<+P> =
    | ReportConfirmed(proof: P)
    | ReportRetry(reason: Reason, retryAt: Timestamp, scope: FailureScope, failures: nat)
    | ReportBlocked(reason: Reason, scope: FailureScope)
    | ReportAmbiguous(reason: Reason)
  {
    /** A target-scoped failure counts at least once. */
    predicate Counted() {
      ReportRetry? && scope.Target? ==> failures > 0
    }

    function Outcome(): AttemptOutcome<P> {
      match this
      case ReportConfirmed(proof) => Confirmed(proof)
      case ReportRetry(reason, _, _, _) => RetryScheduled(reason)
      case ReportBlocked(reason, _) => BlockedOutcome(reason)
      case ReportAmbiguous(reason) => AmbiguousOutcome(reason)
    }

    predicate TargetScoped() {
      (ReportRetry? || ReportBlocked?) && scope.Target?
    }
  }

  /** A target-scoped failure closes the shared gate in the name of the attempt. */
  function ReportGate<P>(db: Db, target: UploadTarget, report: RemoteReport<P>, owner: RemoteOperation,
      now: Timestamp): Db {
    if !report.TargetScoped() then db
    else if report.ReportRetry? then
      db.PutGate(target, Backoff(owner, report.failures, report.retryAt, report.reason))
    else
      db.PutGate(target, TargetGate.Blocked(owner, now, report.reason))
  }

  predicate GateAdmits(db: Db, target: UploadTarget, now: Timestamp) {
    target in db.gates && db.gates[target].Admits(now)
  }

  predicate GateOwnedBy(db: Db, target: UploadTarget, owner: Option<RemoteOperation>) {
    && owner.Some?
    && target in db.gates
    && !db.gates[target].Ready?
    && db.gates[target].owner == owner.value
  }

  /** Only the operation that closed the gate can open it. */
  function GateCleared(db: Db, target: UploadTarget, owner: Option<RemoteOperation>): Db {
    if GateOwnedBy(db, target, owner) then db.PutGate(target, TargetGate.Ready) else db
  }

  function CountAsU32(n: nat): nat {
    n % (MAX_U32 + 1)
  }

  // ----- Uploads -----

  predicate CanBeginUpload(db: Db, key: SegmentKey, attempt: RemoteAttempt) {
    && key.sid in db.sessions
    && db.sessions[key.sid].lifecycle.PermitsUpload()
    && db.sessions[key.sid].outputPlan.Bilibili?
    && GateAdmits(db, db.sessions[key.sid].outputPlan.upload.target, attempt.startedAt)
    && key.sid !in db.submissions
    && key in db.segments
    && db.segments[key].artifact.Ready?
    && db.segments[key].upload.Due(attempt.startedAt)
    && Position(db.segments[key].attempts, attempt.id) == |db.segments[key].attempts|
  }

  function UploadStartedRow(segment: Segment, attempt: RemoteAttempt): Segment {
    segment.(attempts := segment.attempts + [Started(attempt)], upload := UploadState.Attempting(attempt))
  }

  function UploadBegun(db: Db, key: SegmentKey, attempt: RemoteAttempt): Db
    requires CanBeginUpload(db, key, attempt)
  {
    db.PutGate(db.sessions[key.sid].outputPlan.upload.target, TargetGate.Ready)
      .PutSegment(UploadStartedRow(db.segments[key], attempt))
  }

  predicate HasTarget(db: Db, sid: Uuid) {
    sid in db.sessions && db.sessions[sid].outputPlan.Bilibili?
  }

  function TargetOf(db: Db, sid: Uuid): UploadTarget
    requires HasTarget(db, sid)
  {
    db.sessions[sid].outputPlan.upload.target
  }

  predicate OpenRecord<P>(h: Attempts<P>, id: Uuid) {
    Position(h, id) < |h| && Unfinished(h[Position(h, id)])
  }

  predicate CanReportUpload(db: Db, key: SegmentKey, id: Uuid, report: RemoteReport<UploadedPart>) {
    && report.Counted()
    && (if report.ReportConfirmed? then report.proof.Valid() else HasTarget(db, key.sid))
    && key in db.segments
    && db.segments[key].upload.Attempting?
    && db.segments[key].upload.attempt.id == id
    && OpenRecord(db.segments[key].attempts, id)
  }

  function UploadAfter(report: RemoteReport<UploadedPart>, attempt: RemoteAttempt,
      h: Attempts<UploadedPart>): UploadState {
    match report
    case ReportConfirmed(proof) => Uploaded(proof)
    case ReportRetry(reason, retryAt, _, _) => Pending(CountAsU32(RetryCount(h)), Some(retryAt), Some(reason))
    case ReportBlocked(reason, _) => UploadState.Blocked(Some(attempt.id), reason)
    case ReportAmbiguous(reason) => UploadState.Ambiguous(attempt, reason)
  }

  function UploadReportedRow(segment: Segment, report: RemoteReport<UploadedPart>, now: Timestamp): Segment
    requires segment.upload.Attempting? && OpenRecord(segment.attempts, segment.upload.attempt.id)
  {
    var h := FinishAttempt(segment.attempts, segment.upload.attempt.id, now, report.Outcome());
    segment.(attempts := h, upload := UploadAfter(report, segment.upload.attempt, h))
  }

  function UploadReported(db: Db, key: SegmentKey, id: Uuid, report: RemoteReport<UploadedPart>, now: Timestamp): Db
    requires CanReportUpload(db, key, id, report)
  {
    var db' := db.PutSegment(UploadReportedRow(db.segments[key], report, now));
    if report.ReportConfirmed? then db'
    else ReportGate(db', TargetOf(db, key.sid), report, UploadOp(key.sid, key.index, id), now)
  }

  /** The upload is in a state an operator may decide about. */
  predicate UploadRecoverable(upload: UploadState) {
    upload.Attempting? || upload.Ambiguous? || upload.Blocked?
  }

  function UploadAttemptId(upload: UploadState): Option<Uuid>
    requires UploadRecoverable(upload)
  {
    if upload.Blocked? then upload.attemptId else Some(upload.attempt.id)
  }

  predicate HasRecord<P>(h: Attempts<P>, id: Option<Uuid>) {
    id.Some? ==> Position(h, id.value) < |h|
  }

  predicate CanResolveUpload(db: Db, key: SegmentKey, decision: OperatorDecision<UploadedPart>) {
    && (decision.ConfirmedDone? ==> decision.proof.Valid())
    && HasTarget(db, key.sid)
    && key.sid !in db.submissions
    && key in db.segments
    && UploadRecoverable(db.segments[key].upload)
    && HasRecord(db.segments[key].attempts, UploadAttemptId(db.segments[key].upload))
  }

  function OperatorClosed<P>(h: Attempts<P>, id: Option<Uuid>, now: Timestamp): Attempts<P>
    requires HasRecord(h, id)
  {
    if id.Some? then FinishIfOpen(h, id.value, now) else h
  }

  function UploadDecided(session: LiveSession, decision: OperatorDecision<UploadedPart>, now: Timestamp): UploadState {
    if decision.ConfirmedDone? then Uploaded(decision.proof)
    else if session.lifecycle.Closed? && !session.lifecycle.Completed() then Cancelled(now)
    else FreshPending
  }

  function UploadResolvedRow(session: LiveSession, segment: Segment, decision: OperatorDecision<UploadedPart>,
                             note: Option<string>, now: Timestamp): Segment
    requires UploadRecoverable(segment.upload) && HasRecord(segment.attempts, UploadAttemptId(segment.upload))
  {
    var id := UploadAttemptId(segment.upload);
    segment.(
      attempts := OperatorClosed(segment.attempts, id, now),
      resolutions := segment.resolutions + [OperatorResolution(id, now, decision, note)],
      upload := UploadDecided(session, decision, now))
  }

  function UploadResolved(db: Db, key: SegmentKey, decision: OperatorDecision<UploadedPart>, note: Option<string>,
      now: Timestamp): Db
    requires CanResolveUpload(db, key, decision)
  {
    var segment := db.segments[key];
    var id := UploadAttemptId(segment.upload);
    var owner := if id.Some? then Some(UploadOp(key.sid, key.index, id.value)) else None;
    GateCleared(db.PutSegment(UploadResolvedRow(db.sessions[key.sid], segment, decision, note, now)),
                TargetOf(db, key.sid), owner)
  }

  // ----- Submissions -----

  predicate RowSubmittable(segment: Segment) {
    segment.artifact.Filtered? || segment.artifact.Excluded? || (segment.artifact.Usable() && segment.upload.Uploaded?)
  }

  predicate RowUploaded(segment: Segment) {
    segment.artifact.Usable() && segment.upload.Uploaded?
  }

  predicate PartsReady(db: Db, sid: Uuid) {
    && (forall k | k in db.segments && k.sid == sid :: RowSubmittable(db.segments[k]))
    && (exists k | k in db.segments && k.sid == sid :: RowUploaded(db.segments[k]))
  }

  predicate CanBeginSubmission(db: Db, sid: Uuid, attempt: RemoteAttempt) {
    && sid in db.sessions
    && db.sessions[sid].lifecycle.PermitsSubmission()
    && db.sessions[sid].outputPlan.Bilibili?
    && GateAdmits(db, db.sessions[sid].outputPlan.upload.target, attempt.startedAt)
    && PartsReady(db, sid)
    && (sid in db.submissions ==>
          && db.submissions[sid].state.Due(attempt.startedAt)
          && Position(db.submissions[sid].attempts, attempt.id) == |db.submissions[sid].attempts|)
  }

  function SubmissionRow(db: Db, sid: Uuid, attempt: RemoteAttempt): Submission {
    if sid in db.submissions then db.submissions[sid]
    else Submission(sid, SubmissionState.Attempting(attempt), [], [])
  }

  function SubmissionStartedRow(row: Submission, attempt: RemoteAttempt): Submission {
    row.(state := SubmissionState.Attempting(attempt), attempts := row.attempts + [Started(attempt)])
  }

  function SubmissionBegun(db: Db, sid: Uuid, attempt: RemoteAttempt): Db
    requires CanBeginSubmission(db, sid, attempt)
  {
    db.PutGate(TargetOf(db, sid), TargetGate.Ready)
      .PutSubmission(SubmissionStartedRow(SubmissionRow(db, sid, attempt), attempt))
  }

  predicate CanReportSubmission(db: Db, sid: Uuid, id: Uuid, report: RemoteReport<SubmissionProof>) {
    && report.Counted()
    && (if report.ReportConfirmed? then report.proof.Valid() else HasTarget(db, sid))
    && sid in db.submissions
    && db.submissions[sid].state.Attempting?
    && db.submissions[sid].state.attempt.id == id
    && OpenRecord(db.submissions[sid].attempts, id)
  }

  function SubmissionAfter(report: RemoteReport<SubmissionProof>, attempt: RemoteAttempt,
      h: Attempts<SubmissionProof>): SubmissionState {
    match report
    case ReportConfirmed(proof) => Submitted(proof)
    case ReportRetry(reason, retryAt, _, _) => RetryScheduledAt(CountAsU32(RetryCount(h)), retryAt, reason)
    case ReportBlocked(reason, _) => SubmissionState.Blocked(Some(attempt.id), reason)
    case ReportAmbiguous(reason) => SubmissionState.Ambiguous(attempt, reason)
  }

  function SubmissionReportedRow(row: Submission, report: RemoteReport<SubmissionProof>, now: Timestamp): Submission
    requires row.state.Attempting? && OpenRecord(row.attempts, row.state.attempt.id)
  {
    var h := FinishAttempt(row.attempts, row.state.attempt.id, now, report.Outcome());
    row.(attempts := h, state := SubmissionAfter(report, row.state.attempt, h))
  }

  function SubmissionReported(db: Db, sid: Uuid, id: Uuid, report: RemoteReport<SubmissionProof>, now: Timestamp): Db
    requires CanReportSubmission(db, sid, id, report)
  {
    var db' := db.PutSubmission(SubmissionReportedRow(db.submissions[sid], report, now));
    if report.ReportConfirmed? then db'
    else ReportGate(db', TargetOf(db, sid), report, SubmissionOp(sid, id), now)
  }

  predicate SubmissionRecoverable(state: SubmissionState) {
    state.Attempting? || state.Ambiguous? || state.Blocked?
  }

  function SubmissionAttemptId(state: SubmissionState): Option<Uuid>
    requires SubmissionRecoverable(state)
  {
    if state.Blocked? then state.attemptId else Some(state.attempt.id)
  }

  predicate CanResolveSubmission(db: Db, sid: Uuid, decision: OperatorDecision<SubmissionProof>) {
    && (decision.ConfirmedDone? ==> decision.proof.Valid())
    && HasTarget(db, sid)
    && db.sessions[sid].lifecycle.PermitsSubmission()
    && sid in db.submissions
    && SubmissionRecoverable(db.submissions[sid].state)
    && HasRecord(db.submissions[sid].attempts, SubmissionAttemptId(db.submissions[sid].state))
  }

  function SubmissionResolvedRow(row: Submission, decision: OperatorDecision<SubmissionProof>, note: Option<string>,
      now: Timestamp): Submission
    requires SubmissionRecoverable(row.state) && HasRecord(row.attempts, SubmissionAttemptId(row.state))
  {
    var id := SubmissionAttemptId(row.state);
    row.(
      attempts := OperatorClosed(row.attempts, id, now),
      resolutions := row.resolutions + [OperatorResolution(id, now, decision, note)],
      state := if decision.ConfirmedDone? then Submitted(decision.proof) else RetryAuthorized(now))
  }

  function SubmissionResolved(db: Db, sid: Uuid, decision: OperatorDecision<SubmissionProof>, note: Option<string>,
      now: Timestamp): Db
    requires CanResolveSubmission(db, sid, decision)
  {
    var row := db.submissions[sid];
    var id := SubmissionAttemptId(row.state);
    var owner := if id.Some? then Some(SubmissionOp(sid, id.value)) else None;
    GateCleared(db.PutSubmission(SubmissionResolvedRow(row, decision, note, now)), TargetOf(db, sid), owner)
  }

  // ----- Commands and runs -----

  datatype Command =
    | CreateSession(session: LiveSession)
    | OpenSegment(segment: Segment)
    | UpdateArtifact(key: SegmentKey, move: ArtifactMove)
    | BeginConflict(key: SegmentKey, artifactDecision: ArtifactDecision, note: Option<string>)
    | FailArtifact(key: SegmentKey, reason: Reason, closeReason: Option<SegmentCloseReason>)
    | BeginDelete(key: SegmentKey)
    | CompleteDelete(key: SegmentKey)
    | RequireRecovery(sid: Uuid, reason: Reason)
    | CloseSession(sid: Uuid, request: CloseRequest)
    | BeginUpload(key: SegmentKey, attempt: RemoteAttempt)
    | ReportUpload(key: SegmentKey, attemptId: Uuid, upload: RemoteReport<UploadedPart>)
    | ResolveUpload(key: SegmentKey, uploadDecision: OperatorDecision<UploadedPart>, note: Option<string>)
    | BeginSubmission(sid: Uuid, attempt: RemoteAttempt)
    | ReportSubmission(sid: Uuid, attemptId: Uuid, submission: RemoteReport<SubmissionProof>)
    | ResolveSubmission(sid: Uuid, submissionDecision: OperatorDecision<SubmissionProof>, note: Option<string>)

  ghost predicate Enabled(db: Db, command: Command) {
    match command
    case CreateSession(session) => CanCreateSession(db, session)
    case OpenSegment(segment) => CanOpenSegment(db, segment)
    case UpdateArtifact(key, move) => CanMoveArtifact(db, key, move)
    case BeginConflict(key, _, _) => CanBeginConflict(db, key)
    case FailArtifact(key, reason, _) => CanFailArtifact(db, key, reason)
    case BeginDelete(key) => CanBeginDelete(db, key)
    case CompleteDelete(key) => CanCompleteDelete(db, key)
    case RequireRecovery(sid, reason) => CanRequireRecovery(db, sid, reason)
    case CloseSession(sid, request) => CanClose(db, sid, request)
    case BeginUpload(key, attempt) => CanBeginUpload(db, key, attempt)
    case ReportUpload(key, id, report) => CanReportUpload(db, key, id, report)
    case ResolveUpload(key, decision, _) => CanResolveUpload(db, key, decision)
    case BeginSubmission(sid, attempt) => CanBeginSubmission(db, sid, attempt)
    case ReportSubmission(sid, id, report) => CanReportSubmission(db, sid, id, report)
    case ResolveSubmission(sid, decision, _) => CanResolveSubmission(db, sid, decision)
  }

  ghost function Effect(db: Db, command: Command, now: Timestamp): Db
    requires Enabled(db, command)
  {
    match command
    case CreateSession(session) => SessionCreated(db, session, now)
    case OpenSegment(segment) => SegmentOpened(db, segment)
    case UpdateArtifact(key, move) => ArtifactMoved(db, key, move, now)
    case BeginConflict(key, decision, note) => ConflictBegun(db, key, decision, note, now)
    case FailArtifact(key, reason, close) => ArtifactFailed(db, key, reason, close, now)
    case BeginDelete(key) => WithArtifact(db, key, Deleting)
    case CompleteDelete(key) => WithArtifact(db, key, Deleted)
    case RequireRecovery(sid, reason) => RecoveryRequested(db, sid, reason, now)
    case CloseSession(sid, request) => SessionClosed(db, sid, request, now)
    case BeginUpload(key, attempt) => UploadBegun(db, key, attempt)
    case ReportUpload(key, id, report) => UploadReported(db, key, id, report, now)
    case ResolveUpload(key, decision, note) => UploadResolved(db, key, decision, note, now)
    case BeginSubmission(sid, attempt) => SubmissionBegun(db, sid, attempt)
    case ReportSubmission(sid, id, report) => SubmissionReported(db, sid, id, report, now)
    case ResolveSubmission(sid, decision, note) => SubmissionResolved(db, sid, decision, note, now)
  }

  /** A command either takes effect as a whole or leaves the database as it was. */
  ghost function Apply(db: Db, command: Command, now: Timestamp): Db {
    if Enabled(db, command) then Effect(db, command, now) else db
  }

  datatype Event = Event(command: Command, now: Timestamp)

  ghost function Run(db: Db, events: seq<Event>): Db
    decreases |events|
  {
    if events == [] then db
    else Run(Apply(db, events[0].command, events[0].now), events[1..])
  }
}
