/** Safety over whole runs: what never changes back, and what every reachable database shows. */
module Runs {
  import opened Wrappers
  import opened Model
  import opened History
  import opened Database
  import opened Transitions
  import opened Invariants
  import opened Preservation

  // ----- Nothing goes back -----

  ghost predicate ArtifactAdvances(before: ArtifactState, after: ArtifactState) {
    || after == before
    || match before
       case Writing => true
       case Finalizing(_) => !after.Writing? && !after.Finalizing? && !after.Discarding?
       case Discarding(_) => !after.Writing? && !after.Finalizing? && !after.Discarding?
       case ResolvingConflict(_, _) => after.Usable() || after.Failed? || after.Excluded?
       case Ready(_) => after.Deleting? || after.Deleted?
       case Failed(_, _) => after.Excluded?
       case Deleting => after.Deleted?
       case Filtered(_) => false
       case Excluded(_) => false
       case Deleted => false
  }

  ghost predicate SegmentGrows(before: Segment, after: Segment) {
    && after.Key() == before.Key()
    && after.partPath == before.partPath && after.finalPath == before.finalPath
    && before.artifactResolutions <= after.artifactResolutions
    && ArtifactAdvances(before.artifact, after.artifact)
    && HistoryGrows(before.attempts, before.resolutions, after.attempts, after.resolutions)
    && (before.upload.Uploaded? ==> after.upload == before.upload)
  }

  ghost predicate SessionGrows(before: LiveSession, after: LiveSession) {
    && after == before.(lifecycle := after.lifecycle, events := after.events)
    && before.events <= after.events
    && (before.lifecycle.Closed? ==> after == before)
    && (before.lifecycle.RecoveryRequired? ==> !after.lifecycle.Open?)
  }

  ghost predicate SubmissionGrows(before: Submission, after: Submission) {
    && after.sid == before.sid
    && HistoryGrows(before.attempts, before.resolutions, after.attempts, after.resolutions)
    && (before.state.Submitted? ==> after.state == before.state)
  }

  ghost predicate SegmentsGrow(db: Db, db': Db) {
    forall k {:trigger k in db.segments} | k in db.segments ::
          k in db'.segments && SegmentGrows(db.segments[k], db'.segments[k])
  }

  ghost predicate SessionsGrow(db: Db, db': Db) {
    forall id {:trigger id in db.sessions} | id in db.sessions ::
          id in db'.sessions && SessionGrows(db.sessions[id], db'.sessions[id])
  }

  ghost predicate SubmissionsGrow(db: Db, db': Db) {
    forall sid {:trigger sid in db.submissions} | sid in db.submissions ::
      sid in db'.submissions && SubmissionGrows(db.submissions[sid], db'.submissions[sid])
  }

  /** A closed session gets no further segment. */
  ghost predicate ClosedSealed(db: Db, db': Db) {
    forall k {:trigger k in db'.segments} | k in db'.segments && k !in db.segments ::
      k.sid in db.sessions ==> !db.sessions[k.sid].lifecycle.Closed?
  }

  ghost predicate Grows(db: Db, db': Db) {
    && SegmentsGrow(db, db')
    && SessionsGrow(db, db')
    && SubmissionsGrow(db, db')
    && ClosedSealed(db, db')
    && db.gates.Keys <= db'.gates.Keys
  }

  lemma SegmentGrowsSelf(segment: Segment)
    ensures SegmentGrows(segment, segment)
  {
  }

  lemma SegmentGrowsTransitive(a: Segment, b: Segment, c: Segment)
    requires SegmentGrows(a, b) && SegmentGrows(b, c)
    ensures SegmentGrows(a, c)
  {
    GrowsTransitive(a.attempts, a.resolutions, b.attempts, b.resolutions, c.attempts, c.resolutions);
  }

  lemma DbGrowsTransitive(a: Db, b: Db, c: Db)
    requires Grows(a, b) && Grows(b, c)
    ensures Grows(a, c)
  {
    forall k | k in a.segments ensures k in c.segments && SegmentGrows(a.segments[k], c.segments[k]) {
      assert k in b.segments;
      SegmentGrowsTransitive(a.segments[k], b.segments[k], c.segments[k]);
    }
    forall id | id in a.sessions ensures id in c.sessions && SessionGrows(a.sessions[id], c.sessions[id]) {
      assert id in b.sessions;
    }
    forall sid | sid in a.submissions ensures sid in c.submissions
        && SubmissionGrows(a.submissions[sid], c.submissions[sid]) {
      assert sid in b.submissions;
      var x, y, z := a.submissions[sid], b.submissions[sid], c.submissions[sid];
      GrowsTransitive(x.attempts, x.resolutions, y.attempts, y.resolutions, z.attempts, z.resolutions);
    }
    forall k | k in c.segments && k !in a.segments ensures k.sid in a.sessions ==>
          !a.sessions[k.sid].lifecycle.Closed? {
      if k in b.segments {
      } else if k.sid in a.sessions {
        assert k.sid in b.sessions;
      }
    }
  }

  lemma GrowsSelf(db: Db)
    ensures Grows(db, db)
  {
    forall k | k in db.segments ensures SegmentGrows(db.segments[k], db.segments[k]) {
      SegmentGrowsSelf(db.segments[k]);
    }
  }

  // ----- Each kind of write -----

  lemma GrowsBySegment(db: Db, row: Segment, db': Db)
    requires row.Key() in db.segments && SegmentGrows(db.segments[row.Key()], row)
    requires db' == db.PutSegment(row).(gates := db'.gates) && db.gates.Keys <= db'.gates.Keys
    ensures Grows(db, db')
  {
    forall k | k in db.segments ensures k in db'.segments && SegmentGrows(db.segments[k], db'.segments[k]) {
      SegmentGrowsSelf(db.segments[k]);
    }
  }

  lemma GrowsBySubmission(db: Db, row: Submission, db': Db)
    requires row.sid in db.submissions ==> SubmissionGrows(db.submissions[row.sid], row)
    requires db' == db.PutSubmission(row).(gates := db'.gates) && db.gates.Keys <= db'.gates.Keys
    ensures Grows(db, db')
  {
    forall k | k in db.segments ensures k in db'.segments && SegmentGrows(db.segments[k], db'.segments[k]) {
      SegmentGrowsSelf(db.segments[k]);
    }
  }

  lemma GrowsBySession(db: Db, session: LiveSession, db': Db)
    requires session.id in db.sessions && SessionGrows(db.sessions[session.id], session)
    requires db'.sessions == db.sessions[session.id := session]
    requires db'.submissions == db.submissions && db'.gates == db.gates
    requires db'.segments.Keys == db.segments.Keys
    requires forall k | k in db.segments :: SegmentGrows(db.segments[k], db'.segments[k])
    ensures Grows(db, db')
  {
  }

  // ----- Each command -----

  lemma ArtifactCommandsGrow(db: Db, command: Command, now: Timestamp)
    requires Inv(db) && Enabled(db, command)
    requires command.UpdateArtifact? || command.BeginConflict? || command.BeginDelete? || command.CompleteDelete?
    ensures Grows(db, Effect(db, command, now))
  {
    var key := command.key;
    assert SegmentOk(db, key);
    if command.UpdateArtifact? || command.BeginConflict? {
      ClaimIsExact(db, key.sid, now);
      NoHistoryYet(db, key);
    }
    var db' := Effect(db, command, now);
    var row := db'.segments[key];
    SegmentGrowsSelf(db.segments[key]);
    assert db' == db.PutSegment(row).(gates := db'.gates);
    GrowsBySegment(db, row, db');
  }

  lemma BeginUploadGrows(db: Db, key: SegmentKey, attempt: RemoteAttempt)
    requires Inv(db) && CanBeginUpload(db, key, attempt)
    ensures Grows(db, UploadBegun(db, key, attempt))
  {
    assert SegmentOk(db, key);
    StartedUploadFits(db.sessions[key.sid], db.segments[key], attempt);
    GrowsBySegment(db, UploadStartedRow(db.segments[key], attempt), UploadBegun(db, key, attempt));
  }

  lemma ReportUploadGrows(db: Db, key: SegmentKey, id: Uuid, report: RemoteReport<UploadedPart>, now: Timestamp)
    requires Inv(db) && CanReportUpload(db, key, id, report)
    ensures Grows(db, UploadReported(db, key, id, report, now))
  {
    assert SegmentOk(db, key);
    ReportedUploadFits(db.sessions[key.sid], db.segments[key], report, now);
    GrowsBySegment(db, UploadReportedRow(db.segments[key], report, now), UploadReported(db, key, id, report, now));
  }

  lemma ResolveUploadGrows(db: Db, key: SegmentKey, decision: OperatorDecision<UploadedPart>, note: Option<string>,
      now: Timestamp)
    requires Inv(db) && CanResolveUpload(db, key, decision)
    ensures Grows(db, UploadResolved(db, key, decision, note, now))
  {
    assert SegmentOk(db, key);
    ResolvedUploadFits(db.sessions[key.sid], db.segments[key], decision, note, now);
    GrowsBySegment(db, UploadResolvedRow(db.sessions[key.sid], db.segments[key], decision, note, now),
                   UploadResolved(db, key, decision, note, now));
  }

  lemma BeginSubmissionGrows(db: Db, sid: Uuid, attempt: RemoteAttempt)
    requires Inv(db) && CanBeginSubmission(db, sid, attempt)
    ensures Grows(db, SubmissionBegun(db, sid, attempt))
  {
    assert sid in db.submissions ==> SubmissionOk(db, sid);
    ClaimedRowIdle(db, sid, attempt);
    StartedSubmissionFits(SubmissionRow(db, sid, attempt), attempt);
    GrowsBySubmission(db, SubmissionStartedRow(SubmissionRow(db, sid, attempt), attempt),
        SubmissionBegun(db, sid, attempt));
  }

  lemma ReportSubmissionGrows(db: Db, sid: Uuid, id: Uuid, report: RemoteReport<SubmissionProof>, now: Timestamp)
    requires Inv(db) && CanReportSubmission(db, sid, id, report)
    ensures Grows(db, SubmissionReported(db, sid, id, report, now))
  {
    assert SubmissionOk(db, sid);
    ReportedSubmissionFits(db.submissions[sid], report, now);
    GrowsBySubmission(db, SubmissionReportedRow(db.submissions[sid], report, now),
        SubmissionReported(db, sid, id, report, now));
  }

  lemma ResolveSubmissionGrows(db: Db, sid: Uuid, decision: OperatorDecision<SubmissionProof>, note: Option<string>,
      now: Timestamp)
    requires Inv(db) && CanResolveSubmission(db, sid, decision)
    ensures Grows(db, SubmissionResolved(db, sid, decision, note, now))
  {
    assert SubmissionOk(db, sid);
    DecidedSubmissionFits(db.submissions[sid], decision, note, now);
    GrowsBySubmission(db, SubmissionResolvedRow(db.submissions[sid], decision, note, now),
        SubmissionResolved(db, sid, decision, note, now));
  }

  lemma FailArtifactGrows(db: Db, key: SegmentKey, reason: Reason, close: Option<SegmentCloseReason>, now: Timestamp)
    requires Inv(db) && CanFailArtifact(db, key, reason)
    ensures Grows(db, ArtifactFailed(db, key, reason, close, now))
  {
    assert SegmentOk(db, key) && SessionOk(db, key.sid);
    var db' := ArtifactFailed(db, key, reason, close, now);
    forall k | k in db.segments ensures SegmentGrows(db.segments[k], db'.segments[k]) {
      SegmentGrowsSelf(db.segments[k]);
    }
    GrowsBySession(db, db'.sessions[key.sid], db');
  }

  lemma RequireRecoveryGrows(db: Db, sid: Uuid, reason: Reason, now: Timestamp)
    requires Inv(db) && CanRequireRecovery(db, sid, reason)
    ensures Grows(db, RecoveryRequested(db, sid, reason, now))
  {
    assert SessionOk(db, sid);
    var db' := RecoveryRequested(db, sid, reason, now);
    forall k | k in db.segments ensures SegmentGrows(db.segments[k], db'.segments[k]) {
      SegmentGrowsSelf(db.segments[k]);
    }
    GrowsBySession(db, db'.sessions[sid], db');
  }

  lemma AbandonedRowGrows(segment: Segment, now: Timestamp)
    requires SegmentHistoryOk(segment) && RowAbandonable(segment)
    ensures SegmentGrows(segment, UploadAbandoned(segment, now))
  {
    SegmentGrowsSelf(segment);
    if segment.upload.Attempting? {
      FinishKeeps(segment.upload.attempt, segment.attempts, segment.resolutions, now, AmbiguousOutcome(INTERRUPTED));
    }
  }

  lemma CloseSessionGrows(db: Db, sid: Uuid, request: CloseRequest, now: Timestamp)
    requires Inv(db) && CanClose(db, sid, request)
    ensures Grows(db, SessionClosed(db, sid, request, now))
  {
    assert SessionOk(db, sid);
    var db' := SessionClosed(db, sid, request, now);
    forall k | k in db.segments ensures SegmentGrows(db.segments[k], db'.segments[k]) {
      assert SegmentOk(db, k);
      SegmentGrowsSelf(db.segments[k]);
      if request.Abandon? && k.sid == sid {
        AbandonedRowGrows(db.segments[k], now);
      }
    }
    GrowsBySession(db, db'.sessions[sid], db');
  }

  /** Main result: no command rewrites history, reverts an artifact, or reopens a closed session. */
  lemma EffectGrows(db: Db, command: Command, now: Timestamp)
    requires Inv(db) && Enabled(db, command)
    ensures Grows(db, Effect(db, command, now))
  {
    match command
    case CreateSession(_) => GrowsSelf(db);
    case OpenSegment(_) => GrowsSelf(db);
    case FailArtifact(key, reason, close) => FailArtifactGrows(db, key, reason, close, now);
    case RequireRecovery(sid, reason) => RequireRecoveryGrows(db, sid, reason, now);
    case CloseSession(sid, request) => CloseSessionGrows(db, sid, request, now);
    case UpdateArtifact(_, _) => ArtifactCommandsGrow(db, command, now);
    case BeginConflict(_, _, _) => ArtifactCommandsGrow(db, command, now);
    case BeginDelete(_) => ArtifactCommandsGrow(db, command, now);
    case CompleteDelete(_) => ArtifactCommandsGrow(db, command, now);
    case BeginUpload(key, attempt) => BeginUploadGrows(db, key, attempt);
    case ReportUpload(key, id, report) => ReportUploadGrows(db, key, id, report, now);
    case ResolveUpload(key, decision, note) => ResolveUploadGrows(db, key, decision, note, now);
    case BeginSubmission(sid, attempt) => BeginSubmissionGrows(db, sid, attempt);
    case ReportSubmission(sid, id, report) => ReportSubmissionGrows(db, sid, id, report, now);
    case ResolveSubmission(sid, decision, note) => ResolveSubmissionGrows(db, sid, decision, note, now);
  }

  lemma {:induction false} RunGrows(db: Db, events: seq<Event>)
    requires Inv(db)
    ensures Grows(db, Run(db, events))
    decreases |events|
  {
    GrowsSelf(db);
    if events != [] {
      var command, now := events[0].command, events[0].now;
      var next := Apply(db, command, now);
      if Enabled(db, command) {
        EffectGrows(db, command, now);
        EffectKeeps(db, command, now);
      }
      RunGrows(next, events[1..]);
      DbGrowsTransitive(db, next, Run(next, events[1..]));
    }
  }

  // ----- What a decision settles -----

  /** The attempt decided about: open, ambiguous or blocked, it is the last one. */
  ghost predicate DecidedAbout<P>(before: Attempts<P>, after: Attempts<P>, id: Option<Uuid>, wasOpen: bool) {
    && id.Some? && |after| == |before| > 0 && id == Some(before[|before| - 1].attempt.id)
    && after[..|before| - 1] == before[..|before| - 1]
    && after[|before| - 1].attempt == before[|before| - 1].attempt
    && (if wasOpen then after[|before| - 1].outcome.Some? && after[|before| - 1].outcome.value.AmbiguousOutcome?
        else after[|before| - 1] == before[|before| - 1])
  }

  /** The gate opens exactly if it was closed in the name of this operation. */
  predicate OpensForOwner(before: TargetGate, after: TargetGate, owner: RemoteOperation) {
    if !before.Ready? && before.owner == owner then after.Ready? else after == before
  }

  /**
    The operator's decision about an upload is what the upload comes to: done with the proof given,
    or not done and waiting anew, unless its session has ended without submission. An attempt that
    was open is closed as ambiguous, the decision joins the record, and nothing else changes.
   */
  lemma DecidedUpload(db: Db, key: SegmentKey, decision: OperatorDecision<UploadedPart>, note: Option<string>,
      now: Timestamp)
    requires Inv(db) && CanResolveUpload(db, key, decision)
    ensures var db' := UploadResolved(db, key, decision, note, now);
            var (row, target) := (db.segments[key], TargetOf(db, key.sid));
            && key in db'.segments && target in db.gates && target in db'.gates
            && var row' := db'.segments[key];
            && db' == db.(segments := db.segments[key := row'], gates := db.gates[target := db'.gates[target]])
            && row' == row.(upload := row'.upload, attempts := row'.attempts, resolutions := row'.resolutions)
            && |row'.resolutions| == |row.resolutions| + 1
            && row'.resolutions[..|row.resolutions|] == row.resolutions
            && var r := row'.resolutions[|row.resolutions|];
            && r == OperatorResolution(r.attemptId, now, decision, note)
            && DecidedAbout(row.attempts, row'.attempts, r.attemptId, row.upload.Attempting?)
            && OpensForOwner(db.gates[target], db'.gates[target], UploadOp(key.sid, key.index, r.attemptId.value))
            && match decision
               case ConfirmedDone(proof) => row'.upload == Uploaded(proof)
               case ConfirmedNotDone =>
                 if db.sessions[key.sid].lifecycle.Closed? && !db.sessions[key.sid].lifecycle.closure.Completed?
                 then row'.upload == Cancelled(now) else row'.upload == Pending(0, None, None)
  {
    hide DecidedAbout, OperatorClosed, Position;
    var row := db.segments[key];
    var id := UploadAttemptId(row.upload);
    assert SegmentOk(db, key) && SessionOk(db, key.sid);
    DecidedLedger(UploadPhase(row.upload), row.attempts, row.resolutions, now);
    assert row.resolutions + [OperatorResolution(id, now, decision, note)] ==
             UploadResolvedRow(db.sessions[key.sid], row, decision, note, now).resolutions;
    assert db.gates == db.gates[TargetOf(db, key.sid) := db.gates[TargetOf(db, key.sid)]];
  }

  /** The id an undecided phase is about. */
  function PhaseId<P>(phase: Phase<P>): Uuid
    requires phase.InFlight? || phase.Unknown? || phase.Halted?
  {
    if phase.Halted? then phase.id else phase.attempt.id
  }

  lemma DecidedLedger<P>(phase: Phase<P>, h: Attempts<P>, rs: Resolutions<P>, now: Timestamp)
    requires HistoryOk(phase, h, rs) && (phase.InFlight? || phase.Unknown? || phase.Halted?)
    ensures HasRecord(h, Some(PhaseId(phase)))
    ensures DecidedAbout(h, OperatorClosed(h, Some(PhaseId(phase)), now), Some(PhaseId(phase)), phase.InFlight?)
  {
    PositionOfDistinct(h, |h| - 1);
  }

  /** The same of a submission, which is then submitted or free to be claimed again. */
  lemma DecidedSubmission(db: Db, sid: Uuid, decision: OperatorDecision<SubmissionProof>, note: Option<string>,
      now: Timestamp)
    requires Inv(db) && CanResolveSubmission(db, sid, decision)
    ensures var db' := SubmissionResolved(db, sid, decision, note, now);
            var (row, target) := (db.submissions[sid], TargetOf(db, sid));
            && sid in db'.submissions && target in db.gates && target in db'.gates
            && var row' := db'.submissions[sid];
            && db' == db.(submissions := db.submissions[sid := row'], gates := db.gates[target := db'.gates[target]])
            && row' == row.(state := row'.state, attempts := row'.attempts, resolutions := row'.resolutions)
            && |row'.resolutions| == |row.resolutions| + 1
            && row'.resolutions[..|row.resolutions|] == row.resolutions
            && var r := row'.resolutions[|row.resolutions|];
            && r == OperatorResolution(r.attemptId, now, decision, note)
            && DecidedAbout(row.attempts, row'.attempts, r.attemptId, row.state.Attempting?)
            && OpensForOwner(db.gates[target], db'.gates[target], SubmissionOp(sid, r.attemptId.value))
            && match decision
               case ConfirmedDone(proof) => row'.state == Submitted(proof)
               case ConfirmedNotDone => row'.state == RetryAuthorized(now)
  {
    hide DecidedAbout, OperatorClosed, Position, PartsReady;
    var row := db.submissions[sid];
    var id := SubmissionAttemptId(row.state);
    assert SubmissionOk(db, sid) && SessionOk(db, sid);
    DecidedLedger(SubmissionPhase(row.state), row.attempts, row.resolutions, now);
    assert row.resolutions + [OperatorResolution(id, now, decision, note)] ==
             SubmissionResolvedRow(row, decision, note, now).resolutions;
    assert db.gates == db.gates[TargetOf(db, sid) := db.gates[TargetOf(db, sid)]];
  }

  /**
    A demand for recovery: the first reason stays the session's, a reason that is neither it nor on
    record joins the record, the room is blocked for the session and shows the first reason, and
    nothing else changes.
   */
  lemma RecoveryDemanded(db: Db, sid: Uuid, reason: Reason, now: Timestamp)
    requires Inv(db) && CanRequireRecovery(db, sid, reason)
    ensures var db' := RecoveryRequested(db, sid, reason, now);
            var before := db.sessions[sid];
            && sid in db'.sessions
            && var after := db'.sessions[sid];
            && after.lifecycle.RecoveryRequired?
            && db' == db.(sessions := db.sessions[sid := after],
                 rooms := db.rooms[before.roomId :=
                   RoomState(RoomLifecycle.Blocked(sid), now, Some(after.lifecycle.reason))])
            && after == before.(lifecycle := after.lifecycle, events := after.events)
            && after.lifecycle ==
                 (if before.lifecycle.RecoveryRequired? then before.lifecycle
                  else SessionLifecycle.RecoveryRequired(reason, now))
            && after.events ==
                 (if before.lifecycle.RecoveryRequired?
                     && (before.lifecycle.reason == reason
                         || exists i :: 0 <= i < |before.events| && Records(before.events[i], reason))
                  then before.events else before.events + [RecoveryDetected(now, reason)])
  {
    assert SessionOk(db, sid);
  }

  // ----- How a session ends -----

  ghost predicate SomeRow(db: Db, sid: Uuid, p: Segment -> bool) {
    exists k :: k in db.segments && k.sid == sid && p(db.segments[k])
  }

  predicate HoldsUpNaturalEnd(row: Segment) {
    row.artifact.Writing? || row.artifact.Finalizing? || row.artifact.Discarding? || row.artifact.ResolvingConflict?
    || row.artifact.Deleting? || row.artifact.Failed?
  }

  predicate HoldsRecording(row: Segment) {
    row.artifact.Ready? || row.artifact.Deleting? || row.artifact.Deleted?
  }

  predicate TakenOut(before: Segment, after: Segment) {
    && after == before.(artifact := after.artifact, upload := NotPlanned)
    && before.artifact.Failed? && after.artifact == Excluded(OperatorExcluded(before.artifact.reason))
  }

  /** Completed if a recording is there, else closed as having none. */
  predicate ClosedBy(after: LiveSession, recording: bool, now: Timestamp) {
    && after.lifecycle.Closed?
    && (if recording then after.lifecycle.closure.Completed? else after.lifecycle.closure.NoUsableRecording?)
    && after.lifecycle.closure.closedAt == now
  }

  /**
    A natural end completes the session unless a row's fate is open or it failed, which turns the
    session to recovery; the end of a recovery completes it in any case, its failed rows excluded;
    an abandoned session is closed as such. The room is free again exactly if the session is closed.
   */
  lemma CloseOutcome(db: Db, sid: Uuid, request: CloseRequest, now: Timestamp)
    requires Inv(db) && CanClose(db, sid, request)
    ensures var db' := SessionClosed(db, sid, request, now);
            var after := db'.sessions[sid];
            && after.roomId in db'.rooms
            && (match request
                case Natural(_) =>
                  && db'.segments == db.segments
                  && if SomeRow(db, sid, HoldsUpNaturalEnd) then after.lifecycle.RecoveryRequired?
                     else ClosedBy(after, SomeRow(db, sid, HoldsRecording), now)
                case Recover(_, _) =>
                  && ClosedBy(after, SomeRow(db, sid, HoldsRecording), now)
                  && db'.segments.Keys == db.segments.Keys
                  && (forall k | k in db.segments ::
                        if k.sid == sid && db.segments[k].artifact.Failed?
                        then TakenOut(db.segments[k], db'.segments[k]) else db'.segments[k] == db.segments[k])
                case Abandon(note) => after.lifecycle == Closed(Abandoned(now, note)))
            && (after.lifecycle.Closed? ==> db'.rooms[after.roomId].lifecycle == RoomLifecycle.Ready)
            && (!after.lifecycle.Closed? ==> db'.rooms[after.roomId].lifecycle == RoomLifecycle.Blocked(sid))
  {
    assert SessionOk(db, sid);
    assert SomeRow(db, sid, HoldsRecording) <==> HasUsable(db, sid) by {
      if HasUsable(db, sid) {
        var k :| k in db.segments && k.sid == sid && db.segments[k].artifact.Usable();
        assert HoldsRecording(db.segments[k]);
      }
    }
    if request.Natural? {
      HeldUp(db, sid);
    }
  }

  lemma HeldUp(db: Db, sid: Uuid)
    ensures SomeRow(db, sid, HoldsUpNaturalEnd) <==> UnresolvedIndices(db, sid) != {} || FailedIndices(db, sid) != {}
  {
    if SomeRow(db, sid, HoldsUpNaturalEnd) {
      var k :| k in db.segments && k.sid == sid && HoldsUpNaturalEnd(db.segments[k]);
      assert k.index in UnresolvedIndices(db, sid) || k.index in FailedIndices(db, sid);
    }
    if UnresolvedIndices(db, sid) != {} {
      var x :| x in UnresolvedIndices(db, sid);
      var k :| k in db.segments && k.sid == sid && db.segments[k].artifact.Unresolved() && k.index == x;
      assert HoldsUpNaturalEnd(db.segments[k]);
    }
    if FailedIndices(db, sid) != {} {
      var x :| x in FailedIndices(db, sid);
      var k :| k in db.segments && k.sid == sid && db.segments[k].artifact.Failed? && k.index == x;
      assert HoldsUpNaturalEnd(db.segments[k]);
    }
  }

  // ----- Uploads of an abandoned session -----

  /** An attempt in flight stays open to a decision, what certainly left nothing behind is cancelled, the rest stays. */
  ghost predicate GivenUp(db: Db, before: Segment, after: Segment, now: Timestamp) {
    && after == before.(upload := after.upload, attempts := after.attempts)
    && match before.upload
       case Attempting(attempt) =>
         && after.upload.Ambiguous? && after.upload.attempt == attempt
         && |after.attempts| == |before.attempts| > 0
         && after.attempts[..|before.attempts| - 1] == before.attempts[..|before.attempts| - 1]
         && after.attempts[|before.attempts| - 1].attempt == attempt
         && after.attempts[|before.attempts| - 1].outcome.Some?
         && after.attempts[|before.attempts| - 1].outcome.value.AmbiguousOutcome?
         && forall decision: OperatorDecision<UploadedPart> | decision.ConfirmedDone? ==> decision.proof.Valid() ::
              CanResolveUpload(db, before.Key(), decision)
       case Pending(_, _, _) => after.upload == Cancelled(now) && after.attempts == before.attempts
       case Blocked(_, _) => after.upload == Cancelled(now) && after.attempts == before.attempts
       case _ => after == before
  }

  /**
    Abandoning a session gives up its uploads: none is forgotten that may exist remotely, and no
    other session's rows, nor anything about recordings, change.
   */
  lemma AbandonedUploads(db: Db, sid: Uuid, note: Option<string>, now: Timestamp)
    requires Inv(db) && CanClose(db, sid, Abandon(note))
    ensures var db' := SessionClosed(db, sid, Abandon(note), now);
            && db'.segments.Keys == db.segments.Keys
            && (forall k | k in db.segments && k.sid == sid :: GivenUp(db', db.segments[k], db'.segments[k], now))
            && (forall k | k in db.segments && k.sid != sid :: db'.segments[k] == db.segments[k])
  {
    hide GivenUp;
    forall k | k in db.segments && k.sid == sid
      ensures GivenUp(SessionClosed(db, sid, Abandon(note), now), db.segments[k], UploadAbandoned(db.segments[k], now),
                      now)
    {
      RowGivenUp(db, k, note, now);
    }
  }

  lemma RowGivenUp(db: Db, key: SegmentKey, note: Option<string>, now: Timestamp)
    requires Inv(db) && key in db.segments && CanClose(db, key.sid, Abandon(note))
    ensures GivenUp(SessionClosed(db, key.sid, Abandon(note), now), db.segments[key],
                    UploadAbandoned(db.segments[key], now), now)
  {
    hide HistoryOk, RoomOk;
    assert SegmentOk(db, key) && SessionOk(db, key.sid);
    if db.segments[key].upload.Attempting? {
      InFlightGivenUp(db.segments[key], now);
    }
  }

  lemma InFlightGivenUp(row: Segment, now: Timestamp)
    requires SegmentHistoryOk(row) && row.upload.Attempting?
    ensures var h, h' := row.attempts, UploadAbandoned(row, now).attempts;
            && |h'| == |h| > 0 && h'[..|h| - 1] == h[..|h| - 1]
            && h'[|h| - 1].attempt == row.upload.attempt
            && h'[|h| - 1].outcome == Some(AmbiguousOutcome(INTERRUPTED))
            && Position(h', row.upload.attempt.id) < |h'|
  {
    PositionOfDistinct(row.attempts, |row.attempts| - 1);
    FinishKeeps(row.upload.attempt, row.attempts, row.resolutions, now, AmbiguousOutcome(INTERRUPTED));
    var h' := UploadAbandoned(row, now).attempts;
    PositionOfDistinct(h', |h'| - 1);
  }

  // ----- Reachable databases -----

  ghost predicate Reachable(db: Db) {
    exists events :: Run(EMPTY, events) == db
  }

  lemma ReachableInv(db: Db)
    requires Reachable(db)
    ensures Inv(db)
  {
    var events :| Run(EMPTY, events) == db;
    EmptyInv();
    RunKeeps(EMPTY, events);
  }

  /** What the ledger promises about remote attempts. */
  ghost predicate NoBlindRetry<P>(h: Attempts<P>, rs: Resolutions<P>) {
    && DistinctIds(h)
    && forall i, j {:trigger h[i], h[j]} | 0 <= i < j < |h| :: Cleared(h[i], rs)
  }

  /** In flight means exactly one open record, the last one, and it is the claimed attempt. */
  ghost predicate OneOpenRecord<P>(phase: Phase<P>, h: Attempts<P>) {
    && (phase.InFlight? <==> exists i :: 0 <= i < |h| && h[i].outcome.None?)
    && forall i | 0 <= i < |h| && h[i].outcome.None? :: i == |h| - 1 && phase.InFlight? && h[i].attempt == phase.attempt
  }

  ghost predicate OneSuccess<P(!new)>(phase: Phase<P>, h: Attempts<P>, rs: Resolutions<P>) {
    && (phase.Settled? <==> exists i, p :: 0 <= i < |h| && ConfirmedAs(h[i], rs, p))
    && forall i, p | 0 <= i < |h| && ConfirmedAs(h[i], rs, p) :: i == |h| - 1 && phase == Settled(p)
  }

  lemma LedgerPromises<P(!new)>(phase: Phase<P>, h: Attempts<P>, rs: Resolutions<P>)
    requires HistoryOk(phase, h, rs)
    ensures NoBlindRetry(h, rs) && OneOpenRecord(phase, h) && OneSuccess(phase, h, rs)
  {
    forall i, p | 0 <= i < |h| && ConfirmedAs(h[i], rs, p) ensures i == |h| - 1 && phase == Settled(p) {
      if h[i].outcome != Some(Confirmed(p)) {
        var j :| 0 <= j < |rs| && rs[j].attemptId == Some(h[i].attempt.id) && rs[j].decision == ConfirmedDone(p);
        PositionOfDistinct(h, i);
      }
    }
    if phase.Settled? {
      assert ConfirmedAs(h[|h| - 1], rs, phase.proof);
    }
    if phase.InFlight? {
      assert h[|h| - 1].outcome.None?;
    }
  }

  /** Main result: no segment and no submission is ever retried blindly. */
  lemma AttemptsAreSafe(db: Db)
    requires Reachable(db)
    ensures forall k | k in db.segments ::
              var s := db.segments[k];
              && NoBlindRetry(s.attempts, s.resolutions)
              && OneOpenRecord(UploadPhase(s.upload), s.attempts)
              && OneSuccess(UploadPhase(s.upload), s.attempts, s.resolutions)
    ensures forall sid | sid in db.submissions ::
              var s := db.submissions[sid];
              && NoBlindRetry(s.attempts, s.resolutions)
              && OneOpenRecord(SubmissionPhase(s.state), s.attempts)
              && OneSuccess(SubmissionPhase(s.state), s.attempts, s.resolutions)
  {
    ReachableInv(db);
    forall k | k in db.segments
      ensures NoBlindRetry(db.segments[k].attempts, db.segments[k].resolutions)
      ensures OneOpenRecord(UploadPhase(db.segments[k].upload), db.segments[k].attempts)
      ensures OneSuccess(UploadPhase(db.segments[k].upload), db.segments[k].attempts, db.segments[k].resolutions)
    {
      assert SegmentOk(db, k);
      LedgerPromises(UploadPhase(db.segments[k].upload), db.segments[k].attempts, db.segments[k].resolutions);
    }
    forall sid | sid in db.submissions
      ensures NoBlindRetry(db.submissions[sid].attempts, db.submissions[sid].resolutions)
      ensures OneOpenRecord(SubmissionPhase(db.submissions[sid].state), db.submissions[sid].attempts)
      ensures OneSuccess(SubmissionPhase(db.submissions[sid].state), db.submissions[sid].attempts,
              db.submissions[sid].resolutions)
    {
      assert SubmissionOk(db, sid);
      LedgerPromises(SubmissionPhase(db.submissions[sid].state), db.submissions[sid].attempts,
          db.submissions[sid].resolutions);
    }
  }

  /** Main result: rooms and sessions always agree, and a room has at most one session that is not closed. */
  lemma OwnershipAlwaysExact(db: Db)
    requires Reachable(db)
    ensures RoomsOwned(db)
    ensures forall s, t | s in db.sessions && t in db.sessions && s != t
            && db.sessions[s].roomId == db.sessions[t].roomId ::
              db.sessions[s].lifecycle.Closed? || db.sessions[t].lifecycle.Closed?
  {
    ReachableInv(db);
    forall id | id in db.sessions ensures OwnershipExact(db, db.sessions[id]) {
      assert SessionOk(db, id);
    }
    forall s, t | s in db.sessions && t in db.sessions && s != t && db.sessions[s].roomId == db.sessions[t].roomId
      ensures db.sessions[s].lifecycle.Closed? || db.sessions[t].lifecycle.Closed?
    {
      assert SessionOk(db, s) && SessionOk(db, t);
    }
    forall room | room in db.rooms ensures RoomOk(db, room) {
    }
  }

  /** A session's segments are numbered 1, 2, ... without a gap. */
  lemma IndicesContiguous(db: Db, sid: Uuid) returns (n: nat)
    requires Reachable(db)
    ensures forall i: nat :: SegmentKey(sid, i) in db.segments <==> 1 <= i <= n
  {
    ReachableInv(db);
    var used := SegmentIndices(db, sid);
    if used == {} {
      n := 0;
      forall i: nat ensures SegmentKey(sid, i) in db.segments <==> 1 <= i <= n {
        assert SegmentKey(sid, i) in db.segments ==> i in used;
      }
    } else {
      n := Greatest(used);
      assert SegmentKey(sid, n) in db.segments;
      forall i: nat ensures SegmentKey(sid, i) in db.segments <==> 1 <= i <= n {
        if SegmentKey(sid, i) in db.segments {
          assert i in used && SegmentOk(db, SegmentKey(sid, i));
        } else if 1 <= i <= n {
          DownTo(db, sid, n, i);
        }
      }
    }
  }

  lemma {:induction false} DownTo(db: Db, sid: Uuid, n: nat, i: nat)
    requires Inv(db) && SegmentKey(sid, n) in db.segments && 1 <= i <= n
    ensures SegmentKey(sid, i) in db.segments
    decreases n - i
  {
    if i < n {
      DownTo(db, sid, n, i + 1);
      assert SegmentOk(db, SegmentKey(sid, i + 1));
    }
  }

  // ----- After submission -----

  ghost predicate SubmissionShape(db: Db, sid: Uuid) {
    && sid in db.submissions && HasTarget(db, sid)
    && db.sessions[sid].lifecycle.Completed()
    && PartsReady(db, sid)
  }

  /**
    Main result: from the moment a submission row exists, for ever after, its session stays
    completed, gets no further segment, and every segment stays out of the submission or
    uploaded with the same proof and usable.
   */
  lemma SubmissionFreezes(db: Db, sid: Uuid, events: seq<Event>)
    requires Reachable(db) && sid in db.submissions
    ensures var later := Run(db, events);
            && SubmissionShape(later, sid) && sid in db.sessions
            && later.sessions[sid] == db.sessions[sid]
            && (forall k: SegmentKey | k.sid == sid :: k in later.segments <==> k in db.segments)
            && (forall k | k in db.segments && k.sid == sid && RowUploaded(db.segments[k]) ::
                  RowUploaded(later.segments[k]) && later.segments[k].upload == db.segments[k].upload)
  {
    ReachableInv(db);
    var later := Run(db, events);
    RunKeeps(db, events);
    RunGrows(db, events);
    assert SubmissionOk(db, sid) && SubmissionOk(later, sid);
    forall k | k in db.segments && k.sid == sid && RowUploaded(db.segments[k])
      ensures RowUploaded(later.segments[k]) && later.segments[k].upload == db.segments[k].upload
    {
      assert k in later.segments && SegmentGrows(db.segments[k], later.segments[k]);
    }
    forall k: SegmentKey | k.sid == sid ensures k in later.segments <==> k in db.segments {
    }
  }

  /** Local recordings are deleted only after submission, under a plan that asks for it. */
  lemma DeletionIsLicensed(db: Db, key: SegmentKey)
    requires Reachable(db) && key in db.segments
    requires db.segments[key].artifact.Deleting? || db.segments[key].artifact.Deleted?
    ensures CleanupLicensed(db, key.sid) && db.segments[key].upload.Uploaded?
    ensures db.sessions[key.sid].lifecycle.Completed()
  {
    ReachableInv(db);
    assert SegmentOk(db, key);
    assert SubmissionOk(db, key.sid);
  }
}
