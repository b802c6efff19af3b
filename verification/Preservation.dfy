/** Every transition keeps the invariant. */
module Preservation {
  import opened Wrappers
  import opened Model
  import opened History
  import opened Database
  import opened Transitions
  import opened Invariants

  // ----- Row updates -----

  /** One segment row changes, and perhaps a gate. */
  lemma SegmentRowKeeps(db: Db, row: Segment, db': Db)
    requires Inv(db) && row.Key() in db.segments
    requires db' == db.PutSegment(row).(gates := db'.gates)
    requires db.gates.Keys <= db'.gates.Keys && GatesHeld(db')
    requires row.sid in db.sessions && RowFits(db.sessions[row.sid], row)
    requires db.segments[row.Key()].artifact.Usable() ==> row.artifact.Usable()
    requires row.artifact.Deleting? || row.artifact.Deleted? ==> CleanupLicensed(db, row.sid)
    requires row.sid in db.submissions ==>
               RowSubmittable(row) && (RowUploaded(db.segments[row.Key()]) ==> RowUploaded(row))
    ensures Inv(db')
  {
    var key := row.Key();
    assert SegmentOk(db, key);
    forall k | k in db'.segments ensures SegmentOk(db', k) {
      assert SegmentOk(db, k);
    }
    forall id | id in db'.sessions ensures SessionOk(db', id) {
      assert SessionOk(db, id);
      if HasUsable(db, id) {
        UsableKept(db, row, db', id);
      }
    }
    forall room | room in db'.rooms ensures RoomOk(db', room) {
      assert RoomOk(db, room);
    }
    forall sid | sid in db'.submissions ensures SubmissionOk(db', sid) {
      assert SubmissionOk(db, sid);
      PartsKept(db, row, db', sid);
    }
  }

  lemma UsableKept(db: Db, row: Segment, db': Db, id: Uuid)
    requires row.Key() in db.segments && db'.segments == db.segments[row.Key() := row]
    requires db.segments[row.Key()].artifact.Usable() ==> row.artifact.Usable()
    requires HasUsable(db, id)
    ensures HasUsable(db', id)
  {
    var k :| k in db.segments && k.sid == id && db.segments[k].artifact.Usable();
    assert k in db'.segments && db'.segments[k].artifact.Usable();
  }

  lemma PartsKept(db: Db, row: Segment, db': Db, sid: Uuid)
    requires row.Key() in db.segments && db'.segments == db.segments[row.Key() := row]
    requires PartsReady(db, sid)
    requires row.sid == sid ==> RowSubmittable(row) && (RowUploaded(db.segments[row.Key()]) ==> RowUploaded(row))
    ensures PartsReady(db', sid)
  {
    var k :| k in db.segments && k.sid == sid && RowUploaded(db.segments[k]);
    assert k in db'.segments && RowUploaded(db'.segments[k]);
    forall k | k in db'.segments && k.sid == sid ensures RowSubmittable(db'.segments[k]) {
    }
  }

  /** One submission row changes or appears, and perhaps a gate. */
  lemma SubmissionRowKeeps(db: Db, row: Submission, db': Db)
    requires Inv(db) && row.sid in db.sessions
    requires db' == db.PutSubmission(row).(gates := db'.gates)
    requires db.gates.Keys <= db'.gates.Keys && GatesHeld(db')
    requires SubmissionOk(db', row.sid)
    requires row.sid in db.submissions && db.submissions[row.sid].state.Submitted? ==> row.state.Submitted?
    ensures Inv(db')
  {
    forall k | k in db'.segments ensures SegmentOk(db', k) {
      assert SegmentOk(db, k);
    }
    forall id | id in db'.sessions ensures SessionOk(db', id) {
      assert SessionOk(db, id);
    }
    forall room | room in db'.rooms ensures RoomOk(db', room) {
      assert RoomOk(db, room);
    }
    forall sid | sid in db'.submissions ensures SubmissionOk(db', sid) {
      if sid != row.sid {
        SubmissionUntouched(db, db', sid);
      }
    }
  }

  lemma SubmissionUntouched(db: Db, db': Db, sid: Uuid)
    requires sid in db.submissions && SubmissionOk(db, sid)
    requires sid in db'.submissions && db'.submissions[sid] == db.submissions[sid]
    requires sid in db'.sessions && db'.sessions[sid] == db.sessions[sid]
    requires db'.segments == db.segments
    ensures SubmissionOk(db', sid)
  {
    assert PartsReady(db, sid) == PartsReady(db', sid);
  }

  /** A gate held by an operation other than the changed segment's stays held. */
  lemma OtherHolders(db: Db, db': Db, target: UploadTarget, owner: RemoteOperation)
    requires HoldsGate(db, target, owner)
    requires db'.sessions == db.sessions
    requires owner.UploadOp? ==>
               var key := SegmentKey(owner.sid, owner.index);
               key in db'.segments && db'.segments[key].upload == db.segments[key].upload
    requires owner.SubmissionOp? ==>
               owner.sid in db'.submissions && db'.submissions[owner.sid].state == db.submissions[owner.sid].state
    ensures HoldsGate(db', target, owner)
  {
  }

  lemma RowsKeyed(db: Db)
    requires Inv(db)
    ensures db.Keyed()
  {
    forall id | id in db.sessions ensures db.sessions[id].id == id {
      assert SessionOk(db, id);
    }
    forall k | k in db.segments ensures db.segments[k].Key() == k {
      assert SegmentOk(db, k);
    }
    forall sid | sid in db.submissions ensures db.submissions[sid].sid == sid {
      assert SubmissionOk(db, sid);
    }
  }

  // ----- Room claims -----

  lemma ClaimIsExact(db: Db, sid: Uuid, now: Timestamp)
    requires Inv(db) && sid in db.sessions && !db.sessions[sid].lifecycle.Closed?
    ensures CanClaimRoom(db, db.sessions[sid])
    ensures ClaimRoom(db, db.sessions[sid], now) == db
  {
    assert SessionOk(db, sid);
  }

  // ----- Artifacts -----

  /** A row outside the upload stage carries an empty ledger. */
  lemma NoHistoryYet(db: Db, key: SegmentKey)
    requires Inv(db) && key in db.segments
    requires !db.segments[key].artifact.Usable()
    ensures db.segments[key].attempts == [] && db.segments[key].resolutions == []
    ensures !db.segments[key].upload.Blocked? && !db.segments[key].upload.Attempting?
            && !db.segments[key].upload.Uploaded?
    ensures key.sid !in db.submissions || db.segments[key].artifact.Filtered? || db.segments[key].artifact.Excluded?
  {
    assert SegmentOk(db, key);
    if key.sid in db.submissions {
      assert SubmissionOk(db, key.sid);
      assert RowSubmittable(db.segments[key]);
    }
  }

  lemma ArtifactRowKeeps(db: Db, row: Segment)
    requires Inv(db) && row.Key() in db.segments
    requires var old_ := db.segments[row.Key()];
             && !old_.artifact.Usable() && !old_.artifact.Filtered? && !old_.artifact.Excluded?
             && row.attempts == old_.attempts && row.resolutions == old_.resolutions
             && !row.upload.Blocked?
    requires row.sid in db.sessions && RowFits(db.sessions[row.sid], row)
    requires !row.artifact.Deleting? && !row.artifact.Deleted?
    ensures Inv(db.PutSegment(row))
  {
    var db' := db.PutSegment(row);
    NoHistoryYet(db, row.Key());
    forall target | target in db'.gates ensures GateOk(db', target) {
      assert GateOk(db, target);
      if db.gates[target].Blocked? {
        OtherHolders(db, db', target, db.gates[target].owner);
      }
    }
    assert db' == db.PutSegment(row).(gates := db'.gates);
    SegmentRowKeeps(db, row, db');
  }

  lemma MoveKeeps(db: Db, key: SegmentKey, move: ArtifactMove, now: Timestamp)
    requires Inv(db) && CanMoveArtifact(db, key, move)
    ensures Inv(ArtifactMoved(db, key, move, now))
  {
    ClaimIsExact(db, key.sid, now);
    assert SegmentOk(db, key);
    NoHistoryYet(db, key);
    var row := MoveArtifact(db.segments[key], move).value;
    EmptyHistory<UploadedPart>();
    ArtifactRowKeeps(db, row);
  }

  lemma ConflictKeeps(db: Db, key: SegmentKey, decision: ArtifactDecision, note: Option<string>, now: Timestamp)
    requires Inv(db) && CanBeginConflict(db, key)
    ensures Inv(ConflictBegun(db, key, decision, note, now))
  {
    ClaimIsExact(db, key.sid, now);
    assert SegmentOk(db, key);
    NoHistoryYet(db, key);
    var segment := db.segments[key];
    ArtifactRowKeeps(db, segment.(
      artifactResolutions := segment.artifactResolutions + [ArtifactResolution(now, decision, note)],
      artifact := ResolvingConflict(segment.artifact.closeReason, decision)));
  }

  lemma BeginDeleteKeeps(db: Db, key: SegmentKey)
    requires Inv(db) && CanBeginDelete(db, key)
    ensures Inv(WithArtifact(db, key, Deleting))
  {
    DeleteStepKeeps(db, key, Deleting);
  }

  lemma CompleteDeleteKeeps(db: Db, key: SegmentKey)
    requires Inv(db) && CanCompleteDelete(db, key)
    ensures Inv(WithArtifact(db, key, Deleted))
  {
    assert SegmentOk(db, key);
    assert SubmissionOk(db, key.sid);
    DeleteStepKeeps(db, key, Deleted);
  }

  lemma DeleteStepKeeps(db: Db, key: SegmentKey, artifact: ArtifactState)
    requires Inv(db) && key in db.segments && CleanupLicensed(db, key.sid)
    requires db.segments[key].artifact.Usable() && db.segments[key].upload.Uploaded?
    requires db.sessions[key.sid].lifecycle.Completed()
    requires artifact.Deleting? || artifact.Deleted?
    ensures Inv(WithArtifact(db, key, artifact))
  {
    assert SegmentOk(db, key);
    var row := db.segments[key].(artifact := artifact);
    var db' := db.PutSegment(row);
    forall target | target in db'.gates ensures GateOk(db', target) {
      assert GateOk(db, target);
    }
    assert db' == db.PutSegment(row).(gates := db'.gates);
    SegmentRowKeeps(db, row, db');
  }

  // ----- Gates -----

  predicate SameOperation(left: RemoteOperation, right: RemoteOperation) {
    match (left, right)
    case (UploadOp(sid, index, _), UploadOp(sid', index', _)) => sid == sid' && index == index'
    case (SubmissionOp(sid, _), SubmissionOp(sid', _)) => sid == sid'
    case _ => false
  }

  /** No other operation's row changed. */
  ghost predicate OnlyMoved(db: Db, db': Db, moved: RemoteOperation) {
    && db'.sessions == db.sessions
    && (forall k | k in db.segments :: k in db'.segments &&
          (moved == UploadOp(k.sid, k.index, moved.attemptId) || db'.segments[k].upload == db.segments[k].upload))
    && (forall sid | sid in db.submissions :: sid in db'.submissions &&
          (moved == SubmissionOp(sid, moved.attemptId) || db'.submissions[sid].state == db.submissions[sid].state))
  }

  lemma OthersStillHold(db: Db, db': Db, moved: RemoteOperation, target: UploadTarget, owner: RemoteOperation)
    requires OnlyMoved(db, db', moved) && HoldsGate(db, target, owner) && !SameOperation(moved, owner)
    ensures HoldsGate(db', target, owner)
  {
  }

  ghost predicate GateSettled(db: Db, db': Db, moved: RemoteOperation, target: UploadTarget) {
    target in db'.gates && db'.gates[target].Blocked? ==>
      || HoldsGate(db', target, db'.gates[target].owner)
      || (target in db.gates && db'.gates[target] == db.gates[target] && !SameOperation(moved, db.gates[target].owner))
  }

  lemma GatesAfter(db: Db, db': Db, moved: RemoteOperation)
    requires GatesHeld(db) && OnlyMoved(db, db', moved)
    requires forall target | target in db'.gates :: GateSettled(db, db', moved, target)
    ensures GatesHeld(db')
  {
    forall target | target in db'.gates ensures GateOk(db', target) {
      assert GateSettled(db, db', moved, target);
      if db'.gates[target].Blocked? && target in db.gates && db'.gates[target] == db.gates[target]
         && !SameOperation(moved, db.gates[target].owner) {
        assert GateOk(db, target);
        OthersStillHold(db, db', moved, target, db.gates[target].owner);
      }
    }
  }

  ghost predicate OperationBlocked(db: Db, op: RemoteOperation) {
    match op
    case UploadOp(sid, index, _) =>
      SegmentKey(sid, index) in db.segments && db.segments[SegmentKey(sid, index)].upload.Blocked?
    case SubmissionOp(sid, _) => sid in db.submissions && db.submissions[sid].state.Blocked?
  }

  /** A claim opens its target's gate, which was not blocked. */
  lemma ClaimGateKeeps(db: Db, db': Db, moved: RemoteOperation, target: UploadTarget)
    requires GatesHeld(db) && OnlyMoved(db, db', moved) && !OperationBlocked(db, moved)
    requires db'.gates == db.gates[target := TargetGate.Ready]
    ensures GatesHeld(db')
  {
    forall t | t in db'.gates ensures GateSettled(db, db', moved, t) {
      assert t in db.gates ==> GateOk(db, t);
    }
    GatesAfter(db, db', moved);
  }

  /** Recording an attempt's end keeps the blocked gates held. */
  lemma ReportGateKeeps<P>(db: Db, mid: Db, db': Db, report: RemoteReport<P>, moved: RemoteOperation,
      target: UploadTarget, now: Timestamp)
    requires GatesHeld(db) && OnlyMoved(db, mid, moved) && !OperationBlocked(db, moved)
    requires mid.gates == db.gates
    requires report.ReportBlocked? ==> HoldsGate(mid, target, moved)
    requires db' == ReportGate(mid, target, report, moved, now)
    ensures GatesHeld(db') && db.gates.Keys <= db'.gates.Keys
  {
    forall t | t in db'.gates ensures GateSettled(db, db', moved, t) {
      assert t in db.gates ==> GateOk(db, t);
    }
    GatesAfter(db, db', moved);
  }

  /** After an operator's decision no gate is left in the name of the resolved attempt. */
  lemma ClearedGateKeeps(db: Db, mid: Db, db': Db, moved: RemoteOperation, target: UploadTarget)
    requires GatesHeld(db) && OnlyMoved(db, mid, moved)
    requires mid.gates == db.gates && HasTarget(db, moved.sid) && target == TargetOf(db, moved.sid)
    requires OperationBlocked(db, moved) ==> HoldsGate(db, target, moved)
    requires db' == GateCleared(mid, target, Some(moved))
    ensures GatesHeld(db') && db.gates.Keys <= db'.gates.Keys
  {
    forall t | t in db'.gates ensures GateSettled(db, db', moved, t) {
      assert GateOk(db, t);
    }
    GatesAfter(db, db', moved);
  }

  // ----- Uploads -----

  /** While an upload is undecided its session has no submission. */
  lemma UndecidedMeansUnsubmitted(db: Db, key: SegmentKey)
    requires Inv(db) && key in db.segments && !RowSubmittable(db.segments[key])
    ensures key.sid !in db.submissions
  {
    assert key.sid in db.submissions ==> SubmissionOk(db, key.sid);
  }

  lemma StartedUploadFits(session: LiveSession, segment: Segment, attempt: RemoteAttempt)
    requires RowFits(session, segment) && segment.artifact.Ready? && segment.upload.Pending?
    requires Position(segment.attempts, attempt.id) == |segment.attempts|
    ensures RowFits(session, UploadStartedRow(segment, attempt))
    ensures SegmentLedgerGrows(segment, UploadStartedRow(segment, attempt))
  {
    BeginKeeps(segment.attempts, segment.resolutions, attempt);
  }

  ghost predicate SegmentLedgerGrows(before: Segment, after: Segment) {
    HistoryGrows(before.attempts, before.resolutions, after.attempts, after.resolutions)
  }

  lemma BeginUploadKeeps(db: Db, key: SegmentKey, attempt: RemoteAttempt)
    requires Inv(db) && CanBeginUpload(db, key, attempt)
    ensures Inv(UploadBegun(db, key, attempt))
  {
    assert SegmentOk(db, key);
    StartedUploadFits(db.sessions[key.sid], db.segments[key], attempt);
    var db' := UploadBegun(db, key, attempt);
    ClaimGateKeeps(db, db', UploadOp(key.sid, key.index, attempt.id), TargetOf(db, key.sid));
    SegmentRowKeeps(db, UploadStartedRow(db.segments[key], attempt), db');
  }

  lemma ReportedUploadFits(session: LiveSession, segment: Segment, report: RemoteReport<UploadedPart>, now: Timestamp)
    requires RowFits(session, segment) && segment.upload.Attempting?
    requires OpenRecord(segment.attempts, segment.upload.attempt.id)
    ensures RowFits(session, UploadReportedRow(segment, report, now))
    ensures SegmentLedgerGrows(segment, UploadReportedRow(segment, report, now))
  {
    FinishKeeps(segment.upload.attempt, segment.attempts, segment.resolutions, now, report.Outcome());
  }

  lemma ReportUploadKeeps(db: Db, key: SegmentKey, id: Uuid, report: RemoteReport<UploadedPart>, now: Timestamp)
    requires Inv(db) && CanReportUpload(db, key, id, report)
    ensures Inv(UploadReported(db, key, id, report, now))
  {
    assert SegmentOk(db, key);
    UndecidedMeansUnsubmitted(db, key);
    ReportedUploadFits(db.sessions[key.sid], db.segments[key], report, now);
    var row := UploadReportedRow(db.segments[key], report, now);
    var db' := UploadReported(db, key, id, report, now);
    ReportGateKeeps(db, db.PutSegment(row), db', report, UploadOp(key.sid, key.index, id), TargetOf(db, key.sid), now);
    SegmentRowKeeps(db, row, db');
  }

  lemma ResolvedUploadFits(session: LiveSession, segment: Segment, decision: OperatorDecision<UploadedPart>,
      note: Option<string>, now: Timestamp)
    requires RowFits(session, segment) && session.outputPlan.Bilibili? && UploadRecoverable(segment.upload)
    ensures HasRecord(segment.attempts, UploadAttemptId(segment.upload)) && UploadAttemptId(segment.upload).Some?
    ensures segment.artifact.Usable()
    ensures RowFits(session, UploadResolvedRow(session, segment, decision, note, now))
    ensures SegmentLedgerGrows(segment, UploadResolvedRow(session, segment, decision, note, now))
  {
    ResolveKeeps(UploadPhase(segment.upload), segment.attempts, segment.resolutions,
        UploadAttemptId(segment.upload).value,
                 now, decision, note, UploadPhase(UploadDecided(session, decision, now)));
  }

  lemma ResolveUploadKeeps(db: Db, key: SegmentKey, decision: OperatorDecision<UploadedPart>, note: Option<string>,
      now: Timestamp)
    requires Inv(db) && CanResolveUpload(db, key, decision)
    ensures Inv(UploadResolved(db, key, decision, note, now))
  {
    assert SegmentOk(db, key);
    var segment := db.segments[key];
    ResolvedUploadFits(db.sessions[key.sid], segment, decision, note, now);
    var row := UploadResolvedRow(db.sessions[key.sid], segment, decision, note, now);
    var db' := UploadResolved(db, key, decision, note, now);
    ClearedGateKeeps(db, db.PutSegment(row), db', UploadOp(key.sid, key.index, UploadAttemptId(segment.upload).value),
        TargetOf(db, key.sid));
    SegmentRowKeeps(db, row, db');
  }

  // ----- Submissions -----

  ghost predicate SubmissionRowFits(row: Submission) {
    && |row.attempts| > 0
    && (row.state.Blocked? ==> row.state.attemptId.Some?)
    && HistoryOk(SubmissionPhase(row.state), row.attempts, row.resolutions)
  }

  lemma SubmissionPlaced(db: Db, row: Submission, db': Db)
    requires Inv(db) && HasTarget(db, row.sid) && db.sessions[row.sid].lifecycle.Completed()
    requires PartsReady(db, row.sid)
    requires SubmissionRowFits(row)
    requires db' == db.PutSubmission(row).(gates := db'.gates)
    requires db.gates.Keys <= db'.gates.Keys && GatesHeld(db')
    requires row.sid in db.submissions ==> !db.submissions[row.sid].state.Submitted?
    ensures Inv(db')
  {
    assert PartsReady(db', row.sid) == PartsReady(db, row.sid);
    SubmissionRowKeeps(db, row, db');
  }

  ghost predicate SubmissionLedgerGrows(before: Submission, after: Submission) {
    HistoryGrows(before.attempts, before.resolutions, after.attempts, after.resolutions)
  }

  lemma StartedSubmissionFits(row: Submission, attempt: RemoteAttempt)
    requires HistoryOk(Idle, row.attempts, row.resolutions)
    requires Position(row.attempts, attempt.id) == |row.attempts|
    ensures SubmissionRowFits(SubmissionStartedRow(row, attempt))
    ensures SubmissionLedgerGrows(row, SubmissionStartedRow(row, attempt))
  {
    BeginKeeps(row.attempts, row.resolutions, attempt);
  }

  /** A claim finds a row that is due, or none at all: either way its ledger is idle. */
  lemma ClaimedRowIdle(db: Db, sid: Uuid, attempt: RemoteAttempt)
    requires Inv(db) && CanBeginSubmission(db, sid, attempt)
    ensures var row := SubmissionRow(db, sid, attempt);
            && row.sid == sid
            && HistoryOk(Idle, row.attempts, row.resolutions)
            && Position(row.attempts, attempt.id) == |row.attempts|
  {
    EmptyHistory<SubmissionProof>();
    assert sid in db.submissions ==> SubmissionOk(db, sid);
  }

  lemma BeginSubmissionKeeps(db: Db, sid: Uuid, attempt: RemoteAttempt)
    requires Inv(db) && CanBeginSubmission(db, sid, attempt)
    ensures Inv(SubmissionBegun(db, sid, attempt))
  {
    var row := SubmissionRow(db, sid, attempt);
    ClaimedRowIdle(db, sid, attempt);
    StartedSubmissionFits(row, attempt);
    var db' := SubmissionBegun(db, sid, attempt);
    ClaimGateKeeps(db, db', SubmissionOp(sid, attempt.id), TargetOf(db, sid));
    SubmissionPlaced(db, SubmissionStartedRow(row, attempt), db');
  }

  lemma ReportedSubmissionFits(row: Submission, report: RemoteReport<SubmissionProof>, now: Timestamp)
    requires SubmissionRowFits(row) && row.state.Attempting? && OpenRecord(row.attempts, row.state.attempt.id)
    ensures SubmissionRowFits(SubmissionReportedRow(row, report, now))
    ensures SubmissionLedgerGrows(row, SubmissionReportedRow(row, report, now))
  {
    FinishKeeps(row.state.attempt, row.attempts, row.resolutions, now, report.Outcome());
  }

  lemma ReportSubmissionKeeps(db: Db, sid: Uuid, id: Uuid, report: RemoteReport<SubmissionProof>, now: Timestamp)
    requires Inv(db) && CanReportSubmission(db, sid, id, report)
    ensures Inv(SubmissionReported(db, sid, id, report, now))
  {
    assert SubmissionOk(db, sid);
    ReportedSubmissionFits(db.submissions[sid], report, now);
    var row := SubmissionReportedRow(db.submissions[sid], report, now);
    var db' := SubmissionReported(db, sid, id, report, now);
    ReportGateKeeps(db, db.PutSubmission(row), db', report, SubmissionOp(sid, id), TargetOf(db, sid), now);
    SubmissionPlaced(db, row, db');
  }

  lemma DecidedSubmissionFits(row: Submission, decision: OperatorDecision<SubmissionProof>, note: Option<string>,
      now: Timestamp)
    requires SubmissionRowFits(row) && SubmissionRecoverable(row.state)
    ensures HasRecord(row.attempts, SubmissionAttemptId(row.state)) && SubmissionAttemptId(row.state).Some?
    ensures SubmissionRowFits(SubmissionResolvedRow(row, decision, note, now))
    ensures SubmissionLedgerGrows(row, SubmissionResolvedRow(row, decision, note, now))
  {
    ResolveKeeps(SubmissionPhase(row.state), row.attempts, row.resolutions, SubmissionAttemptId(row.state).value, now,
        decision, note,
                 SubmissionPhase(if decision.ConfirmedDone? then Submitted(decision.proof) else RetryAuthorized(now)));
  }

  lemma ResolveSubmissionKeeps(db: Db, sid: Uuid, decision: OperatorDecision<SubmissionProof>, note: Option<string>,
      now: Timestamp)
    requires Inv(db) && CanResolveSubmission(db, sid, decision)
    ensures Inv(SubmissionResolved(db, sid, decision, note, now))
  {
    assert SubmissionOk(db, sid);
    var row := db.submissions[sid];
    DecidedSubmissionFits(row, decision, note, now);
    var row' := SubmissionResolvedRow(row, decision, note, now);
    var db' := SubmissionResolved(db, sid, decision, note, now);
    ClearedGateKeeps(db, db.PutSubmission(row'), db', SubmissionOp(sid, SubmissionAttemptId(row.state).value),
        TargetOf(db, sid));
    SubmissionPlaced(db, row', db');
  }

  // ----- Sessions -----

  /** A new session takes a free room; everything else stays. */
  lemma CreateSessionKeeps(db: Db, session: LiveSession, now: Timestamp)
    requires Inv(db) && CanCreateSession(db, session)
    ensures Inv(SessionCreated(db, session, now))
  {
    var db' := SessionCreated(db, session, now);
    forall id | id in db'.sessions ensures SessionOk(db', id) {
      if id != session.id {
        SessionOkElsewhere(db, session, now, id);
      }
    }
    RowsUntouched(db, db');
    forall room | room in db'.rooms ensures RoomOk(db', room) {
      if room != session.roomId {
        assert RoomOk(db, room);
      }
    }
    NewGateKeeps(db, db');
  }

  lemma SessionOkElsewhere(db: Db, session: LiveSession, now: Timestamp, id: Uuid)
    requires Inv(db) && CanCreateSession(db, session) && id in db.sessions
    ensures SessionOk(SessionCreated(db, session, now), id)
  {
    assert SessionOk(db, id);
    assert HasUsable(db, id) ==> HasUsable(SessionCreated(db, session, now), id);
  }

  /** A new target starts with an open gate. */
  lemma NewGateKeeps(db: Db, db': Db)
    requires GatesHeld(db) && db'.segments == db.segments && db'.submissions == db.submissions
    requires forall id | id in db.sessions :: id in db'.sessions && db'.sessions[id] == db.sessions[id]
    requires forall t | t in db'.gates :: (t in db.gates && db'.gates[t] == db.gates[t]) || db'.gates[t].Ready?
    ensures GatesHeld(db')
  {
    forall target | target in db'.gates ensures GateOk(db', target) {
      assert target in db.gates ==> GateOk(db, target);
    }
  }

  /** Segments and submissions stay fit when the session rows only gain entries. */
  lemma RowsUntouched(db: Db, db': Db)
    requires Inv(db)
    requires forall id | id in db.sessions :: id in db'.sessions && db'.sessions[id] == db.sessions[id]
    requires db'.segments == db.segments && db'.submissions == db.submissions
    ensures forall k | k in db'.segments :: SegmentOk(db', k)
    ensures forall sid | sid in db'.submissions :: SubmissionOk(db', sid)
  {
    forall k | k in db'.segments ensures SegmentOk(db', k) {
      assert SegmentOk(db, k);
    }
    forall sid | sid in db'.submissions ensures SubmissionOk(db', sid) {
      assert SubmissionOk(db, sid);
      SubmissionUntouched(db, db', sid);
    }
  }

  lemma OpenSegmentKeeps(db: Db, segment: Segment)
    requires Inv(db) && CanOpenSegment(db, segment)
    ensures Inv(SegmentOpened(db, segment))
  {
    var db' := SegmentOpened(db, segment);
    assert SessionOk(db, segment.sid);
    NewRowOk(db, segment);
    forall k | k in db'.segments ensures SegmentOk(db', k) {
      if k != segment.Key() {
        assert SegmentOk(db, k);
      }
    }
    forall id | id in db'.sessions ensures SessionOk(db', id) {
      assert SessionOk(db, id);
      if HasUsable(db, id) {
        var k :| k in db.segments && k.sid == id && db.segments[k].artifact.Usable();
        assert k in db'.segments && db'.segments[k] == db.segments[k];
      }
    }
    forall room | room in db'.rooms ensures RoomOk(db', room) {
      assert RoomOk(db, room);
    }
    forall sid | sid in db'.submissions ensures SubmissionOk(db', sid) {
      assert SubmissionOk(db, sid);
      PartsKeptByNewRow(db, db', segment.Key(), sid);
    }
    forall target | target in db'.gates ensures GateOk(db', target) {
      assert GateOk(db, target);
    }
  }

  lemma NewRowOk(db: Db, segment: Segment)
    requires Inv(db) && CanOpenSegment(db, segment)
    ensures SegmentOk(SegmentOpened(db, segment), segment.Key())
  {
    EmptyHistory<UploadedPart>();
    if segment.index > 1 {
      var last := SegmentKey(segment.sid, Greatest(SegmentIndices(db, segment.sid)));
      assert last in db.segments;
      assert SegmentOk(db, last);
    }
  }

  lemma PartsKeptByNewRow(db: Db, db': Db, key: SegmentKey, sid: Uuid)
    requires key !in db.segments && key in db'.segments && key.sid != sid
    requires db'.segments == db.segments[key := db'.segments[key]]
    requires PartsReady(db, sid)
    ensures PartsReady(db', sid)
  {
    var k :| k in db.segments && k.sid == sid && RowUploaded(db.segments[k]);
    assert k in db'.segments && RowUploaded(db'.segments[k]);
  }

  /** A session's own lifecycle and segment rows change; it holds its room alone before and after. */
  lemma SessionRowKeeps(db: Db, session: LiveSession, db': Db)
    requires Inv(db) && session.id in db.sessions
    requires var before := db.sessions[session.id];
             !before.lifecycle.Closed? && session.roomId == before.roomId && session.outputPlan == before.outputPlan
    requires session.lifecycle.RecoveryRequired? || session.lifecycle.Closed?
    requires db'.sessions == db.sessions[session.id := session]
    requires session.roomId in db'.rooms && db'.rooms == db.rooms[session.roomId := db'.rooms[session.roomId]]
    requires db'.rooms[session.roomId].lifecycle ==
               if session.lifecycle.Closed? then RoomLifecycle.Ready else RoomLifecycle.Blocked(session.id)
    requires db'.submissions == db.submissions && db'.gates == db.gates
    requires db'.segments.Keys == db.segments.Keys
    requires forall k | k in db.segments ::
               if k.sid == session.id
               then db'.segments[k].Key() == k && RowFits(session, db'.segments[k])
                    && !db'.segments[k].artifact.Deleting? && !db'.segments[k].artifact.Deleted?
               else db'.segments[k] == db.segments[k]
    requires session.lifecycle.Completed() ==> HasUsable(db', session.id)
    requires GatesHeld(db')
    ensures Inv(db')
  {
    forall id | id in db'.sessions ensures SessionOk(db', id) {
      assert SessionOk(db, id) && SessionOk(db, session.id);
      if id != session.id && HasUsable(db, id) {
        var k :| k in db.segments && k.sid == id && db.segments[k].artifact.Usable();
        assert k in db'.segments && db'.segments[k] == db.segments[k];
      }
    }
    forall k | k in db'.segments ensures SegmentOk(db', k) {
      assert SegmentOk(db, k);
    }
    forall room | room in db'.rooms ensures RoomOk(db', room) {
      if room != session.roomId {
        assert RoomOk(db, room);
      }
    }
    forall sid | sid in db'.submissions ensures SubmissionOk(db', sid) {
      assert SubmissionOk(db, sid);
      PartsElsewhere(db, db', session.id, sid);
    }
  }

  lemma PartsElsewhere(db: Db, db': Db, changed: Uuid, sid: Uuid)
    requires changed != sid && db'.segments.Keys == db.segments.Keys
    requires forall k | k in db.segments && k.sid != changed :: db'.segments[k] == db.segments[k]
    requires PartsReady(db, sid)
    ensures PartsReady(db', sid)
  {
    var k :| k in db.segments && k.sid == sid && RowUploaded(db.segments[k]);
    assert k in db'.segments && RowUploaded(db'.segments[k]);
  }

  /** Turning to recovery keeps every segment fit and blocks the session's own room. */
  lemma ToRecoveryKeeps(db: Db, session: LiveSession, now: Timestamp, message: Option<Reason>)
    requires Inv(db) && session.id in db.sessions
    requires var before := db.sessions[session.id];
             !before.lifecycle.Closed? && session.roomId == before.roomId && session.outputPlan == before.outputPlan
    requires session.lifecycle.RecoveryRequired?
    ensures Inv(db.PutSession(session).PutRoom(session.roomId, RoomLifecycle.Blocked(session.id), now, message))
  {
    var db' := db.PutSession(session).PutRoom(session.roomId, RoomLifecycle.Blocked(session.id), now, message);
    forall k | k in db.segments && k.sid == session.id ensures RowFits(session, db.segments[k])
        && db.segments[k].Key() == k {
      assert SegmentOk(db, k);
    }
    forall k | k in db.segments && k.sid == session.id
      ensures !db.segments[k].artifact.Deleting? && !db.segments[k].artifact.Deleted?
    {
      assert SegmentOk(db, k);
    }
    GatesSameRows(db, db');
    SessionRowKeeps(db, session, db');
  }

  lemma GatesSameRows(db: Db, db': Db)
    requires GatesHeld(db)
    requires db'.gates == db.gates && db'.submissions == db.submissions && db'.segments == db.segments
    requires forall id | id in db.sessions ::
               id in db'.sessions && db'.sessions[id].outputPlan == db.sessions[id].outputPlan
    ensures GatesHeld(db')
  {
    forall target | target in db'.gates ensures GateOk(db', target) {
      assert GateOk(db, target);
    }
  }

  lemma RequireRecoveryKeeps(db: Db, sid: Uuid, reason: Reason, now: Timestamp)
    requires Inv(db) && CanRequireRecovery(db, sid, reason)
    ensures Inv(RecoveryRequested(db, sid, reason, now))
  {
    assert SessionOk(db, sid);
    var session := db.sessions[sid];
    if session.lifecycle.RecoveryRequired? {
      var noted := if session.lifecycle.reason == reason then session else RecoveryNoted(session, reason, now);
      ToRecoveryKeeps(db, noted, now, Some(session.lifecycle.reason));
    } else {
      var noted := session.(
        lifecycle := SessionLifecycle.RecoveryRequired(reason, now),
        events := session.events + [RecoveryDetected(now, reason)]);
      ToRecoveryKeeps(db, noted, now, Some(reason));
    }
  }

  lemma MarkedKeeps(db: Db, sid: Uuid, reason: Reason, now: Timestamp)
    requires Inv(db) && sid in db.sessions && !db.sessions[sid].lifecycle.Closed?
    ensures Inv(MarkedForRecovery(db, db.sessions[sid], reason, now))
  {
    assert SessionOk(db, sid);
    var noted := RecoveryNoted(db.sessions[sid], reason, now);
    ToRecoveryKeeps(db, noted, now, Some(noted.lifecycle.reason));
  }

  lemma FailArtifactKeeps(db: Db, key: SegmentKey, reason: Reason, closeReason: Option<SegmentCloseReason>,
      now: Timestamp)
    requires Inv(db) && CanFailArtifact(db, key, reason)
    ensures Inv(ArtifactFailed(db, key, reason, closeReason, now))
  {
    assert SegmentOk(db, key) && SessionOk(db, key.sid);
    var note := SegmentFailed(key.sid, key.index, reason);
    MarkedKeeps(db, key.sid, note, now);
    var marked := MarkedForRecovery(db, db.sessions[key.sid], note, now);
    var segment := db.segments[key];
    var close := if closeReason.Some? then closeReason else segment.artifact.CloseReason();
    var row := segment.(artifact := Failed(reason, close));
    NoHistoryYet(db, key);
    ArtifactRowKeeps(marked, row);
    assert ArtifactFailed(db, key, reason, closeReason, now) == marked.PutSegment(row);
  }

  // ----- Closing -----

  /** Rows of a session that closes without being abandoned. */
  lemma ClosingRow(db: Db, session: LiveSession, k: SegmentKey, row: Segment)
    requires Inv(db) && k in db.segments && k.sid in db.sessions
    requires session == db.sessions[k.sid].(lifecycle := session.lifecycle, events := session.events)
    requires !db.sessions[k.sid].lifecycle.Closed?
    requires session.lifecycle.Completed()
             || (session.lifecycle.Closed? && session.lifecycle.closure.NoUsableRecording? && !HasUsable(db, k.sid))
    requires !db.segments[k].artifact.Unresolved()
    requires row == FailureExcluded(db.segments[k])
    ensures row.Key() == k && RowFits(session, row) && !row.artifact.Deleting? && !row.artifact.Deleted?
    ensures row.artifact.Usable() == db.segments[k].artifact.Usable()
    ensures row.upload == db.segments[k].upload || (!db.segments[k].upload.Blocked? && !row.upload.Blocked?)
  {
    assert SegmentOk(db, k);
    EmptyHistory<UploadedPart>();
  }

  lemma GatesKeptByRows(db: Db, db': Db)
    requires GatesHeld(db) && db'.gates == db.gates && db'.submissions == db.submissions
    requires forall id | id in db.sessions ::
               id in db'.sessions && db'.sessions[id].outputPlan == db.sessions[id].outputPlan
    requires db'.segments.Keys == db.segments.Keys
    requires forall k, t | k in db.segments && t in db.gates && db.segments[k].upload.Blocked? && GateNames(db, t, k) ::
               db'.segments[k].upload == db.segments[k].upload
    ensures GatesHeld(db')
  {
    forall t | t in db'.gates ensures GateOk(db', t) {
      assert GateOk(db, t);
      if db.gates[t].Blocked? && db.gates[t].owner.UploadOp? {
        assert GateNames(db, t, SegmentKey(db.gates[t].owner.sid, db.gates[t].owner.index));
      }
    }
  }

  ghost predicate GateNames(db: Db, target: UploadTarget, key: SegmentKey) {
    && target in db.gates && db.gates[target].Blocked? && db.gates[target].owner.UploadOp?
    && db.gates[target].owner.sid == key.sid && db.gates[target].owner.index == key.index
  }

  /** Natural and recovered closing: no intent is open and every failed segment is excluded. */
  lemma FinalizedKeeps(db: Db, sid: Uuid, rows: map<SegmentKey, Segment>, note: Option<string>,
      events: seq<RecordingEvent>, now: Timestamp)
    requires Inv(db) && sid in db.sessions && !db.sessions[sid].lifecycle.Closed?
    requires UnresolvedIndices(db, sid) == {}
    requires rows == RowsExcluded(db, sid)
    ensures Inv(ClosedAs(db.(segments := rows), db.sessions[sid], Closure(db, sid, note, now), events, now))
  {
    assert SessionOk(db, sid);
    var before := db.sessions[sid];
    var session := before.(lifecycle := Closed(Closure(db, sid, note, now)), events := before.events + events);
    var db' := ClosedAs(db.(segments := rows), before, Closure(db, sid, note, now), events, now);
    forall k | k in db.segments
      ensures if k.sid == sid
              then rows[k].Key() == k && RowFits(session, rows[k]) && !rows[k].artifact.Deleting?
                  && !rows[k].artifact.Deleted?
              else rows[k] == db.segments[k]
      ensures rows[k].artifact.Usable() == db.segments[k].artifact.Usable()
      ensures rows[k].upload == db.segments[k].upload || !db.segments[k].upload.Blocked?
    {
      if k.sid == sid {
        assert k.index !in UnresolvedIndices(db, sid);
        assert !db.segments[k].artifact.Unresolved();
        ClosingRow(db, session, k, rows[k]);
      }
    }
    if HasUsable(db, sid) {
      var k :| k in db.segments && k.sid == sid && db.segments[k].artifact.Usable();
      assert rows[k].artifact.Usable();
      assert HasUsable(db', sid);
    }
    GatesKeptByRows(db, db');
    SessionRowKeeps(db, session, db');
  }

  lemma AbandonedRow(session: LiveSession, before: LiveSession, segment: Segment, now: Timestamp)
    requires RowFits(before, segment) && RowAbandonable(segment) && !before.lifecycle.Closed?
    requires session == before.(lifecycle := session.lifecycle, events := session.events)
    requires session.lifecycle.Closed? && session.lifecycle.closure.Abandoned?
    ensures RowFits(session, UploadAbandoned(segment, now))
    ensures UploadAbandoned(segment, now).Key() == segment.Key()
    ensures UploadAbandoned(segment, now).artifact == segment.artifact
  {
    match segment.upload
    case Attempting(attempt) =>
      FinishKeeps(attempt, segment.attempts, segment.resolutions, now, AmbiguousOutcome(INTERRUPTED));
    case Pending(_, _, _) => WithdrawKeeps(UploadPhase(segment.upload), segment.attempts, segment.resolutions);
    case Blocked(_, _) =>
      if session.outputPlan.Bilibili? {
        WithdrawKeeps(UploadPhase(segment.upload), segment.attempts, segment.resolutions);
      }
    case _ =>
  }

  lemma AbandonKeeps(db: Db, sid: Uuid, note: Option<string>, now: Timestamp)
    requires Inv(db) && sid in db.sessions && CanAbandon(db, db.sessions[sid])
    ensures Inv(SessionClosed(db, sid, Abandon(note), now))
  {
    assert SessionOk(db, sid);
    var before := db.sessions[sid];
    var events := [OperatorResolved(now, AbandonedDecision, note)];
    var session := before.(lifecycle := Closed(Abandoned(now, note)), events := before.events + events);
    var rows := RowsAbandoned(db, sid, now);
    var db' := SessionClosed(db, sid, Abandon(note), now);
    forall k | k in db.segments
      ensures if k.sid == sid
              then rows[k].Key() == k && RowFits(session, rows[k]) && !rows[k].artifact.Deleting?
                  && !rows[k].artifact.Deleted?
              else rows[k] == db.segments[k]
    {
      assert SegmentOk(db, k);
      if k.sid == sid {
        AbandonedRow(session, before, db.segments[k], now);
      }
    }
    forall k, t | k in db.segments && t in db.gates && db.segments[k].upload.Blocked? && GateNames(db, t, k)
      ensures rows[k].upload == db.segments[k].upload
    {
      assert GateOk(db, t);
    }
    GatesKeptByRows(db, db');
    SessionRowKeeps(db, session, db');
  }

  lemma CloseSessionKeeps(db: Db, sid: Uuid, request: CloseRequest, now: Timestamp)
    requires Inv(db) && CanClose(db, sid, request)
    ensures Inv(SessionClosed(db, sid, request, now))
  {
    match request
    case Abandon(note) =>
      assert SessionOk(db, sid);
      AbandonKeeps(db, sid, note, now);
    case Recover(_, note) =>
      FinalizedKeeps(db, sid, RowsExcluded(db, sid), note, [OperatorResolved(now, FinalizedDecision, note)], now);
    case Natural(note) =>
      if UnresolvedIndices(db, sid) != {} {
        var index := Least(UnresolvedIndices(db, sid));
        MarkedKeeps(db, sid, UnresolvedIntent(sid, index, db.segments[SegmentKey(sid, index)].artifact), now);
      } else if FailedIndices(db, sid) != {} {
        MarkedKeeps(db, sid, FailedNeedsDecision(sid, Least(FailedIndices(db, sid))), now);
      } else {
        NothingFailed(db, sid);
        FinalizedKeeps(db, sid, db.segments, note, [], now);
        assert db.(segments := db.segments) == db;
      }
  }

  lemma NothingFailed(db: Db, sid: Uuid)
    requires FailedIndices(db, sid) == {}
    ensures RowsExcluded(db, sid) == db.segments
  {
    forall k | k in db.segments && k.sid == sid ensures !db.segments[k].artifact.Failed? {
      assert k.index !in FailedIndices(db, sid);
    }
  }

  // ----- All commands -----

  /** Main result: every command that takes effect leads from the invariant to the invariant. */
  lemma EffectKeeps(db: Db, command: Command, now: Timestamp)
    requires Inv(db) && Enabled(db, command)
    ensures Inv(Effect(db, command, now))
  {
    match command
    case CreateSession(session) => CreateSessionKeeps(db, session, now);
    case OpenSegment(segment) => OpenSegmentKeeps(db, segment);
    case UpdateArtifact(key, move) => MoveKeeps(db, key, move, now);
    case BeginConflict(key, decision, note) => ConflictKeeps(db, key, decision, note, now);
    case FailArtifact(key, reason, close) => FailArtifactKeeps(db, key, reason, close, now);
    case BeginDelete(key) => BeginDeleteKeeps(db, key);
    case CompleteDelete(key) => CompleteDeleteKeeps(db, key);
    case RequireRecovery(sid, reason) => RequireRecoveryKeeps(db, sid, reason, now);
    case CloseSession(sid, request) => CloseSessionKeeps(db, sid, request, now);
    case BeginUpload(key, attempt) => BeginUploadKeeps(db, key, attempt);
    case ReportUpload(key, id, report) => ReportUploadKeeps(db, key, id, report, now);
    case ResolveUpload(key, decision, note) => ResolveUploadKeeps(db, key, decision, note, now);
    case BeginSubmission(sid, attempt) => BeginSubmissionKeeps(db, sid, attempt);
    case ReportSubmission(sid, id, report) => ReportSubmissionKeeps(db, sid, id, report, now);
    case ResolveSubmission(sid, decision, note) => ResolveSubmissionKeeps(db, sid, decision, note, now);
  }

  lemma {:induction false} RunKeeps(db: Db, events: seq<Event>)
    requires Inv(db)
    ensures Inv(Run(db, events))
    decreases |events|
  {
    if events != [] {
      var next := Apply(db, events[0].command, events[0].now);
      if Enabled(db, events[0].command) {
        EffectKeeps(db, events[0].command, events[0].now);
      }
      RunKeeps(next, events[1..]);
    }
  }
}
