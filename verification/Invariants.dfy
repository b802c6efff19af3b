/** What holds of every database a run of transitions can reach from the empty one. */
module Invariants {
  import opened Wrappers
  import opened Model
  import opened History
  import opened Database
  import opened Transitions

  // ----- One segment under its session -----

  ghost predicate LifecycleAllows(lifecycle: SessionLifecycle, artifact: ArtifactState) {
    match lifecycle
    case Open => artifact.Writing? || artifact.Finalizing? || artifact.Ready? || artifact.Discarding?
        || artifact.Filtered?
    case RecoveryRequired(_, _) => !artifact.Deleting? && !artifact.Deleted?
    case Closed(Completed(_, _)) =>
      artifact.Ready? || artifact.Filtered? || artifact.Excluded? || artifact.Deleting? || artifact.Deleted?
    case Closed(NoUsableRecording(_)) => artifact.Filtered? || artifact.Excluded?
    case Closed(Abandoned(_, _)) =>
      artifact.Ready? || artifact.Filtered? || artifact.Excluded? || artifact.Failed?
  }

  ghost predicate UploadFits(session: LiveSession, segment: Segment) {
    var upload := segment.upload;
    if session.outputPlan.LocalOnly? then
      upload.NotPlanned? && segment.attempts == [] && segment.resolutions == []
    else
      && (upload.NotPlanned? <==> segment.artifact.Filtered? || segment.artifact.Excluded?)
      && (segment.attempts != [] || segment.resolutions != [] ==> segment.artifact.Usable())
      && (segment.artifact.Deleting? || segment.artifact.Deleted? ==> upload.Uploaded?)
      && (upload.Blocked? ==> upload.attemptId.Some?)
      && (upload.Cancelled? ==> session.lifecycle.Closed? && session.lifecycle.closure.Abandoned?)
      && (session.lifecycle.Closed? && session.lifecycle.closure.Abandoned? ==>
            !upload.Pending? && !upload.Attempting? && !upload.Blocked?)
  }

  ghost predicate SegmentHistoryOk(segment: Segment) {
    HistoryOk(UploadPhase(segment.upload), segment.attempts, segment.resolutions)
  }

  ghost predicate RowFits(session: LiveSession, segment: Segment) {
    && LifecycleAllows(session.lifecycle, segment.artifact)
    && UploadFits(session, segment)
    && SegmentHistoryOk(segment)
  }

  ghost predicate SegmentOk(db: Db, key: SegmentKey)
    requires key in db.segments
  {
    var segment := db.segments[key];
    && segment.Key() == key
    && 1 <= key.index <= MAX_U32
    && (key.index > 1 ==> SegmentKey(key.sid, key.index - 1) in db.segments)
    && key.sid in db.sessions
    && RowFits(db.sessions[key.sid], segment)
    && (segment.artifact.Deleting? || segment.artifact.Deleted? ==> CleanupLicensed(db, key.sid))
  }

  /** Local files go only after the session was submitted under a plan that says so. */
  ghost predicate CleanupLicensed(db: Db, sid: Uuid) {
    && sid in db.sessions && sid in db.submissions
    && db.sessions[sid].outputPlan.Bilibili?
    && db.sessions[sid].outputPlan.upload.deleteAfterSubmit
    && db.submissions[sid].state.Submitted?
  }

  // ----- Sessions and rooms -----

  ghost predicate OwnershipExact(db: Db, session: LiveSession) {
    match session.lifecycle
    case Open => session.roomId in db.rooms && db.rooms[session.roomId].lifecycle == RoomLifecycle.Owned(session.id)
    case RecoveryRequired(_, _) =>
      session.roomId in db.rooms && db.rooms[session.roomId].lifecycle == RoomLifecycle.Blocked(session.id)
    case Closed(_) => true
  }

  ghost predicate SessionOk(db: Db, id: Uuid)
    requires id in db.sessions
  {
    var session := db.sessions[id];
    && session.id == id
    && OwnershipExact(db, session)
    && (session.outputPlan.Bilibili? ==> session.outputPlan.upload.target in db.gates)
    && (session.lifecycle.Completed() ==> HasUsable(db, id))
  }

  ghost predicate RoomOk(db: Db, room: RoomId)
    requires room in db.rooms
  {
    match db.rooms[room].lifecycle
    case Ready => true
    case Owned(sid) => sid in db.sessions && db.sessions[sid].roomId == room && db.sessions[sid].lifecycle.Open?
    case Blocked(sid) =>
      sid in db.sessions && db.sessions[sid].roomId == room && db.sessions[sid].lifecycle.RecoveryRequired?
  }

  /** The durable ownership graph is exact. */
  ghost predicate RoomsOwned(db: Db) {
    && (forall id | id in db.sessions :: OwnershipExact(db, db.sessions[id]))
    && (forall room | room in db.rooms :: RoomOk(db, room))
  }

  // ----- Submissions -----

  ghost predicate SubmissionOk(db: Db, sid: Uuid)
    requires sid in db.submissions
  {
    var row := db.submissions[sid];
    && row.sid == sid
    && HasTarget(db, sid)
    && db.sessions[sid].lifecycle.Completed()
    && PartsReady(db, sid)
    && |row.attempts| > 0
    && (row.state.Blocked? ==> row.state.attemptId.Some?)
    && HistoryOk(SubmissionPhase(row.state), row.attempts, row.resolutions)
  }

  // ----- Upload targets -----

  /** The operation is blocked right now, by this attempt, on this target. */
  ghost predicate HoldsGate(db: Db, target: UploadTarget, owner: RemoteOperation) {
    && HasTarget(db, owner.sid) && TargetOf(db, owner.sid) == target
    && match owner
       case UploadOp(sid, index, id) =>
         && SegmentKey(sid, index) in db.segments
         && db.segments[SegmentKey(sid, index)].upload.Blocked?
         && db.segments[SegmentKey(sid, index)].upload.attemptId == Some(id)
       case SubmissionOp(sid, id) =>
         && sid in db.submissions
         && db.submissions[sid].state.Blocked?
         && db.submissions[sid].state.attemptId == Some(id)
  }

  ghost predicate GateOk(db: Db, target: UploadTarget)
    requires target in db.gates
  {
    db.gates[target].Blocked? ==> HoldsGate(db, target, db.gates[target].owner)
  }

  /** Every blocked gate is held. */
  ghost predicate GatesHeld(db: Db) {
    forall target {:trigger GateOk(db, target)} | target in db.gates :: GateOk(db, target)
  }

  // ----- The invariant -----

  ghost predicate Inv(db: Db) {
    && (forall id {:trigger SessionOk(db, id)} | id in db.sessions :: SessionOk(db, id))
    && (forall room {:trigger RoomOk(db, room)} | room in db.rooms :: RoomOk(db, room))
    && (forall key {:trigger SegmentOk(db, key)} | key in db.segments :: SegmentOk(db, key))
    && (forall sid {:trigger SubmissionOk(db, sid)} | sid in db.submissions :: SubmissionOk(db, sid))
    && GatesHeld(db)
  }

  lemma EmptyInv()
    ensures Inv(EMPTY)
  {
  }
}
