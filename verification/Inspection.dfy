/** The read-only diagnosis of the state database and of the recordings' files. */
module Inspection {
  import opened Model
  import opened Database
  import opened Transitions
  import opened Invariants
  import opened Runs
  import opened FileSystem
  import opened ArtifactCommit

  datatype AnomalyKind =
    | OpenSession
    | SessionRecoveryRequired
    | RoomOwnershipMismatch
    | OrphanSegment
    | InvalidSegmentPaths
    | InterruptedSegment
    | FinalizationConflict
    | ArtifactResolutionPending
    | DiscardConflict
    | DeletionConflict
    | FailedSegment
    | MissingSegmentFile
    | UnexpectedSegmentFile
    | InvalidUploadState
    | InterruptedUpload
    | AmbiguousUpload
    | BlockedUpload
    | OrphanSubmission
    | InvalidSubmissionState
    | InterruptedSubmission
    | AmbiguousSubmission
    | BlockedSubmission
    | UploadTargetBackoff
    | UploadTargetBlocked

  /** What an anomaly is reported about. */
  datatype Subject =
    | AboutSession(sid: Uuid)
    | AboutRoom(room: RoomId)
    | AboutSegment(key: SegmentKey)
    | AboutSubmission(submitted: Uuid)
    | AboutTarget(target: UploadTarget)

  datatype Anomaly = Anomaly(kind: AnomalyKind, subject: Subject)

  // ----- One row at a time -----

  predicate RoomSays(db: Db, session: LiveSession, expected: RoomLifecycle) {
    session.roomId in db.rooms && db.rooms[session.roomId].lifecycle == expected
  }

  function SessionAnomalies(db: Db, session: LiveSession): set<AnomalyKind> {
    match session.lifecycle
    case Open =>
      if RoomSays(db, session, RoomLifecycle.Owned(session.id)) then {OpenSession} else {RoomOwnershipMismatch}
    case RecoveryRequired(_, _) =>
      {SessionRecoveryRequired} +
      (if RoomSays(db, session, RoomLifecycle.Blocked(session.id)) then {} else {RoomOwnershipMismatch})
    case Closed(_) => {}
  }

  function RoomAnomalies(db: Db, room: RoomId): set<AnomalyKind>
    requires room in db.rooms
  {
    match db.rooms[room].lifecycle
    case Ready => {}
    case Owned(sid) =>
      if sid in db.sessions && db.sessions[sid].roomId == room && db.sessions[sid].lifecycle.Open? then {}
          else {RoomOwnershipMismatch}
    case Blocked(sid) =>
      if sid in db.sessions && db.sessions[sid].roomId == room && db.sessions[sid].lifecycle.RecoveryRequired? then {}
      else {RoomOwnershipMismatch}
  }

  /** The table of artifact and upload states that go together under a plan. */
  predicate UploadStateValid(session: LiveSession, row: Segment) {
    if session.outputPlan.LocalOnly? then row.upload.NotPlanned?
    else if row.upload.NotPlanned? then row.artifact.Discarding? || row.artifact.Filtered? || row.artifact.Excluded?
    else if row.upload.Uploaded? then row.artifact.Usable()
    else
      && !row.artifact.Deleting? && !row.artifact.Deleted?
      && !row.artifact.Discarding? && !row.artifact.Filtered? && !row.artifact.Excluded?
  }

  function UploadProgress(upload: UploadState): set<AnomalyKind> {
    match upload
    case Attempting(_) => {InterruptedUpload}
    case Ambiguous(_, _) => {AmbiguousUpload}
    case Blocked(_, _) => {BlockedUpload}
    case _ => {}
  }

  function When(condition: bool, kind: AnomalyKind): set<AnomalyKind> {
    if condition then {kind} else {}
  }

  function FinalizingAnomalies(part: PathKind, final: PathKind): set<AnomalyKind> {
    if part.Irregular? || final.Irregular? then {FinalizationConflict}
    else if part.RegularFile? && final.RegularFile? then {FinalizationConflict}
    else if part.Missing? && final.Missing? then {MissingSegmentFile}
    else {InterruptedSegment}
  }

  function DiscardingAnomalies(part: PathKind, final: PathKind): set<AnomalyKind> {
    if !final.Missing? || part.Irregular? then {DiscardConflict} else {InterruptedSegment}
  }

  /** What the two paths of a segment show against its state. */
  function FileAnomalies(row: Segment, d: Directory): set<AnomalyKind> {
    var (part, final) := (KindIn(d, row.partPath), KindIn(d, row.finalPath));
    When(row.partPath == row.finalPath, InvalidSegmentPaths) +
    match row.artifact
    case Writing => {InterruptedSegment} + When(!final.Missing?, FinalizationConflict)
    case Finalizing(_) => FinalizingAnomalies(part, final)
    case ResolvingConflict(_, _) => {ArtifactResolutionPending}
    case Discarding(_) => DiscardingAnomalies(part, final)
    case Ready(_) => When(!final.RegularFile?, MissingSegmentFile) + When(!part.Missing?, UnexpectedSegmentFile)
    case Filtered(_) => When(!part.Missing? || !final.Missing?, UnexpectedSegmentFile)
    case Failed(_, _) => {FailedSegment}
    case Excluded(_) => {}
    case Deleting =>
      {InterruptedSegment} + When(final.Irregular?, DeletionConflict) + When(!part.Missing?, UnexpectedSegmentFile)
    case Deleted => When(!part.Missing? || !final.Missing?, UnexpectedSegmentFile)
  }

  function SegmentAnomalies(db: Db, d: Directory, row: Segment): set<AnomalyKind> {
    FileAnomalies(row, d) + RowAnomalies(db, row)
  }

  function RowAnomalies(db: Db, row: Segment): set<AnomalyKind> {
    (if row.sid !in db.sessions then {OrphanSegment}
     else if UploadStateValid(db.sessions[row.sid], row) then {} else {InvalidUploadState}) + UploadProgress(row.upload)
  }

  function SubmissionProgress(state: SubmissionState): set<AnomalyKind> {
    match state
    case Attempting(_) => {InterruptedSubmission}
    case Ambiguous(_, _) => {AmbiguousSubmission}
    case Blocked(_, _) => {BlockedSubmission}
    case _ => {}
  }

  function SubmissionAnomalies(db: Db, row: Submission): set<AnomalyKind> {
    (if row.sid !in db.sessions then {OrphanSubmission}
     else if !db.sessions[row.sid].outputPlan.Bilibili? || !db.sessions[row.sid].lifecycle.PermitsSubmission()
         then {InvalidSubmissionState}
     else {}) + SubmissionProgress(row.state)
  }

  function GateAnomalies(gate: TargetGate): set<AnomalyKind> {
    match gate
    case Ready => {}
    case Backoff(_, _, _, _) => {UploadTargetBackoff}
    case Blocked(_, _, _) => {UploadTargetBlocked}
  }

  /** What the diagnosis reports, row by row. */
  predicate Reported(db: Db, d: Directory, a: Anomaly) {
    match a.subject
    case AboutSession(sid) => sid in db.sessions && a.kind in SessionAnomalies(db, db.sessions[sid])
    case AboutRoom(room) => room in db.rooms && a.kind in RoomAnomalies(db, room)
    case AboutSegment(key) => key in db.segments && a.kind in SegmentAnomalies(db, d, db.segments[key])
    case AboutSubmission(sid) => sid in db.submissions && a.kind in SubmissionAnomalies(db, db.submissions[sid])
    case AboutTarget(target) => target in db.gates && a.kind in GateAnomalies(db.gates[target])
  }

  method Listed(kinds: set<AnomalyKind>, subject: Subject) returns (found: seq<Anomaly>)
    ensures forall a :: a in found <==> a.subject == subject && a.kind in kinds
  {
    found := [];
    var left := kinds;
    while left != {}
      invariant left <= kinds
      invariant forall a :: a in found <==> a.subject == subject && a.kind in kinds && a.kind !in left
      decreases left
    {
      var kind :| kind in left;
      found := found + [Anomaly(kind, subject)];
      left := left - {kind};
    }
  }

  method InspectSessions(db: Db, d: Directory) returns (found: seq<Anomaly>)
    ensures forall a :: a in found <==> a.subject.AboutSession? && Reported(db, d, a)
  {
    found := [];
    var left := db.sessions.Keys;
    while left != {}
      invariant left <= db.sessions.Keys
      invariant forall a :: a in found <==> a.subject.AboutSession? && a.subject.sid !in left && Reported(db, d, a)
      decreases left
    {
      var sid :| sid in left;
      var more := Listed(SessionAnomalies(db, db.sessions[sid]), AboutSession(sid));
      found := found + more;
      left := left - {sid};
    }
  }

  method InspectRooms(db: Db, d: Directory) returns (found: seq<Anomaly>)
    ensures forall a :: a in found <==> a.subject.AboutRoom? && Reported(db, d, a)
  {
    found := [];
    var left := db.rooms.Keys;
    while left != {}
      invariant left <= db.rooms.Keys
      invariant forall a :: a in found <==> a.subject.AboutRoom? && a.subject.room !in left && Reported(db, d, a)
      decreases left
    {
      var room :| room in left;
      var more := Listed(RoomAnomalies(db, room), AboutRoom(room));
      found := found + more;
      left := left - {room};
    }
  }

  method InspectSegments(db: Db, d: Directory) returns (found: seq<Anomaly>)
    ensures forall a :: a in found <==> a.subject.AboutSegment? && Reported(db, d, a)
  {
    found := [];
    var left := db.segments.Keys;
    while left != {}
      invariant left <= db.segments.Keys
      invariant forall a :: a in found <==> a.subject.AboutSegment? && a.subject.key !in left && Reported(db, d, a)
      decreases left
    {
      var key :| key in left;
      var more := Listed(SegmentAnomalies(db, d, db.segments[key]), AboutSegment(key));
      found := found + more;
      left := left - {key};
    }
  }

  method InspectSubmissions(db: Db, d: Directory) returns (found: seq<Anomaly>)
    ensures forall a :: a in found <==> a.subject.AboutSubmission? && Reported(db, d, a)
  {
    found := [];
    var left := db.submissions.Keys;
    while left != {}
      invariant left <= db.submissions.Keys
      invariant forall a ::
                  a in found <==> a.subject.AboutSubmission? && a.subject.submitted !in left && Reported(db, d, a)
      decreases left
    {
      var sid :| sid in left;
      var more := Listed(SubmissionAnomalies(db, db.submissions[sid]), AboutSubmission(sid));
      found := found + more;
      left := left - {sid};
    }
  }

  method InspectTargets(db: Db, d: Directory) returns (found: seq<Anomaly>)
    ensures forall a :: a in found <==> a.subject.AboutTarget? && Reported(db, d, a)
  {
    found := [];
    var left := db.gates.Keys;
    while left != {}
      invariant left <= db.gates.Keys
      invariant forall a :: a in found <==> a.subject.AboutTarget? && a.subject.target !in left && Reported(db, d, a)
      decreases left
    {
      var target :| target in left;
      var more := Listed(GateAnomalies(db.gates[target]), AboutTarget(target));
      found := found + more;
      left := left - {target};
    }
  }

  method DetectAnomalies(db: Db, d: Directory) returns (found: seq<Anomaly>)
    ensures forall a :: a in found <==> Reported(db, d, a)
  {
    var sessions := InspectSessions(db, d);
    var rooms := InspectRooms(db, d);
    var segments := InspectSegments(db, d);
    var submissions := InspectSubmissions(db, d);
    var targets := InspectTargets(db, d);
    found := sessions + rooms + segments + submissions + targets;
  }

  // ----- The diagnosis is exact -----

  ghost predicate MismatchReported(db: Db, d: Directory) {
    exists subject :: Reported(db, d, Anomaly(RoomOwnershipMismatch, subject))
  }

  lemma SegmentsNeverMismatch(db: Db, d: Directory, row: Segment)
    ensures RoomOwnershipMismatch !in SegmentAnomalies(db, d, row)
  {
  }

  lemma MismatchSubject(db: Db, d: Directory, subject: Subject)
    requires Reported(db, d, Anomaly(RoomOwnershipMismatch, subject))
    ensures subject.AboutSession? || subject.AboutRoom?
  {
    if subject.AboutSegment? {
      SegmentsNeverMismatch(db, d, db.segments[subject.key]);
    }
    hide SegmentAnomalies;
  }

  /** A mismatch is reported exactly when rooms and sessions disagree, on any database at all. */
  lemma MismatchIff(db: Db, d: Directory)
    requires db.Keyed()
    ensures MismatchReported(db, d) <==> !RoomsOwned(db)
  {
    hide SegmentAnomalies, SubmissionAnomalies, GateAnomalies;
    if MismatchReported(db, d) {
      var subject :| Reported(db, d, Anomaly(RoomOwnershipMismatch, subject));
      MismatchSubject(db, d, subject);
      match subject {
        case AboutSession(sid) => assert !OwnershipExact(db, db.sessions[sid]);
        case AboutRoom(room) => assert !RoomOk(db, room);
        case _ =>
      }
    } else {
      forall id | id in db.sessions ensures OwnershipExact(db, db.sessions[id]) {
        assert !Reported(db, d, Anomaly(RoomOwnershipMismatch, AboutSession(id)));
      }
      forall room | room in db.rooms ensures RoomOk(db, room) {
        assert !Reported(db, d, Anomaly(RoomOwnershipMismatch, AboutRoom(room)));
      }
    }
  }

  /** On a reachable database only an announced discard looks wrong, and only until it is done. */
  lemma InvalidUploadIff(db: Db, d: Directory, key: SegmentKey)
    requires Reachable(db) && key in db.segments
    ensures Reported(db, d, Anomaly(InvalidUploadState, AboutSegment(key))) <==>
              db.segments[key].artifact.Discarding? && HasTarget(db, key.sid)
  {
    ReachableInv(db);
    assert SegmentOk(db, key);
    assert UploadFits(db.sessions[key.sid], db.segments[key]);
  }

  /** No reachable database shows a mismatch, an orphan or a submission out of place. */
  lemma ReachableIsClean(db: Db, d: Directory, a: Anomaly)
    requires Reachable(db)
    ensures Reported(db, d, a) ==>
              a.kind !in {RoomOwnershipMismatch, OrphanSegment, OrphanSubmission, InvalidSubmissionState}
  {
    ReachableInv(db);
    match a.subject
    case AboutSession(sid) => assert sid in db.sessions ==> SessionOk(db, sid);
    case AboutRoom(room) => assert room in db.rooms ==> RoomOk(db, room);
    case AboutSegment(key) => assert key in db.segments ==> SegmentOk(db, key);
    case AboutSubmission(sid) => assert sid in db.submissions ==> SubmissionOk(db, sid);
    case AboutTarget(_) =>
  }

  // ----- When there is nothing to report -----

  /** A recording that is there alone, or is accounted for by having no file, and an upload that is not in doubt. */
  predicate RowAtRest(row: Segment, d: Directory) {
    && row.partPath != row.finalPath
    && (match row.artifact
        case Ready(_) => row.partPath !in d && row.finalPath in d && d[row.finalPath].File?
        case Filtered(_) => row.partPath !in d && row.finalPath !in d
        case Deleted => row.partPath !in d && row.finalPath !in d
        case Excluded(_) => true
        case _ => false)
    && !row.upload.Attempting? && !row.upload.Ambiguous? && !row.upload.Blocked?
  }

  ghost predicate AllAtRest(db: Db, d: Directory) {
    && (forall sid | sid in db.sessions :: db.sessions[sid].lifecycle.Closed?)
    && (forall k | k in db.segments :: RowAtRest(db.segments[k], d))
    && (forall sid | sid in db.submissions ::
          var state := db.submissions[sid].state; !state.Attempting? && !state.Ambiguous? && !state.Blocked?)
    && (forall target | target in db.gates :: db.gates[target].Ready?)
  }

  ghost predicate NothingAbout(db: Db, d: Directory, subject: Subject) {
    forall kind :: !Reported(db, d, Anomaly(kind, subject))
  }

  lemma QuietSession(db: Db, d: Directory, sid: Uuid)
    requires Inv(db) && sid in db.sessions
    ensures NothingAbout(db, d, AboutSession(sid)) <==> db.sessions[sid].lifecycle.Closed?
  {
    assert SessionOk(db, sid);
    assert Reported(db, d, Anomaly(OpenSession, AboutSession(sid))) <==> db.sessions[sid].lifecycle.Open?;
    assert Reported(db, d, Anomaly(SessionRecoveryRequired, AboutSession(sid))) <==>
             db.sessions[sid].lifecycle.RecoveryRequired?;
  }

  /** Some kind is reported of a set that is not empty. */
  lemma SomethingAbout(db: Db, d: Directory, key: SegmentKey)
    requires key in db.segments
    ensures NothingAbout(db, d, AboutSegment(key)) <==> SegmentAnomalies(db, d, db.segments[key]) == {}
  {
    hide SegmentAnomalies;
    var kinds := SegmentAnomalies(db, d, db.segments[key]);
    if kinds != {} {
      var kind :| kind in kinds;
      assert Reported(db, d, Anomaly(kind, AboutSegment(key)));
    }
  }

  lemma NoneOfEach(a: set<AnomalyKind>, b: set<AnomalyKind>)
    ensures a + b == {} <==> a == {} && b == {}
  {
    assert a <= a + b && b <= a + b;
  }

  lemma QuietFiles(row: Segment, d: Directory)
    ensures FileAnomalies(row, d) == {} && !row.upload.Attempting? && !row.upload.Ambiguous? && !row.upload.Blocked?
            <==> RowAtRest(row, d)
  {
    var (part, final) := (KindIn(d, row.partPath), KindIn(d, row.finalPath));
    assert row.partPath == row.finalPath ==> InvalidSegmentPaths in FileAnomalies(row, d);
    match row.artifact
    case Writing => assert InterruptedSegment in FileAnomalies(row, d);
    case Finalizing(_) =>
      assert FinalizationConflict in FileAnomalies(row, d) || MissingSegmentFile in FileAnomalies(row, d)
          || InterruptedSegment in FileAnomalies(row, d);
    case ResolvingConflict(_, _) => assert ArtifactResolutionPending in FileAnomalies(row, d);
    case Discarding(_) =>
      assert DiscardConflict in FileAnomalies(row, d) || InterruptedSegment in FileAnomalies(row, d);
    case Ready(_) =>
      assert !final.RegularFile? <==> MissingSegmentFile in FileAnomalies(row, d);
      assert !part.Missing? <==> UnexpectedSegmentFile in FileAnomalies(row, d);
    case Filtered(_) => assert !part.Missing? || !final.Missing? <==> UnexpectedSegmentFile in FileAnomalies(row, d);
    case Failed(_, _) => assert FailedSegment in FileAnomalies(row, d);
    case Excluded(_) =>
    case Deleting => assert InterruptedSegment in FileAnomalies(row, d);
    case Deleted => assert !part.Missing? || !final.Missing? <==> UnexpectedSegmentFile in FileAnomalies(row, d);
  }

  lemma QuietSegment(db: Db, d: Directory, key: SegmentKey)
    requires Inv(db) && key in db.segments
    ensures NothingAbout(db, d, AboutSegment(key)) <==> RowAtRest(db.segments[key], d)
  {
    hide FileAnomalies, RowAnomalies, RowAtRest;
    var row := db.segments[key];
    FitsIsValid(db, key);
    SomethingAbout(db, d, key);
    NoneOfEach(FileAnomalies(row, d), RowAnomalies(db, row));
    QuietFiles(row, d);
    DiscardIsTold(row, d);
    if !row.artifact.Discarding? {
      QuietUpload(db, row);
    }
  }

  lemma FitsIsValid(db: Db, key: SegmentKey)
    requires Inv(db) && key in db.segments
    ensures db.segments[key].sid in db.sessions
    ensures !db.segments[key].artifact.Discarding? ==>
              UploadStateValid(db.sessions[db.segments[key].sid], db.segments[key])
  {
    assert SegmentOk(db, key) && UploadFits(db.sessions[key.sid], db.segments[key]);
  }

  lemma DiscardIsTold(row: Segment, d: Directory)
    ensures row.artifact.Discarding? ==> FileAnomalies(row, d) != {}
  {
    assert row.artifact.Discarding? ==>
             DiscardConflict in FileAnomalies(row, d) || InterruptedSegment in FileAnomalies(row, d);
  }

  lemma QuietUpload(db: Db, row: Segment)
    requires row.sid in db.sessions && UploadStateValid(db.sessions[row.sid], row)
    ensures RowAnomalies(db, row) == {} <==>
              !row.upload.Attempting? && !row.upload.Ambiguous? && !row.upload.Blocked?
  {
    NoneOfEach({}, UploadProgress(row.upload));
    assert row.upload.Attempting? ==> InterruptedUpload in RowAnomalies(db, row);
    assert row.upload.Ambiguous? ==> AmbiguousUpload in RowAnomalies(db, row);
    assert row.upload.Blocked? ==> BlockedUpload in RowAnomalies(db, row);
  }

  lemma QuietSubmission(db: Db, d: Directory, sid: Uuid)
    requires Inv(db) && sid in db.submissions
    ensures NothingAbout(db, d, AboutSubmission(sid)) <==>
              var state := db.submissions[sid].state; !state.Attempting? && !state.Ambiguous? && !state.Blocked?
  {
    hide PartsReady;
    assert SubmissionOk(db, sid);
    var state := db.submissions[sid].state;
    assert Reported(db, d, Anomaly(InterruptedSubmission, AboutSubmission(sid))) <==> state.Attempting?;
    assert Reported(db, d, Anomaly(AmbiguousSubmission, AboutSubmission(sid))) <==> state.Ambiguous?;
    assert Reported(db, d, Anomaly(BlockedSubmission, AboutSubmission(sid))) <==> state.Blocked?;
  }

  lemma QuietTarget(db: Db, d: Directory, target: UploadTarget)
    requires target in db.gates
    ensures NothingAbout(db, d, AboutTarget(target)) <==> db.gates[target].Ready?
  {
    assert Reported(db, d, Anomaly(UploadTargetBackoff, AboutTarget(target))) <==> db.gates[target].Backoff?;
    assert Reported(db, d, Anomaly(UploadTargetBlocked, AboutTarget(target))) <==> db.gates[target].Blocked?;
  }

  /**
    A reachable database shows no anomaly at all exactly when every session is closed, every
    recording is there alone or accounted for, no remote operation is in doubt and every gate open.
   */
  lemma NothingReportedIff(db: Db, d: Directory)
    requires Reachable(db)
    ensures (forall a :: !Reported(db, d, a)) <==> AllAtRest(db, d)
  {
    hide Reported, RowAtRest;
    ReachableInv(db);
    forall sid | sid in db.sessions
      ensures NothingAbout(db, d, AboutSession(sid)) <==> db.sessions[sid].lifecycle.Closed?
    {
      QuietSession(db, d, sid);
    }
    forall k | k in db.segments ensures NothingAbout(db, d, AboutSegment(k)) <==> RowAtRest(db.segments[k], d) {
      QuietSegment(db, d, k);
    }
    forall sid | sid in db.submissions
      ensures NothingAbout(db, d, AboutSubmission(sid)) <==>
                var state := db.submissions[sid].state; !state.Attempting? && !state.Ambiguous? && !state.Blocked?
    {
      QuietSubmission(db, d, sid);
    }
    forall target | target in db.gates ensures NothingAbout(db, d, AboutTarget(target)) <==> db.gates[target].Ready? {
      QuietTarget(db, d, target);
    }
    if AllAtRest(db, d) {
      forall a ensures !Reported(db, d, a) {
        NoneUnlessAbout(db, d, a);
      }
    } else {
      EachIsQuiet(db, d);
    }
  }

  /** Whatever is reported is about a row there is; about rooms nothing is, as they agree with the sessions. */
  lemma NoneUnlessAbout(db: Db, d: Directory, a: Anomaly)
    requires Inv(db)
    ensures Reported(db, d, a) ==> !NothingAbout(db, d, a.subject)
    ensures match a.subject
            case AboutSession(sid) => sid !in db.sessions ==> !Reported(db, d, a)
            case AboutRoom(room) => !Reported(db, d, a)
            case AboutSegment(key) => key !in db.segments ==> !Reported(db, d, a)
            case AboutSubmission(sid) => sid !in db.submissions ==> !Reported(db, d, a)
            case AboutTarget(target) => target !in db.gates ==> !Reported(db, d, a)
  {
    hide SegmentAnomalies, SubmissionAnomalies, SessionAnomalies;
    assert a == Anomaly(a.kind, a.subject);
    if a.subject.AboutRoom? && a.subject.room in db.rooms {
      assert RoomOk(db, a.subject.room);
    }
  }

  lemma EachIsQuiet(db: Db, d: Directory)
    ensures (forall a :: !Reported(db, d, a)) ==> forall subject :: NothingAbout(db, d, subject)
  {
  }

  // ----- Diagnosis and recovery agree -----

  /** An intent whose file work cannot go on. */
  predicate Stuck(artifact: ArtifactState, kinds: set<AnomalyKind>) {
    match artifact
    case Finalizing(_) => FinalizationConflict in kinds
    case Discarding(_) => DiscardConflict in kinds
    case Deleting => DeletionConflict in kinds
    case _ => false
  }

  /** A conflict is reported exactly where startup recovery leaves the files alone. */
  lemma ConflictIff(row: Segment, d: Directory)
    requires row.artifact.Finalizing? || row.artifact.Discarding? || row.artifact.Deleting?
    ensures Stuck(row.artifact, FileAnomalies(row, d)) <==> RowQuiet(row, d)
  {
  }

  /**
    What is reported of an intent tells what startup recovery will make of it: an interruption is
    completed, a missing file fails the row, and a conflict waits.
   */
  lemma DiagnosisForetells(before: Segment, fs: Fs, after: Segment, fs': Fs)
    requires before.artifact.Finalizing? || before.artifact.Discarding? || before.artifact.Deleting?
    requires Recovered(before, fs, after, fs')
    ensures var kinds := FileAnomalies(before, fs.Visible());
            && (MissingSegmentFile in kinds <==> after.artifact.Failed?)
            && (FinalizationConflict in kinds || DiscardConflict in kinds || DeletionConflict in kinds <==>
                  after == before)
            && (InterruptedSegment in kinds && DeletionConflict !in kinds <==>
                  after.artifact.Ready? || after.artifact.Filtered? || after.artifact.Deleted?)
  {
  }

  /**
    In every state a crash can leave, no committed recording is reported missing, no dropped one
    is reported to be still there, and no deleted one has its final file.
   */
  lemma SettledFilesAreClean(c: Committer, key: SegmentKey, n: nat)
    requires c.Valid() && key in c.store.segments && n <= |c.disk.fs.pending|
    ensures var (row, kinds) := (c.Row(key), FileAnomalies(c.Row(key), c.disk.fs.View(n)));
            && (row.artifact.Ready? ==> MissingSegmentFile !in kinds)
            && (row.artifact.Filtered? ==> kinds == {})
            && (row.artifact.Deleted? && row.partPath !in c.disk.fs.View(n) ==> kinds == {})
  {
    SettledRowsAreDurable(c, key, n);
    assert Apart(c.store.Snapshot(), key, key);
  }
}
