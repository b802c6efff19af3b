/** The upload worker: one remote call at a time, each claimed before it is made and settled after it. */
module UploadWorker {
  import opened Wrappers
  import opened Sequences
  import opened Model
  import opened History
  import opened Database
  import opened Transitions
  import opened Invariants
  import opened Preservation
  import opened Runs
  import opened Gates
  import opened StateStore
  import opened UploadWork
  import opened WorkerRuns

  datatype KnownFailure = KnownFailure(scope: FailureScope, reason: Reason)

  /** What the remote side answers; anything may come back. */
  datatype RemoteOutcome<+P> =
    | ConfirmedOutcome(proof: P)
    | RetryableKnownFailure(failure: KnownFailure)
    | BlockedKnownFailure(failure: KnownFailure)
    | AmbiguousResult(reason: Reason)

  /** The circumstances of one turn: the clock, a new attempt id, the switches, the file and the answer. */
  datatype Turn<+P> = Turn(
    now: Timestamp,
    attemptId: Uuid,
    shutdown: bool,
    openSessionsReady: bool,
    fileOk: bool,
    outcome: RemoteOutcome<P>,
    retryAt: Timestamp)

  /** How many target-wide failures in a row the gate has seen before this attempt. */
  function FailuresBefore(gate: TargetGate): nat {
    if gate.Backoff? then gate.failures else 0
  }

  function ReportOf<P>(outcome: RemoteOutcome<P>, targetFailures: nat, retryAt: Timestamp): (report: RemoteReport<P>)
    ensures report.Counted()
  {
    match outcome
    case ConfirmedOutcome(proof) => ReportConfirmed(proof)
    case RetryableKnownFailure(failure) =>
      ReportRetry(failure.reason, retryAt, failure.scope, if targetFailures >= MAX_U32 then MAX_U32
          else targetFailures + 1)
    case BlockedKnownFailure(failure) => ReportBlocked(failure.reason, failure.scope)
    case AmbiguousResult(reason) => ReportAmbiguous(reason)
  }

  // ----- What the worker starts -----

  predicate GatePasses(db: Db, sid: Uuid, uploaders: set<UploadTarget>, now: Timestamp)
    requires HasTarget(db, sid)
  {
    TargetOf(db, sid) in uploaders && TargetOf(db, sid) in db.gates && db.gates[TargetOf(db, sid)].Admits(now)
  }

  predicate StartsUpload(db: Db, key: SegmentKey, uploaders: set<UploadTarget>, turn: Turn<UploadedPart>) {
    && AwaitsUpload(db, key)
    && (db.sessions[key.sid].lifecycle.Open? ==> turn.openSessionsReady)
    && db.segments[key].upload.Due(turn.now)
    && GatePasses(db, key.sid, uploaders, turn.now)
    && turn.fileOk && !turn.shutdown
  }

  ghost predicate StartsSubmission(db: Db, sid: Uuid, uploaders: set<UploadTarget>, turn: Turn<SubmissionProof>) {
    && Submittable(db, sid)
    && (sid in db.submissions ==> db.submissions[sid].state.Due(turn.now))
    && PartsReady(db, sid)
    && GatePasses(db, sid, uploaders, turn.now)
    && !turn.shutdown
  }

  /** No attempt anywhere carries this id. */
  ghost predicate Unused(db: Db, id: Uuid) {
    && (forall k | k in db.segments :: Position(db.segments[k].attempts, id) == |db.segments[k].attempts|)
    && (forall sid | sid in db.submissions ::
          Position(db.submissions[sid].attempts, id) == |db.submissions[sid].attempts|)
  }

  /**
    Under a new id the worker starts an upload exactly if the transition that claims it would accept
    the claim, there is an uploader for the target, the file is there, and nothing holds it back.
   */
  lemma StartsUploadIff(db: Db, key: SegmentKey, uploaders: set<UploadTarget>, turn: Turn<UploadedPart>)
    requires Unused(db, turn.attemptId)
    ensures StartsUpload(db, key, uploaders, turn) <==>
              && CanBeginUpload(db, key, RemoteAttempt(turn.attemptId, turn.now))
              && TargetOf(db, key.sid) in uploaders
              && (db.sessions[key.sid].lifecycle.Open? ==> turn.openSessionsReady)
              && turn.fileOk && !turn.shutdown
  {
  }

  lemma StartsSubmissionIff(db: Db, sid: Uuid, uploaders: set<UploadTarget>, turn: Turn<SubmissionProof>)
    requires Unused(db, turn.attemptId)
    ensures StartsSubmission(db, sid, uploaders, turn) <==>
              && CanBeginSubmission(db, sid, RemoteAttempt(turn.attemptId, turn.now))
              && TargetOf(db, sid) in uploaders && !turn.shutdown
  {
  }

  /**
    When nothing executable is left, the worker starts nothing at any later time, under any
    circumstances, and finds nothing to delete.
   */
  lemma IdleStartsNothing(db: Db, uploaders: set<UploadTarget>)
    requires !HasExecutableWork(db, uploaders)
    ensures forall key, turn :: !StartsUpload(db, key, uploaders, turn)
    ensures forall sid, turn :: !StartsSubmission(db, sid, uploaders, turn)
    ensures forall sid :: !AwaitsCleanup(db, sid)
  {
    forall key, turn ensures !StartsUpload(db, key, uploaders, turn) {
      if StartsUpload(db, key, uploaders, turn) {
        assert IsWork(db, Upload(key)) && Executable(db, Upload(key), uploaders);
      }
    }
    forall sid, turn ensures !StartsSubmission(db, sid, uploaders, turn) {
      if StartsSubmission(db, sid, uploaders, turn) {
        assert IsWork(db, Submit(sid)) && Executable(db, Submit(sid), uploaders);
      }
    }
    forall sid ensures !AwaitsCleanup(db, sid) {
      if AwaitsCleanup(db, sid) {
        assert IsWork(db, Cleanup(sid)) && Executable(db, Cleanup(sid), uploaders);
      }
    }
  }

  function Latest(a: Option<Timestamp>, b: Timestamp): Timestamp {
    if a.Some? && a.value > b then a.value else b
  }

  /** When every wait of the gate is over. */
  function GateOpensAt(gate: TargetGate): Timestamp {
    if gate.Backoff? then gate.retryAt else 0
  }

  /**
    What is executable can be started at some time, so that a worker that stops for want of
    executable work never leaves anything it could have done.
   */
  lemma ExecutableCanStart(db: Db, uploaders: set<UploadTarget>)
    requires Inv(db)
    ensures HasExecutableWork(db, uploaders) <==>
              || (exists key, turn :: StartsUpload(db, key, uploaders, turn))
              || (exists sid, turn :: StartsSubmission(db, sid, uploaders, turn))
              || (exists sid :: AwaitsCleanup(db, sid))
  {
    if HasExecutableWork(db, uploaders) {
      var work :| IsWork(db, work) && Executable(db, work, uploaders);
      match work
      case Cleanup(sid) => assert AwaitsCleanup(db, sid);
      case Upload(key) => UploadCanStart(db, key, uploaders);
      case Submit(sid) => SubmissionCanStart(db, sid, uploaders);
    } else {
      IdleStartsNothing(db, uploaders);
    }
  }

  lemma UploadCanStart(db: Db, key: SegmentKey, uploaders: set<UploadTarget>)
    requires IsWork(db, Upload(key)) && Executable(db, Upload(key), uploaders)
    ensures exists turn :: StartsUpload(db, key, uploaders, turn)
  {
    var at := Latest(db.segments[key].upload.retryAt, GateOpensAt(db.gates[TargetOf(db, key.sid)]));
    var turn := Turn(at, 0, false, true, true, AmbiguousResult(INTERRUPTED_UPLOAD), 0);
    assert StartsUpload(db, key, uploaders, turn);
  }

  lemma SubmissionCanStart(db: Db, sid: Uuid, uploaders: set<UploadTarget>)
    requires Inv(db) && IsWork(db, Submit(sid)) && Executable(db, Submit(sid), uploaders)
    ensures exists turn :: StartsSubmission(db, sid, uploaders, turn)
  {
    assert sid in db.submissions ==> SubmissionOk(db, sid);
    var due := if sid in db.submissions && db.submissions[sid].state.RetryScheduledAt?
        then Some(db.submissions[sid].state.retryAt) else None;
    var at := Latest(due, GateOpensAt(db.gates[TargetOf(db, sid)]));
    var turn := Turn(at, 0, false, true, true, AmbiguousResult(INTERRUPTED_SUBMISSION), 0);
    assert StartsSubmission(db, sid, uploaders, turn);
  }

  // ----- What an answer leaves -----

  /** The attempts with one more, this one, which ended so or is still open. */
  ghost predicate Recorded<P>(before: Attempts<P>, after: Attempts<P>, attempt: RemoteAttempt,
      finishedAt: Option<Timestamp>, outcome: Option<AttemptOutcome<P>>)
  {
    after == before + [AttemptRecord(attempt, finishedAt, outcome)]
  }

  /** The gate after a target-wide failure that may be retried: closed until then, one failure more. */
  ghost predicate BacksOff(before: TargetGate, after: TargetGate, owner: RemoteOperation, retryAt: Timestamp,
      reason: Reason)
  {
    && after.Backoff? && after.owner == owner && after.retryAt == retryAt && after.lastError == reason
    && after.failures == if before.Backoff? then (if before.failures >= 0xFFFF_FFFF then 0xFFFF_FFFF
                                                  else before.failures + 1) else 1
  }

  /** What the answer makes of the gate of its target. */
  ghost predicate GateAnswers<P>(before: TargetGate, after: TargetGate, turn: Turn<P>, owner: RemoteOperation) {
    match turn.outcome
    case RetryableKnownFailure(failure) =>
      if failure.scope.Target? then BacksOff(before, after, owner, turn.retryAt, failure.reason) else after.Ready?
    case BlockedKnownFailure(failure) =>
      if failure.scope.Target? then after == TargetGate.Blocked(owner, turn.now, failure.reason) else after.Ready?
    case _ => after.Ready?
  }

  /**
    What a started upload comes to, by its answer: a valid confirmation leaves its proof, a
    retryable failure a wait, a blocking one a block, and an ambiguous answer an ambiguous upload
    that nothing retries. A confirmation that cannot be used leaves the attempt open.
   */
  ghost predicate UploadAnswered(db: Db, key: SegmentKey, turn: Turn<UploadedPart>, db': Db)
    requires key in db.segments && HasTarget(db, key.sid) && TargetOf(db, key.sid) in db.gates
  {
    var (before, target, attempt) := (db.segments[key], TargetOf(db, key.sid), RemoteAttempt(turn.attemptId, turn.now));
    && key in db'.segments && target in db'.gates
    && var (after, gate) := (db'.segments[key], db'.gates[target]);
    && db' == db.(segments := db.segments[key := after], gates := db.gates[target := gate])
    && after == before.(upload := after.upload, attempts := after.attempts)
    && GateAnswers(db.gates[target], gate, turn, UploadOp(key.sid, key.index, attempt.id))
    && match turn.outcome
       case ConfirmedOutcome(proof) =>
         if proof.Valid() then
           && after.upload == Uploaded(proof)
           && Recorded(before.attempts, after.attempts, attempt, Some(turn.now), Some(Confirmed(proof)))
         else
           && after.upload == UploadState.Attempting(attempt)
           && Recorded(before.attempts, after.attempts, attempt, None, None)
       case RetryableKnownFailure(failure) =>
         && after.upload.Pending? && after.upload.retryAt == Some(turn.retryAt)
         && after.upload.lastError == Some(failure.reason)
         && Recorded(before.attempts, after.attempts, attempt, Some(turn.now), Some(RetryScheduled(failure.reason)))
       case BlockedKnownFailure(failure) =>
         && after.upload == UploadState.Blocked(Some(attempt.id), failure.reason)
         && Recorded(before.attempts, after.attempts, attempt, Some(turn.now), Some(BlockedOutcome(failure.reason)))
       case AmbiguousResult(reason) =>
         && after.upload == UploadState.Ambiguous(attempt, reason)
         && Recorded(before.attempts, after.attempts, attempt, Some(turn.now), Some(AmbiguousOutcome(reason)))
  }

  /** What becomes of the row of a submission, by the answer. */
  ghost predicate StateAnswers(attempts: Attempts<SubmissionProof>, after: Submission, turn: Turn<SubmissionProof>) {
    var attempt := RemoteAttempt(turn.attemptId, turn.now);
    match turn.outcome
    case ConfirmedOutcome(proof) =>
      if proof.Valid() then
        && after.state == Submitted(proof)
        && Recorded(attempts, after.attempts, attempt, Some(turn.now), Some(Confirmed(proof)))
      else
        && after.state == SubmissionState.Attempting(attempt)
        && Recorded(attempts, after.attempts, attempt, None, None)
    case RetryableKnownFailure(failure) =>
      && after.state.RetryScheduledAt? && after.state.retryAt == turn.retryAt
      && after.state.lastError == failure.reason
      && Recorded(attempts, after.attempts, attempt, Some(turn.now), Some(RetryScheduled(failure.reason)))
    case BlockedKnownFailure(failure) =>
      && after.state == SubmissionState.Blocked(Some(attempt.id), failure.reason)
      && Recorded(attempts, after.attempts, attempt, Some(turn.now), Some(BlockedOutcome(failure.reason)))
    case AmbiguousResult(reason) =>
      && after.state == SubmissionState.Ambiguous(attempt, reason)
      && Recorded(attempts, after.attempts, attempt, Some(turn.now), Some(AmbiguousOutcome(reason)))
  }

  /** The same for a submission, whose row is made with its first attempt. */
  ghost predicate SubmissionAnswered(db: Db, sid: Uuid, turn: Turn<SubmissionProof>, db': Db)
    requires HasTarget(db, sid) && TargetOf(db, sid) in db.gates
  {
    var (target, attempt) := (TargetOf(db, sid), RemoteAttempt(turn.attemptId, turn.now));
    var (attempts, resolutions) :=
      if sid in db.submissions then (db.submissions[sid].attempts, db.submissions[sid].resolutions) else ([], []);
    && sid in db'.submissions && target in db'.gates
    && var (after, gate) := (db'.submissions[sid], db'.gates[target]);
    && db' == db.(submissions := db.submissions[sid := after], gates := db.gates[target := gate])
    && after.resolutions == resolutions && (sid !in db.submissions ==> after.sid == sid)
    && (sid in db.submissions ==> after.sid == db.submissions[sid].sid)
    && GateAnswers(db.gates[target], gate, turn, SubmissionOp(sid, attempt.id))
    && StateAnswers(attempts, after, turn)
  }

  /** The last of these attempts is the one just claimed. */
  lemma LastAnswered<P>(h: Attempts<P>, attempt: RemoteAttempt, at: Timestamp, outcome: AttemptOutcome<P>)
    requires Position(h, attempt.id) == |h|
    ensures Position(h + [Started(attempt)], attempt.id) == |h|
    ensures FinishAttempt(h + [Started(attempt)], attempt.id, at, outcome) ==
              h + [AttemptRecord(attempt, Some(at), Some(outcome))]
  {
    PositionOfNew(h, attempt);
  }

  // ----- Between turns -----

  lemma UploadClaimed(db: Db, key: SegmentKey, attempt: RemoteAttempt, report: RemoteReport<UploadedPart>)
    requires Inv(db) && CanBeginUpload(db, key, attempt) && report.Counted()
    requires report.ReportConfirmed? ==> report.proof.Valid()
    ensures Inv(UploadBegun(db, key, attempt))
    ensures CanReportUpload(UploadBegun(db, key, attempt), key, attempt.id, report)
  {
    BeginUploadKeeps(db, key, attempt);
    assert SegmentOk(db, key) && SegmentOk(UploadBegun(db, key, attempt), key);
    PositionOfNew(db.segments[key].attempts, attempt);
  }

  lemma {:induction false} PositionOfNew<P>(h: Attempts<P>, attempt: RemoteAttempt)
    requires Position(h, attempt.id) == |h|
    ensures Position(h + [Started(attempt)], attempt.id) == |h|
    ensures OpenRecord(h + [Started(attempt)], attempt.id)
    decreases |h|
  {
    if h != [] {
      Peel(h, [Started(attempt)]);
      PositionOfNew(h[1..], attempt);
    }
  }

  function UploadReport(db: Db, key: SegmentKey, turn: Turn<UploadedPart>): RemoteReport<UploadedPart>
    requires HasTarget(db, key.sid) && TargetOf(db, key.sid) in db.gates
  {
    ReportOf(turn.outcome, FailuresBefore(db.gates[TargetOf(db, key.sid)]), turn.retryAt)
  }

  function SubmissionReport(db: Db, sid: Uuid, turn: Turn<SubmissionProof>): RemoteReport<SubmissionProof>
    requires HasTarget(db, sid) && TargetOf(db, sid) in db.gates
  {
    ReportOf(turn.outcome, FailuresBefore(db.gates[TargetOf(db, sid)]), turn.retryAt)
  }

  /** An answer that cannot be recorded leaves the claim. */
  lemma UploadLeftOpen(db: Db, key: SegmentKey, turn: Turn<UploadedPart>)
    requires CanBeginUpload(db, key, RemoteAttempt(turn.attemptId, turn.now)) && db.segments[key].Key() == key
    requires turn.outcome.ConfirmedOutcome? && !turn.outcome.proof.Valid()
    ensures UploadAnswered(db, key, turn, UploadBegun(db, key, RemoteAttempt(turn.attemptId, turn.now)))
  {
  }

  /** The claim has left the gate open; the report closes it exactly for a target-wide failure. */
  lemma GateOfReport<P>(db: Db, before: TargetGate, target: UploadTarget, turn: Turn<P>, owner: RemoteOperation)
    requires target in db.gates && db.gates[target].Ready?
    ensures var report := ReportOf(turn.outcome, FailuresBefore(before), turn.retryAt);
            var db' := if report.ReportConfirmed? then db else ReportGate(db, target, report, owner, turn.now);
            && target in db'.gates && db' == db.(gates := db.gates[target := db'.gates[target]])
            && GateAnswers(before, db'.gates[target], turn, owner)
  {
    assert db.gates == db.gates[target := db.gates[target]];
  }

  /** The report the worker makes of an answer says just what the answer was. */
  lemma UploadReportIsAnswer(db: Db, key: SegmentKey, turn: Turn<UploadedPart>)
    requires CanBeginUpload(db, key, RemoteAttempt(turn.attemptId, turn.now)) && db.segments[key].Key() == key
    requires CanReportUpload(UploadBegun(db, key, RemoteAttempt(turn.attemptId, turn.now)), key, turn.attemptId,
                             UploadReport(db, key, turn))
    requires turn.outcome.ConfirmedOutcome? ==> turn.outcome.proof.Valid()
    ensures UploadAnswered(db, key, turn,
              UploadReported(UploadBegun(db, key, RemoteAttempt(turn.attemptId, turn.now)), key, turn.attemptId,
                             UploadReport(db, key, turn), turn.now))
  {
    hide HistoryOk, Position, GateAnswers, ReportGate;
    var attempt, report := RemoteAttempt(turn.attemptId, turn.now), UploadReport(db, key, turn);
    LastAnswered(db.segments[key].attempts, attempt, turn.now, report.Outcome());
    var claimed := UploadBegun(db, key, attempt);
    GateOfReport(claimed.PutSegment(UploadReportedRow(claimed.segments[key], report, turn.now)),
        db.gates[TargetOf(db, key.sid)], TargetOf(db, key.sid), turn, UploadOp(key.sid, key.index, attempt.id));
  }

  lemma KeyedRow(db: Db, key: SegmentKey)
    requires Inv(db) && key in db.segments
    ensures db.segments[key].Key() == key
  {
    assert SegmentOk(db, key);
  }

  lemma SubmissionLeftOpen(db: Db, sid: Uuid, turn: Turn<SubmissionProof>)
    requires CanBeginSubmission(db, sid, RemoteAttempt(turn.attemptId, turn.now))
    requires sid in db.submissions ==> db.submissions[sid].sid == sid
    requires turn.outcome.ConfirmedOutcome? && !turn.outcome.proof.Valid()
    ensures SubmissionAnswered(db, sid, turn, SubmissionBegun(db, sid, RemoteAttempt(turn.attemptId, turn.now)))
  {
    hide PartsReady;
  }

  lemma SubmissionReportIsAnswer(db: Db, sid: Uuid, turn: Turn<SubmissionProof>)
    requires CanBeginSubmission(db, sid, RemoteAttempt(turn.attemptId, turn.now))
    requires sid in db.submissions ==> db.submissions[sid].sid == sid
    requires CanReportSubmission(SubmissionBegun(db, sid, RemoteAttempt(turn.attemptId, turn.now)), sid, turn.attemptId,
                                 SubmissionReport(db, sid, turn))
    requires turn.outcome.ConfirmedOutcome? ==> turn.outcome.proof.Valid()
    ensures SubmissionAnswered(db, sid, turn,
              SubmissionReported(SubmissionBegun(db, sid, RemoteAttempt(turn.attemptId, turn.now)), sid, turn.attemptId,
                                 SubmissionReport(db, sid, turn), turn.now))
  {
    hide StateAnswers, SubmissionReportedRow, Position, PartsReady, GateAnswers, ReportGate, ReportOf;
    var attempt, report := RemoteAttempt(turn.attemptId, turn.now), SubmissionReport(db, sid, turn);
    StateOfReport(SubmissionRow(db, sid, attempt), turn, report);
    var claimed := SubmissionBegun(db, sid, attempt);
    var row := SubmissionReportedRow(claimed.submissions[sid], report, turn.now);
    GateOfReport(claimed.PutSubmission(row), db.gates[TargetOf(db, sid)], TargetOf(db, sid), turn,
        SubmissionOp(sid, attempt.id));
  }

  lemma StateOfReport(row: Submission, turn: Turn<SubmissionProof>, report: RemoteReport<SubmissionProof>)
    requires exists failures :: report == ReportOf(turn.outcome, failures, turn.retryAt)
    requires turn.outcome.ConfirmedOutcome? ==> turn.outcome.proof.Valid()
    requires Position(row.attempts, turn.attemptId) == |row.attempts|
    ensures var started := SubmissionStartedRow(row, RemoteAttempt(turn.attemptId, turn.now));
            && OpenRecord(started.attempts, turn.attemptId)
            && var after := SubmissionReportedRow(started, report, turn.now);
            StateAnswers(row.attempts, after, turn) && after.sid == row.sid && after.resolutions == row.resolutions
  {
    var attempt := RemoteAttempt(turn.attemptId, turn.now);
    PositionOfNew(row.attempts, attempt);
    LastAnswered(row.attempts, attempt, turn.now, report.Outcome());
  }

  lemma KeyedSubmission(db: Db, sid: Uuid)
    requires Inv(db)
    ensures sid in db.submissions ==> db.submissions[sid].sid == sid
  {
    assert sid in db.submissions ==> SubmissionOk(db, sid);
  }

  /** Whether it is recorded or not, the answer is what it was. */
  lemma UploadTurnAnswered(db: Db, key: SegmentKey, turn: Turn<UploadedPart>)
    requires Inv(db) && CanBeginUpload(db, key, RemoteAttempt(turn.attemptId, turn.now))
    ensures var claimed := UploadBegun(db, key, RemoteAttempt(turn.attemptId, turn.now));
            if turn.outcome.ConfirmedOutcome? && !turn.outcome.proof.Valid() then UploadAnswered(db, key, turn, claimed)
            else
              && CanReportUpload(claimed, key, turn.attemptId, UploadReport(db, key, turn))
              && UploadAnswered(db, key, turn,
                   UploadReported(claimed, key, turn.attemptId, UploadReport(db, key, turn), turn.now))
  {
    hide UploadAnswered, UploadReported, UploadBegun, CanReportUpload, Inv;
    KeyedRow(db, key);
    if turn.outcome.ConfirmedOutcome? && !turn.outcome.proof.Valid() {
      UploadLeftOpen(db, key, turn);
    } else {
      UploadClaimed(db, key, RemoteAttempt(turn.attemptId, turn.now), UploadReport(db, key, turn));
      UploadReportIsAnswer(db, key, turn);
    }
  }

  lemma SubmissionTurnAnswered(db: Db, sid: Uuid, turn: Turn<SubmissionProof>)
    requires Inv(db) && CanBeginSubmission(db, sid, RemoteAttempt(turn.attemptId, turn.now))
    ensures var claimed := SubmissionBegun(db, sid, RemoteAttempt(turn.attemptId, turn.now));
            if turn.outcome.ConfirmedOutcome? && !turn.outcome.proof.Valid() then
              SubmissionAnswered(db, sid, turn, claimed)
            else
              && CanReportSubmission(claimed, sid, turn.attemptId, SubmissionReport(db, sid, turn))
              && SubmissionAnswered(db, sid, turn,
                   SubmissionReported(claimed, sid, turn.attemptId, SubmissionReport(db, sid, turn), turn.now))
  {
    hide SubmissionAnswered, SubmissionReported, SubmissionBegun, CanReportSubmission, Inv, PartsReady;
    KeyedSubmission(db, sid);
    if turn.outcome.ConfirmedOutcome? && !turn.outcome.proof.Valid() {
      SubmissionLeftOpen(db, sid, turn);
    } else {
      SubmissionClaimed(db, sid, RemoteAttempt(turn.attemptId, turn.now), SubmissionReport(db, sid, turn));
      SubmissionReportIsAnswer(db, sid, turn);
    }
  }

  lemma UploadNeedsProof(db: Db, key: SegmentKey, id: Uuid, report: RemoteReport<UploadedPart>)
    ensures CanReportUpload(db, key, id, report) && report.ReportConfirmed? ==> report.proof.Valid()
  {
  }

  lemma SubmissionNeedsProof(db: Db, sid: Uuid, id: Uuid, report: RemoteReport<SubmissionProof>)
    ensures CanReportSubmission(db, sid, id, report) && report.ReportConfirmed? ==> report.proof.Valid()
  {
  }

  lemma UploadLanded(db: Db, key: SegmentKey, attempt: RemoteAttempt, report: RemoteReport<UploadedPart>,
      now: Timestamp)
    requires Inv(db) && Landed(db) && CanBeginUpload(db, key, attempt)
    requires CanReportUpload(UploadBegun(db, key, attempt), key, attempt.id, report)
    ensures Landed(UploadReported(UploadBegun(db, key, attempt), key, attempt.id, report, now))
  {
    assert SegmentOk(db, key);
  }

  lemma SubmissionClaimed(db: Db, sid: Uuid, attempt: RemoteAttempt, report: RemoteReport<SubmissionProof>)
    requires Inv(db) && CanBeginSubmission(db, sid, attempt) && report.Counted()
    requires report.ReportConfirmed? ==> report.proof.Valid()
    ensures Inv(SubmissionBegun(db, sid, attempt))
    ensures CanReportSubmission(SubmissionBegun(db, sid, attempt), sid, attempt.id, report)
  {
    BeginSubmissionKeeps(db, sid, attempt);
    assert sid in db.submissions ==> SubmissionOk(db, sid);
    PositionOfNew(SubmissionRow(db, sid, attempt).attempts, attempt);
  }

  lemma SubmissionLanded(db: Db, sid: Uuid, attempt: RemoteAttempt, report: RemoteReport<SubmissionProof>,
      now: Timestamp)
    requires Inv(db) && Landed(db) && CanBeginSubmission(db, sid, attempt)
    requires CanReportSubmission(SubmissionBegun(db, sid, attempt), sid, attempt.id, report)
    ensures Landed(SubmissionReported(SubmissionBegun(db, sid, attempt), sid, attempt.id, report, now))
  {
    hide PartsReady, HistoryOk, SegmentOk;
    assert sid in db.submissions ==> SubmissionOk(db, sid);
  }

  /** The rows a submitted session can still hold are those that cleanup knows how to treat. */
  predicate CleanupKnows(row: Segment) {
    || Deletable(row)
    || row.artifact.Filtered? || row.artifact.Excluded? || row.artifact.Deleting? || row.artifact.Deleted?
  }

  lemma CleanupNeverRefuses(db: Db, sid: Uuid, key: SegmentKey)
    requires Reachable(db) && sid in db.submissions && key in db.segments && key.sid == sid
    ensures CleanupKnows(db.segments[key])
  {
    ReachableInv(db);
    CleanupKnowsAll(db, sid, key);
  }

  lemma CleanupKnowsAll(db: Db, sid: Uuid, key: SegmentKey)
    requires Inv(db) && sid in db.submissions && key in db.segments && key.sid == sid
    ensures CleanupKnows(db.segments[key])
  {
    assert SubmissionOk(db, sid) && SegmentOk(db, key);
    assert RowSubmittable(db.segments[key]);
  }

  /** Which files could be removed, and before which deletion a stop had been asked for. */
  datatype Cleaning = Cleaning(removed: SegmentKey -> bool, stop: SegmentKey -> bool)

  /** A stop is asked for before one of the session's deletions. */
  ghost predicate StopsAmong(db: Db, sid: Uuid, circumstances: Cleaning) {
    exists k :: k in db.segments && k.sid == sid && Deletable(db.segments[k]) && circumstances.stop(k)
  }

  /** What cleanup makes of a session's rows below an index: announced, and confirmed where the file is gone. */
  ghost function CleanedBelow(db: Db, sid: Uuid, removed: SegmentKey -> bool, n: nat): Db {
    db.(segments := map k | k in db.segments ::
          if k.sid == sid && k.index < n && Deletable(db.segments[k])
          then db.segments[k].(artifact := if removed(k) then Deleted else Deleting) else db.segments[k])
  }

  /** Cleanup got this far: to the first deletion before which a stop was asked for, or to the end. */
  ghost predicate CleanedUpTo(db: Db, sid: Uuid, circumstances: Cleaning, n: nat, db': Db) {
    && db' == CleanedBelow(db, sid, circumstances.removed, n)
    && (forall k | k in db.segments && k.sid == sid && Deletable(db.segments[k]) && k.index < n ::
          !circumstances.stop(k))
    && (|| (forall k | k in db.segments && k.sid == sid && Deletable(db.segments[k]) :: k.index < n)
        || (&& SegmentKey(sid, n) in db.segments && Deletable(db.segments[SegmentKey(sid, n)])
            && circumstances.stop(SegmentKey(sid, n))))
  }

  ghost predicate CleanedAsAsked(db: Db, sid: Uuid, circumstances: Cleaning, db': Db) {
    exists n :: CleanedUpTo(db, sid, circumstances, n, db')
  }

  lemma CleanedNone(db: Db, sid: Uuid, removed: SegmentKey -> bool)
    ensures CleanedBelow(db, sid, removed, 0) == db
  {
    assert CleanedBelow(db, sid, removed, 0).segments == db.segments;
  }

  /** Indices that no row has make no difference. */
  lemma CleanedSkip(db: Db, sid: Uuid, removed: SegmentKey -> bool, n: nat, m: nat)
    requires n <= m && forall k | k in db.segments && k.sid == sid :: k.index < n || k.index >= m
    ensures CleanedBelow(db, sid, removed, n) == CleanedBelow(db, sid, removed, m)
  {
    assert CleanedBelow(db, sid, removed, n).segments == CleanedBelow(db, sid, removed, m).segments;
  }

  function AfterRow(row: Segment, removed: SegmentKey -> bool): Segment {
    if Deletable(row) then row.(artifact := if removed(row.Key()) then Deleted else Deleting) else row
  }

  lemma CleanedRow(db: Db, sid: Uuid, removed: SegmentKey -> bool, n: nat)
    requires db.Keyed() && SegmentKey(sid, n) in db.segments
    ensures CleanedBelow(db, sid, removed, n).PutSegment(AfterRow(db.segments[SegmentKey(sid, n)], removed)) ==
              CleanedBelow(db, sid, removed, n + 1)
  {
    var db' := CleanedBelow(db, sid, removed, n).PutSegment(AfterRow(db.segments[SegmentKey(sid, n)], removed));
    assert db'.segments == CleanedBelow(db, sid, removed, n + 1).segments;
  }

  /** The parts that go into a submission: the proof of each uploaded segment, once, in recording order. */
  ghost predicate SentFrom(db: Db, sid: Uuid, sent: seq<UploadedPart>, indices: seq<nat>) {
    && |indices| == |sent|
    && (forall i, j | 0 <= i < j < |indices| :: indices[i] < indices[j])
    && (forall i | 0 <= i < |sent| ::
          && SegmentKey(sid, indices[i]) in db.segments
          && db.segments[SegmentKey(sid, indices[i])].upload == Uploaded(sent[i]))
    && (forall k | k in db.segments && k.sid == sid && db.segments[k].upload.Uploaded? :: k.index in indices)
  }

  ghost predicate SendsAll(db: Db, sid: Uuid, sent: seq<UploadedPart>) {
    exists indices :: SentFrom(db, sid, sent, indices)
  }

  function Proofs(parts: seq<Part>): (proofs: seq<UploadedPart>)
    ensures |proofs| == |parts|
  {
    seq(|parts|, i requires 0 <= i < |parts| => parts[i].proof)
  }

  lemma PartsAreAll(db: Db, sid: Uuid, rows: seq<Segment>, report: Reconciliation)
    requires Inv(db) && Lists(db, sid, rows) && Reports(report, rows) && InOrder(report.parts)
    requires PartsReady(db, sid)
    ensures SendsAll(db, sid, Proofs(report.parts))
  {
    var parts := report.parts;
    var indices := seq(|parts|, i requires 0 <= i < |parts| => parts[i].index);
    forall i | 0 <= i < |parts|
      ensures SegmentKey(sid, indices[i]) in db.segments
              && db.segments[SegmentKey(sid, indices[i])].upload == Uploaded(parts[i].proof)
    {
      assert parts[i] in report.parts;
      var j :| 0 <= j < |rows| && IsPart(rows[j], parts[i]);
      assert rows[j].Key() == SegmentKey(sid, indices[i]);
    }
    forall k | k in db.segments && k.sid == sid && db.segments[k].upload.Uploaded? ensures k.index in indices {
      assert SegmentOk(db, k) && RowSubmittable(db.segments[k]);
      var j :| 0 <= j < |rows| && rows[j] == db.segments[k];
      var p := Part(rows[j].index, rows[j].upload.proof);
      assert IsPart(rows[j], p);
      assert p in report.parts;
      var i :| 0 <= i < |parts| && parts[i] == p;
      assert indices[i] == k.index;
    }
    assert SentFrom(db, sid, Proofs(parts), indices);
  }

  // ----- A pass, turn by turn -----

  /** One segment's turn: claimed and answered if it may start, otherwise left alone. */
  ghost predicate UploadTurn(db: Db, key: SegmentKey, uploaders: set<UploadTarget>, turn: Turn<UploadedPart>, db': Db) {
    if StartsUpload(db, key, uploaders, turn) then UploadAnswered(db, key, turn, db') else db' == db
  }

  ghost predicate SubmissionTurn(db: Db, sid: Uuid, uploaders: set<UploadTarget>, turn: Turn<SubmissionProof>,
      db': Db)
  {
    if StartsSubmission(db, sid, uploaders, turn) then SubmissionAnswered(db, sid, turn, db') else db' == db
  }

  /** A submitted session is cleaned up if its plan asks for it and no stop does not. */
  ghost predicate CleaningTurn(db: Db, sid: Uuid, turn: Turn<SubmissionProof>, circumstances: Cleaning, db': Db) {
    if !turn.shutdown && CleanupLicensed(db, sid) then CleanedAsAsked(db, sid, circumstances, db') else db' == db
  }

  ghost predicate SessionTurn(db: Db, sid: Uuid, uploaders: set<UploadTarget>, turn: Turn<SubmissionProof>,
      circumstances: Cleaning, db': Db)
  {
    exists mid :: SubmissionTurn(db, sid, uploaders, turn, mid) && CleaningTurn(mid, sid, turn, circumstances, db')
  }

  /** Every listed segment had its turn, one after the other, each under a new attempt id. */
  ghost predicate UploadTurns(db: Db, order: seq<SegmentKey>, turns: SegmentKey -> Turn<UploadedPart>,
      uploaders: set<UploadTarget>, db': Db)
  {
    if order == [] then db' == db
    else
      var key := order[|order| - 1];
      exists mid, id {:trigger UploadTurn(mid, key, uploaders, turns(key).(attemptId := id), db')} ::
        && UploadTurns(db, order[..|order| - 1], turns, uploaders, mid)
        && Unused(mid, id) && UploadTurn(mid, key, uploaders, turns(key).(attemptId := id), db')
  }

  lemma NextUploadTurn(db: Db, order: seq<SegmentKey>, i: nat, turns: SegmentKey -> Turn<UploadedPart>,
      uploaders: set<UploadTarget>, mid: Db, id: Uuid, db': Db)
    requires i < |order| && UploadTurns(db, order[..i], turns, uploaders, mid) && Unused(mid, id)
    requires UploadTurn(mid, order[i], uploaders, turns(order[i]).(attemptId := id), db')
    ensures UploadTurns(db, order[..i + 1], turns, uploaders, db')
  {
    hide UploadTurn, Unused;
    var upTo := order[..i + 1];
    assert upTo[..|upTo| - 1] == order[..i] && upTo[|upTo| - 1] == order[i];
  }

  lemma NextSessionTurn(db: Db, order: seq<Uuid>, i: nat, turns: Uuid -> Turn<SubmissionProof>,
      uploaders: set<UploadTarget>, circumstances: Cleaning, mid: Db, id: Uuid, db': Db)
    requires i < |order| && SessionTurns(db, order[..i], turns, uploaders, circumstances, mid) && Unused(mid, id)
    requires SessionTurn(mid, order[i], uploaders, turns(order[i]).(attemptId := id), circumstances, db')
    ensures SessionTurns(db, order[..i + 1], turns, uploaders, circumstances, db')
  {
    hide SessionTurn, Unused;
    var upTo := order[..i + 1];
    assert upTo[..|upTo| - 1] == order[..i] && upTo[|upTo| - 1] == order[i];
  }

  ghost predicate SessionTurns(db: Db, order: seq<Uuid>, turns: Uuid -> Turn<SubmissionProof>,
      uploaders: set<UploadTarget>, circumstances: Cleaning, db': Db)
  {
    if order == [] then db' == db
    else
      var sid := order[|order| - 1];
      exists mid, id {:trigger SessionTurn(mid, sid, uploaders, turns(sid).(attemptId := id), circumstances, db')} ::
        && SessionTurns(db, order[..|order| - 1], turns, uploaders, circumstances, mid)
        && Unused(mid, id) && SessionTurn(mid, sid, uploaders, turns(sid).(attemptId := id), circumstances, db')
  }

  /** A pass: these segments' turns, then these sessions'. */
  ghost predicate PassOver(db: Db, segments: seq<SegmentKey>, uploads: SegmentKey -> Turn<UploadedPart>,
      sessions: seq<Uuid>, submissions: Uuid -> Turn<SubmissionProof>, uploaders: set<UploadTarget>,
      circumstances: Cleaning, db': Db)
  {
    exists mid ::
      && UploadTurns(db, segments, uploads, uploaders, mid)
      && SessionTurns(mid, sessions, submissions, uploaders, circumstances, db')
  }

  // ----- The worker -----

  class Worker {
    const store: Store
    const uploaders: set<UploadTarget>

    /** The store keeps its invariant and nothing is in flight. */
    ghost predicate Settled()
      reads this, store
    {
      store.Valid() && Inv(store.Snapshot()) && Landed(store.Snapshot())
    }

    constructor (store: Store, uploaders: set<UploadTarget>)
      requires store.Valid() && Inv(store.Snapshot()) && Landed(store.Snapshot())
      ensures Settled() && this.store == store && this.uploaders == uploaders
    {
      this.store, this.uploaders := store, uploaders;
    }

    /**
      One segment's turn. Whatever is started is claimed and its answer recorded for what it is,
      unless it is a confirmation without a usable proof; nothing else touches the store.
     */
    method TryUpload(key: SegmentKey, turn: Turn<UploadedPart>) returns (r: Outcome, ghost acts: seq<Act>)
      requires Settled() && Unused(store.Snapshot(), turn.attemptId)
      modifies store
      ensures store.Valid() && Inv(store.Snapshot())
      ensures var db := old(store.Snapshot());
              if StartsUpload(db, key, uploaders, turn) then
                && UploadAnswered(db, key, turn, store.Snapshot())
                && (r.Pass? <==> (turn.outcome.ConfirmedOutcome? ==> turn.outcome.proof.Valid()))
              else r.Pass? && store.Snapshot() == db
      ensures r.Pass? ==> Settled()
      ensures Does(old(store.Snapshot()), acts, store.Snapshot(), r.Fail?)
    {
      var db := store.Snapshot();
      if !StartsUpload(db, key, uploaders, turn) {
        DoesNothing(db);
        return Pass, [];
      }
      StartsUploadIff(db, key, uploaders, turn);
      UploadTurnAnswered(db, key, turn);
      var attempt := RemoteAttempt(turn.attemptId, turn.now);
      var report := ReportOf(turn.outcome, FailuresBefore(db.gates[TargetOf(db, key.sid)]), turn.retryAt);
      r, acts := ClaimAndReportUpload(key, attempt, report, turn.now);
    }

    method ClaimAndReportUpload(key: SegmentKey, attempt: RemoteAttempt, report: RemoteReport<UploadedPart>,
        now: Timestamp) returns (r: Outcome, ghost acts: seq<Act>)
      requires Settled() && CanBeginUpload(store.Snapshot(), key, attempt) && report.Counted()
      modifies store
      ensures store.Valid() && Inv(store.Snapshot())
      ensures r.Pass? <==> CanReportUpload(UploadBegun(old(store.Snapshot()), key, attempt), key, attempt.id, report)
      ensures r.Pass? <==> (report.ReportConfirmed? ==> report.proof.Valid())
      ensures store.Snapshot() == var claimed := UploadBegun(old(store.Snapshot()), key, attempt);
                                  if r.Pass? then UploadReported(claimed, key, attempt.id, report, now) else claimed
      ensures r.Pass? ==> Settled()
      ensures Does(old(store.Snapshot()), acts, store.Snapshot(), r.Fail?)
    {
      hide Inv, Landed, CanBeginUpload, CanReportUpload, UploadBegun, UploadReported, Does;
      ghost var db := store.Snapshot();
      BeginUploadKeeps(db, key, attempt);
      UploadNeedsProof(UploadBegun(db, key, attempt), key, attempt.id, report);
      var claimed := store.BeginUpload(key, attempt, now);
      if report.ReportConfirmed? ==> report.proof.Valid() {
        UploadClaimed(db, key, attempt, report);
        UploadLanded(db, key, attempt, report, now);
        ReportUploadKeeps(store.Snapshot(), key, attempt.id, report, now);
      }
      DoesCall(db, Event(BeginUpload(key, attempt), now), Event(ReportUpload(key, attempt.id, report), now));
      acts := [Call(Event(BeginUpload(key, attempt), now)), Answer(Event(ReportUpload(key, attempt.id, report), now))];
      var reported := store.ReportUpload(key, attempt.id, report, now);
      r := if reported.Success? then Pass else Outcome.Fail(reported.error);
    }

    method ClaimAndReportSubmission(sid: Uuid, attempt: RemoteAttempt, report: RemoteReport<SubmissionProof>,
        now: Timestamp) returns (r: Outcome, ghost acts: seq<Act>)
      requires Settled() && CanBeginSubmission(store.Snapshot(), sid, attempt) && report.Counted()
      modifies store
      ensures store.Valid() && Inv(store.Snapshot())
      ensures r.Pass? <==>
                CanReportSubmission(SubmissionBegun(old(store.Snapshot()), sid, attempt), sid, attempt.id, report)
      ensures r.Pass? <==> (report.ReportConfirmed? ==> report.proof.Valid())
      ensures store.Snapshot() == var claimed := SubmissionBegun(old(store.Snapshot()), sid, attempt);
                                  if r.Pass? then SubmissionReported(claimed, sid, attempt.id, report, now) else claimed
      ensures r.Pass? ==> Settled()
      ensures Does(old(store.Snapshot()), acts, store.Snapshot(), r.Fail?)
    {
      hide Inv, Landed, CanBeginSubmission, CanReportSubmission, SubmissionBegun, SubmissionReported, Does;
      ghost var db := store.Snapshot();
      BeginSubmissionKeeps(db, sid, attempt);
      SubmissionNeedsProof(SubmissionBegun(db, sid, attempt), sid, attempt.id, report);
      var claimed := store.BeginSubmission(sid, attempt, now);
      if report.ReportConfirmed? ==> report.proof.Valid() {
        SubmissionClaimed(db, sid, attempt, report);
        SubmissionLanded(db, sid, attempt, report, now);
        ReportSubmissionKeeps(store.Snapshot(), sid, attempt.id, report, now);
      }
      DoesCall(db, Event(BeginSubmission(sid, attempt), now), Event(ReportSubmission(sid, attempt.id, report), now));
      acts := [Call(Event(BeginSubmission(sid, attempt), now)),
               Answer(Event(ReportSubmission(sid, attempt.id, report), now))];
      var reported := store.ReportSubmission(sid, attempt.id, report, now);
      r := if reported.Success? then Pass else Outcome.Fail(reported.error);
    }

    /** The checks before a submission, as the worker makes them. */
    method MayStartSubmission(sid: Uuid, turn: Turn<SubmissionProof>)
      returns (starts: bool, parts: seq<UploadedPart>)
      requires Settled()
      ensures starts <==> StartsSubmission(store.Snapshot(), sid, uploaders, turn)
      ensures starts ==> SendsAll(store.Snapshot(), sid, parts)
    {
      var db := store.Snapshot();
      if !Submittable(db, sid) || (sid in db.submissions && !db.submissions[sid].state.Due(turn.now)) {
        return false, [];
      }
      var rows := ListSegments(db, sid);
      var report := ReconcileSessionUploads(rows);
      ReadyIffPartsReady(db, sid, rows, report);
      if report.ReadyForSubmission() {
        PartsAreAll(db, sid, rows, report);
      }
      return report.ReadyForSubmission() && GatePasses(db, sid, uploaders, turn.now) && !turn.shutdown,
          Proofs(report.parts);
    }

    /** One session's turn; `sent` are the parts that go to the remote side if it is started. */
    method TrySubmit(sid: Uuid, turn: Turn<SubmissionProof>)
      returns (r: Outcome, sent: Option<seq<UploadedPart>>, ghost acts: seq<Act>)
      requires Settled() && Unused(store.Snapshot(), turn.attemptId)
      modifies store
      ensures store.Valid() && Inv(store.Snapshot())
      ensures var db := old(store.Snapshot());
              if StartsSubmission(db, sid, uploaders, turn) then
                && SubmissionAnswered(db, sid, turn, store.Snapshot())
                && (r.Pass? <==> (turn.outcome.ConfirmedOutcome? ==> turn.outcome.proof.Valid()))
              else r.Pass? && store.Snapshot() == db
      ensures sent.Some? <==> StartsSubmission(old(store.Snapshot()), sid, uploaders, turn)
      ensures sent.Some? ==> SendsAll(old(store.Snapshot()), sid, sent.value)
      ensures r.Pass? ==> Settled()
      ensures Does(old(store.Snapshot()), acts, store.Snapshot(), r.Fail?)
    {
      hide SendsAll, Does;
      var starts, parts := MayStartSubmission(sid, turn);
      if !starts {
        DoesNothing(store.Snapshot());
        return Pass, None, [];
      }
      sent := Some(parts);
      var db := store.Snapshot();
      StartsSubmissionIff(db, sid, uploaders, turn);
      SubmissionTurnAnswered(db, sid, turn);
      var attempt := RemoteAttempt(turn.attemptId, turn.now);
      var report := ReportOf(turn.outcome, FailuresBefore(db.gates[TargetOf(db, sid)]), turn.retryAt);
      r, acts := ClaimAndReportSubmission(sid, attempt, report, turn.now);
    }

    /** A session whose submitted recordings the plan wants deleted. */
    ghost predicate Licensed(sid: Uuid)
      reads store
    {
      CleanupLicensed(store.Snapshot(), sid)
    }

    /**
      Deletes what a submitted session left on disk, until a stop is asked for before one of the
      deletions. `removed` says which files could be removed; the others stay announced for the
      next start. The refusal for unknown rows is never reached.
     */
    method CleanupSubmittedSession(sid: Uuid, circumstances: Cleaning, now: Timestamp)
      returns (r: Outcome, ghost acts: seq<Act>)
      requires Settled() && Licensed(sid)
      modifies store
      ensures r.Pass? && Settled()
      ensures CleanedAsAsked(old(store.Snapshot()), sid, circumstances, store.Snapshot())
      ensures AwaitsCleanup(store.Snapshot(), sid) ==> StopsAmong(old(store.Snapshot()), sid, circumstances)
      ensures !AwaitsCleanup(old(store.Snapshot()), sid) ==> store.Snapshot() == old(store.Snapshot())
      ensures Does(old(store.Snapshot()), acts, store.Snapshot(), false)
    {
      hide Does, CleanedBelow;
      ghost var db, n: nat := store.Snapshot(), 0;
      var rows := ListSegments(store.Snapshot(), sid);
      acts := [];
      DoesNothing(db);
      CleanedNone(db, sid, circumstances.removed);
      for i := 0 to |rows|
        invariant Settled() && Licensed(sid)
        invariant Remaining(store.Snapshot(), sid, rows, i)
        invariant CleanedSoFar(db, sid, rows, i, circumstances, n, store.Snapshot())
        invariant !AwaitsCleanup(db, sid) ==> store.Snapshot() == db
        invariant Does(db, acts, store.Snapshot(), false)
      {
        ghost var mid := store.Snapshot();
        var stopped, more := CleanRow(sid, rows, i, circumstances, now);
        DoesMore(db, acts, mid, more, store.Snapshot(), false);
        acts := acts + more;
        if stopped {
          StopIsAmong(db, sid, rows, i, circumstances);
          CleanedToStop(db, sid, rows, i, circumstances, n, mid);
          return Pass, acts;
        }
        CleanedNext(db, sid, rows, i, circumstances, n, mid);
        n := rows[i].index + 1;
      }
      NothingRemains(store.Snapshot(), sid, rows);
      CleanedToEnd(db, sid, rows, circumstances, n, store.Snapshot());
      return Pass, acts;
    }

    /** One row's turn: nothing for a row without a file, a deletion or a stop before it for one with a file. */
    method CleanRow(sid: Uuid, rows: seq<Segment>, i: nat, circumstances: Cleaning, now: Timestamp)
      returns (stopped: bool, ghost acts: seq<Act>)
      requires Settled() && Licensed(sid) && i < |rows| && Remaining(store.Snapshot(), sid, rows, i)
      modifies store
      ensures Settled() && Licensed(sid)
      ensures stopped <==> Deletable(rows[i]) && circumstances.stop(rows[i].Key())
      ensures Remaining(store.Snapshot(), sid, rows, if stopped then i else i + 1)
      ensures store.Snapshot() == if stopped then old(store.Snapshot())
              else old(store.Snapshot()).PutSegment(AfterRow(rows[i], circumstances.removed))
      ensures !AwaitsCleanup(old(store.Snapshot()), sid) ==> store.Snapshot() == old(store.Snapshot())
      ensures Does(old(store.Snapshot()), acts, store.Snapshot(), false)
    {
      hide Does;
      RemainingRow(store.Snapshot(), sid, rows, i);
      CleanupKnowsAll(store.Snapshot(), sid, rows[i].Key());
      DoesNothing(store.Snapshot());
      acts := [];
      if Deletable(rows[i]) {
        if circumstances.stop(rows[i].Key()) {
          return true, acts;
        }
        acts := DeleteRow(rows[i].Key(), rows, i, circumstances.removed(rows[i].Key()), now);
      } else if !(rows[i].artifact.Filtered? || rows[i].artifact.Excluded? || rows[i].artifact.Deleting?
          || rows[i].artifact.Deleted?) {
        assert false;
      }
      stopped := false;
      assert old(store.Snapshot()).PutSegment(rows[i]).segments == old(store.Snapshot()).segments;
    }

    method DeleteRow(key: SegmentKey, ghost rows: seq<Segment>, ghost i: nat, removed: bool, now: Timestamp)
      returns (ghost acts: seq<Act>)
      requires Settled() && Licensed(key.sid)
      requires i < |rows| && Remaining(store.Snapshot(), key.sid, rows, i) && Deletable(rows[i]) && key == rows[i].Key()
      modifies store
      ensures Settled() && Licensed(key.sid)
      ensures Remaining(store.Snapshot(), key.sid, rows, i + 1)
      ensures store.Snapshot() == old(store.Snapshot()).PutSegment(
                rows[i].(artifact := if removed then Deleted else Deleting))
      ensures AwaitsCleanup(old(store.Snapshot()), key.sid)
      ensures Does(old(store.Snapshot()), acts, store.Snapshot(), false)
    {
      hide Does;
      ghost var sid := key.sid;
      RemainingRow(store.Snapshot(), sid, rows, i);
      ghost var db := store.Snapshot();
      DeleteAllowed(db, sid, key);
      BeginDeleteKeeps(db, key);
      DoesOther(db, Event(Command.BeginDelete(key), now));
      acts := [Other(Event(Command.BeginDelete(key), now))];
      var begun := store.BeginDelete(key, now);
      RemainingNext(db, store.Snapshot(), sid, rows, i, Deleting);
      if removed {
        ghost var mid := store.Snapshot();
        ghost var more := ConfirmRemoval(key, now);
        RemainingNext(db, store.Snapshot(), sid, rows, i, Deleted);
        DoesMore(db, acts, mid, more, store.Snapshot(), false);
        acts := acts + more;
      }
    }

    method ConfirmRemoval(key: SegmentKey, now: Timestamp) returns (ghost acts: seq<Act>)
      requires Settled() && CanCompleteDelete(store.Snapshot(), key)
      modifies store
      ensures Settled() && store.Snapshot() == WithArtifact(old(store.Snapshot()), key, Deleted)
      ensures Does(old(store.Snapshot()), acts, store.Snapshot(), false)
    {
      hide Does;
      CompleteDeleteKeeps(store.Snapshot(), key);
      DoesOther(store.Snapshot(), Event(Command.CompleteDelete(key), now));
      acts := [Other(Event(Command.CompleteDelete(key), now))];
      var done := store.CompleteDelete(key, now);
    }

    // ----- A pass over everything -----

    /** A new attempt id is one that nothing in the database carries. */
    method NewAttemptId() returns (id: Uuid)
      requires store.Valid()
      ensures Unused(store.Snapshot(), id)
    {
      var used := UsedIds(store.Snapshot());
      SomethingUnused(used);
      id :| id !in used;
    }

    /** One session's turn: a claim if it is due, and cleanup once it is submitted. */
    method SubmitOrClean(sid: Uuid, turn: Turn<SubmissionProof>, circumstances: Cleaning)
      returns (r: Outcome, ghost acts: seq<Act>)
      requires Settled() && Unused(store.Snapshot(), turn.attemptId)
      modifies store
      ensures SessionTurn(old(store.Snapshot()), sid, uploaders, turn, circumstances, store.Snapshot())
      ensures r.Pass? ==> Settled()
      ensures Acceptable(turn.outcome) ==> r.Pass?
      ensures !HasExecutableWork(old(store.Snapshot()), uploaders) ==>
                r.Pass? && store.Snapshot() == old(store.Snapshot())
      ensures Does(old(store.Snapshot()), acts, store.Snapshot(), r.Fail?)
    {
      hide Does;
      ghost var db := store.Snapshot();
      assert !HasExecutableWork(db, uploaders) ==>
               !StartsSubmission(db, sid, uploaders, turn) && !AwaitsCleanup(db, sid) by {
        if !HasExecutableWork(db, uploaders) {
          IdleStartsNothing(db, uploaders);
        }
      }
      var sent;
      r, sent, acts := TrySubmit(sid, turn);
      ghost var taken := store.Snapshot();
      NotLicensed(taken, sid);
      if r.Pass? && !turn.shutdown && Submittable(store.Snapshot(), sid) && sid in store.submissions
         && store.submissions[sid].state.Submitted? && store.sessions[sid].outputPlan.upload.deleteAfterSubmit {
        ghost var mid, more := store.Snapshot(), [];
        r, more := CleanupSubmittedSession(sid, circumstances, turn.now);
        DoesMore(db, acts, mid, more, store.Snapshot(), false);
        acts := acts + more;
      }
      assert SubmissionTurn(db, sid, uploaders, turn, taken);
    }

    method UploadReadySegments(order: seq<SegmentKey>, turns: SegmentKey -> Turn<UploadedPart>)
      returns (r: Outcome, ghost acts: seq<Act>, ghost done: nat)
      requires Settled()
      modifies store
      ensures done <= |order| && UploadTurns(old(store.Snapshot()), order[..done], turns, uploaders, store.Snapshot())
      ensures r.Pass? ==> done == |order|
      ensures r.Pass? ==> Settled()
      ensures (forall key :: key in order ==> AcceptablePart(turns(key).outcome)) ==> r.Pass?
      ensures !HasExecutableWork(old(store.Snapshot()), uploaders) ==>
                r.Pass? && store.Snapshot() == old(store.Snapshot())
      ensures Does(old(store.Snapshot()), acts, store.Snapshot(), r.Fail?)
    {
      hide Does, UploadAnswered, Unused, HasExecutableWork;
      ghost var db := store.Snapshot();
      acts, done := [], 0;
      DoesNothing(db);
      for i := 0 to |order|
        invariant Settled()
        invariant done == i && UploadTurns(db, order[..i], turns, uploaders, store.Snapshot())
        invariant !HasExecutableWork(db, uploaders) ==> store.Snapshot() == db
        invariant Does(db, acts, store.Snapshot(), false)
      {
        ghost var mid, more := store.Snapshot(), [];
        var id := NewAttemptId();
        var turn := turns(order[i]).(attemptId := id);
        if !HasExecutableWork(store.Snapshot(), uploaders) {
          IdleStartsNothing(store.Snapshot(), uploaders);
        }
        r, more := TryUpload(order[i], turn);
        NextUploadTurn(db, order, i, turns, uploaders, mid, id, store.Snapshot());
        DoesMore(db, acts, mid, more, store.Snapshot(), r.Fail?);
        acts, done := acts + more, i + 1;
        if r.Fail? {
          return;
        }
      }
      r := Pass;
    }

    method SubmitCompletedSessions(order: seq<Uuid>, turns: Uuid -> Turn<SubmissionProof>, circumstances: Cleaning)
      returns (r: Outcome, ghost acts: seq<Act>, ghost done: nat)
      requires Settled()
      modifies store
      ensures done <= |order|
      ensures SessionTurns(old(store.Snapshot()), order[..done], turns, uploaders, circumstances, store.Snapshot())
      ensures r.Pass? ==> done == |order|
      ensures r.Pass? ==> Settled()
      ensures (forall sid :: sid in order ==> Acceptable(turns(sid).outcome)) ==> r.Pass?
      ensures !HasExecutableWork(old(store.Snapshot()), uploaders) ==>
                r.Pass? && store.Snapshot() == old(store.Snapshot())
      ensures Does(old(store.Snapshot()), acts, store.Snapshot(), r.Fail?)
    {
      hide Does, SessionTurn, Unused, HasExecutableWork;
      ghost var db := store.Snapshot();
      acts, done := [], 0;
      DoesNothing(db);
      for i := 0 to |order|
        invariant Settled()
        invariant done == i && SessionTurns(db, order[..i], turns, uploaders, circumstances, store.Snapshot())
        invariant !HasExecutableWork(db, uploaders) ==> store.Snapshot() == db
        invariant Does(db, acts, store.Snapshot(), false)
      {
        ghost var mid, more := store.Snapshot(), [];
        var id := NewAttemptId();
        r, more := SubmitOrClean(order[i], turns(order[i]).(attemptId := id), circumstances);
        NextSessionTurn(db, order, i, turns, uploaders, circumstances, mid, id, store.Snapshot());
        DoesMore(db, acts, mid, more, store.Snapshot(), r.Fail?);
        acts, done := acts + more, i + 1;
        if r.Fail? {
          return;
        }
      }
      r := Pass;
    }

    /**
      One pass, whatever the remote side answers. Every listed segment and, unless a stop was asked
      for by then, every listed session has its turn: what may start then is claimed and answered,
      what is submitted is cleaned up. As long as every confirmation carries a usable proof no
      transition refuses anything, and nothing is left in flight; otherwise the pass ends with that
      turn. When nothing executable was left before, the pass changes nothing at all, at any time.
      And a pass is a lawful run: it claims only when none of its calls is open.
     */
    method RunOnce(segments: seq<SegmentKey>, uploads: SegmentKey -> Turn<UploadedPart>, sessions: seq<Uuid>,
                   submissions: Uuid -> Turn<SubmissionProof>, circumstances: Cleaning, shutdown: bool)
      returns (r: Outcome, ghost acts: seq<Act>, ghost uploaded: nat, ghost submitted: nat)
      requires Settled()
      modifies store
      ensures uploaded <= |segments| && submitted <= |sessions|
      ensures PassOver(old(store.Snapshot()), segments[..uploaded], uploads, sessions[..submitted], submissions,
                       uploaders, circumstances, store.Snapshot())
      ensures r.Pass? ==> uploaded == |segments| && submitted == if shutdown then 0 else |sessions|
      ensures r.Pass? ==> Settled()
      ensures UsableAnswers(segments, uploads, sessions, submissions) ==> r.Pass?
      ensures !HasExecutableWork(old(store.Snapshot()), uploaders) ==>
                r.Pass? && store.Snapshot() == old(store.Snapshot())
      ensures Does(old(store.Snapshot()), acts, store.Snapshot(), r.Fail?)
    {
      hide Does, UploadTurns, HasExecutableWork;
      submitted := 0;
      r, acts, uploaded := UploadReadySegments(segments, uploads);
      ghost var mid, more := store.Snapshot(), [];
      if r.Pass? && !shutdown {
        r, more, submitted := SubmitCompletedSessions(sessions, submissions, circumstances);
        DoesMore(old(store.Snapshot()), acts, mid, more, store.Snapshot(), r.Fail?);
        acts := acts + more;
      }
      assert SessionTurns(mid, sessions[..submitted], submissions, uploaders, circumstances, store.Snapshot());
    }
  }

  ghost predicate UsableAnswers(segments: seq<SegmentKey>, uploads: SegmentKey -> Turn<UploadedPart>,
      sessions: seq<Uuid>,
                                submissions: Uuid -> Turn<SubmissionProof>)
  {
    && (forall key | key in segments :: AcceptablePart(uploads(key).outcome))
    && (forall sid | sid in sessions :: Acceptable(submissions(sid).outcome))
  }

  /** A confirmation is recorded only with a usable proof. */
  predicate Acceptable(outcome: RemoteOutcome<SubmissionProof>) {
    outcome.ConfirmedOutcome? ==> outcome.proof.Valid()
  }

  predicate AcceptablePart(outcome: RemoteOutcome<UploadedPart>) {
    outcome.ConfirmedOutcome? ==> outcome.proof.Valid()
  }

  function UsedIds(db: Db): (used: set<Uuid>)
    ensures forall id | id !in used :: Unused(db, id)
  {
    var uploads := set k, i | k in db.segments && 0 <= i < |db.segments[k].attempts| ::
          db.segments[k].attempts[i].attempt.id;
    var submissions := set sid, i | sid in db.submissions && 0 <= i < |db.submissions[sid].attempts| ::
          db.submissions[sid].attempts[i].attempt.id;
    uploads + submissions
  }

  lemma SomethingUnused(used: set<Uuid>)
    ensures exists id: Uuid :: id !in used
  {
    var id: Uuid := if used == {} then 0 else Greatest(used) + 1;
    assert id !in used;
  }

  /** The worker looks at what the license says, and at the session's lifecycle, which follows. */
  lemma NotLicensed(db: Db, sid: Uuid)
    requires Inv(db)
    ensures CleanupLicensed(db, sid) ==> Submittable(db, sid)
  {
    assert sid in db.submissions ==> SubmissionOk(db, sid);
  }

  lemma DeleteAllowed(db: Db, sid: Uuid, key: SegmentKey)
    requires Inv(db) && CleanupLicensed(db, sid) && key.sid == sid && key in db.segments && Deletable(db.segments[key])
    ensures CanBeginDelete(db, key) && AwaitsCleanup(db, sid)
  {
    assert SubmissionOk(db, sid);
  }

  /** The rows not looked at yet are as they were listed, and none before them is still deletable. */
  ghost predicate Remaining(db: Db, sid: Uuid, rows: seq<Segment>, i: nat)
    requires i <= |rows|
  {
    && (forall j | 0 <= j < |rows| :: rows[j].sid == sid && rows[j].Key() in db.segments)
    && (forall j, k | 0 <= j < k < |rows| :: rows[j].index < rows[k].index)
    && (forall j | i <= j < |rows| :: db.segments[rows[j].Key()] == rows[j])
    && (forall k | k in db.segments && k.sid == sid && Deletable(db.segments[k]) ::
          exists j :: i <= j < |rows| && rows[j].Key() == k)
  }

  lemma RemainingRow(db: Db, sid: Uuid, rows: seq<Segment>, i: nat)
    requires i < |rows| && Remaining(db, sid, rows, i)
    ensures rows[i].Key() == SegmentKey(sid, rows[i].index) && rows[i].Key() in db.segments
            && db.segments[rows[i].Key()] == rows[i]
    ensures !Deletable(rows[i]) ==> Remaining(db, sid, rows, i + 1)
  {
  }

  lemma RemainingNext(db: Db, db': Db, sid: Uuid, rows: seq<Segment>, i: nat, artifact: ArtifactState)
    requires i < |rows| && Remaining(db, sid, rows, i) && (artifact.Deleting? || artifact.Deleted?)
    requires db'.segments == db.segments[SegmentKey(sid, rows[i].index) := rows[i].(artifact := artifact)]
    ensures Remaining(db', sid, rows, i + 1)
  {
    assert rows[i].Key() == SegmentKey(sid, rows[i].index);
  }

  lemma StopIsAmong(db: Db, sid: Uuid, rows: seq<Segment>, i: nat, circumstances: Cleaning)
    requires i < |rows| && rows[i].sid == sid && rows[i].Key() in db.segments && db.segments[rows[i].Key()] == rows[i]
    requires Deletable(rows[i]) && circumstances.stop(rows[i].Key())
    ensures StopsAmong(db, sid, circumstances)
  {
  }

  /** What is done with the first `i` rows, as rows below index `n`. */
  ghost predicate CleanedSoFar(db: Db, sid: Uuid, rows: seq<Segment>, i: nat, circumstances: Cleaning, n: nat, db': Db)
    requires i <= |rows|
  {
    && db.Keyed() && Lists(db, sid, rows) && db' == CleanedBelow(db, sid, circumstances.removed, n)
    && (forall j | 0 <= j < i :: rows[j].index < n && !(Deletable(rows[j]) && circumstances.stop(rows[j].Key())))
    && (forall j | i <= j < |rows| :: rows[j].index >= n)
  }

  lemma ListedBelow(db: Db, sid: Uuid, rows: seq<Segment>, i: nat, circumstances: Cleaning, n: nat, db': Db,
      k: SegmentKey) returns (j: nat)
    requires i <= |rows| && CleanedSoFar(db, sid, rows, i, circumstances, n, db') && k in db.segments && k.sid == sid
    ensures j < |rows| && rows[j] == db.segments[k] && rows[j].Key() == k && (j < i <==> k.index < n)
  {
    j :| 0 <= j < |rows| && rows[j] == db.segments[k];
  }

  /** Nothing is between the rows done and the next. */
  lemma CleanedBefore(db: Db, sid: Uuid, rows: seq<Segment>, i: nat, circumstances: Cleaning, n: nat, db': Db)
    requires i < |rows| && CleanedSoFar(db, sid, rows, i, circumstances, n, db')
    ensures db' == CleanedBelow(db, sid, circumstances.removed, rows[i].index)
    ensures rows[i].Key() == SegmentKey(sid, rows[i].index) && rows[i].Key() in db.segments
            && db.segments[rows[i].Key()] == rows[i]
    ensures forall k | k in db.segments && k.sid == sid && Deletable(db.segments[k]) && k.index < rows[i].index ::
              !circumstances.stop(k)
  {
    forall k | k in db.segments && k.sid == sid ensures k.index < n || k.index >= rows[i].index {
      var j := ListedBelow(db, sid, rows, i, circumstances, n, db', k);
    }
    CleanedSkip(db, sid, circumstances.removed, n, rows[i].index);
    forall k | k in db.segments && k.sid == sid && Deletable(db.segments[k]) && k.index < rows[i].index
      ensures !circumstances.stop(k)
    {
      var j := ListedBelow(db, sid, rows, i, circumstances, n, db', k);
    }
  }

  lemma CleanedNext(db: Db, sid: Uuid, rows: seq<Segment>, i: nat, circumstances: Cleaning, n: nat, db': Db)
    requires i < |rows| && CleanedSoFar(db, sid, rows, i, circumstances, n, db')
    requires !(Deletable(rows[i]) && circumstances.stop(rows[i].Key()))
    ensures CleanedSoFar(db, sid, rows, i + 1, circumstances, rows[i].index + 1,
                         db'.PutSegment(AfterRow(rows[i], circumstances.removed)))
  {
    hide CleanedBelow;
    CleanedBefore(db, sid, rows, i, circumstances, n, db');
    CleanedRow(db, sid, circumstances.removed, rows[i].index);
  }

  lemma CleanedToStop(db: Db, sid: Uuid, rows: seq<Segment>, i: nat, circumstances: Cleaning, n: nat, db': Db)
    requires i < |rows| && CleanedSoFar(db, sid, rows, i, circumstances, n, db')
    requires Deletable(rows[i]) && circumstances.stop(rows[i].Key())
    ensures CleanedAsAsked(db, sid, circumstances, db')
  {
    hide CleanedBelow;
    CleanedBefore(db, sid, rows, i, circumstances, n, db');
    assert CleanedUpTo(db, sid, circumstances, rows[i].index, db');
  }

  lemma CleanedToEnd(db: Db, sid: Uuid, rows: seq<Segment>, circumstances: Cleaning, n: nat, db': Db)
    requires CleanedSoFar(db, sid, rows, |rows|, circumstances, n, db')
    ensures CleanedAsAsked(db, sid, circumstances, db')
  {
    hide CleanedBelow;
    forall k | k in db.segments && k.sid == sid
      ensures k.index < n && (Deletable(db.segments[k]) ==> !circumstances.stop(k))
    {
      var j := ListedBelow(db, sid, rows, |rows|, circumstances, n, db', k);
    }
    assert CleanedUpTo(db, sid, circumstances, n, db');
  }

  lemma NothingRemains(db: Db, sid: Uuid, rows: seq<Segment>)
    requires Remaining(db, sid, rows, |rows|)
    ensures !AwaitsCleanup(db, sid)
  {
  }

  // ----- At startup -----

  const INTERRUPTED_UPLOAD: Reason := Text("process ended before the remote upload result was durably confirmed")
  const INTERRUPTED_SUBMISSION: Reason :=
        Text("process ended before the remote submission result was durably confirmed")

  /** An attempt left open ends ambiguous, in the row and in its record; any other row is as it was. */
  ghost predicate UploadInterrupted(was: Segment, after: Segment, now: Timestamp) {
    if was.upload.Attempting? then
      && after == was.(upload := UploadState.Ambiguous(was.upload.attempt, INTERRUPTED_UPLOAD),
                       attempts := after.attempts)
      && was.attempts != []
      && Recorded(was.attempts[..|was.attempts| - 1], after.attempts, was.upload.attempt, Some(now),
                  Some(AmbiguousOutcome(INTERRUPTED_UPLOAD)))
    else after == was
  }

  ghost predicate SubmissionInterrupted(was: Submission, after: Submission, now: Timestamp) {
    if was.state.Attempting? then
      && after == was.(state := SubmissionState.Ambiguous(was.state.attempt, INTERRUPTED_SUBMISSION),
                       attempts := after.attempts)
      && was.attempts != []
      && Recorded(was.attempts[..|was.attempts| - 1], after.attempts, was.state.attempt, Some(now),
                  Some(AmbiguousOutcome(INTERRUPTED_SUBMISSION)))
    else after == was
  }

  lemma InterruptedUploadEnabled(db: Db, key: SegmentKey, now: Timestamp)
    requires Inv(db) && key in db.segments && db.segments[key].upload.Attempting?
    ensures var id := db.segments[key].upload.attempt.id;
            var report := ReportAmbiguous(INTERRUPTED_UPLOAD);
            && CanReportUpload(db, key, id, report)
            && Inv(UploadReported(db, key, id, report, now))
            && UploadReported(db, key, id, report, now) ==
                  db.(segments := db.segments[key := UploadReportedRow(db.segments[key], report, now)])
            && UploadInterrupted(db.segments[key], UploadReportedRow(db.segments[key], report, now), now)
  {
    assert SegmentOk(db, key);
    PositionOfDistinct(db.segments[key].attempts, |db.segments[key].attempts| - 1);
    ReportUploadKeeps(db, key, db.segments[key].upload.attempt.id, ReportAmbiguous(INTERRUPTED_UPLOAD), now);
  }

  lemma InterruptedSubmissionEnabled(db: Db, sid: Uuid, now: Timestamp)
    requires Inv(db) && sid in db.submissions && db.submissions[sid].state.Attempting?
    ensures var id := db.submissions[sid].state.attempt.id;
            var report := ReportAmbiguous(INTERRUPTED_SUBMISSION);
            && CanReportSubmission(db, sid, id, report)
            && Inv(SubmissionReported(db, sid, id, report, now))
            && SubmissionReported(db, sid, id, report, now) ==
                  db.(submissions := db.submissions[sid := SubmissionReportedRow(db.submissions[sid], report, now)])
            && SubmissionInterrupted(db.submissions[sid], SubmissionReportedRow(db.submissions[sid], report, now), now)
  {
    assert SubmissionOk(db, sid);
    PositionOfDistinct(db.submissions[sid].attempts, |db.submissions[sid].attempts| - 1);
    ReportSubmissionKeeps(db, sid, db.submissions[sid].state.attempt.id, ReportAmbiguous(INTERRUPTED_SUBMISSION), now);
  }

  method MarkUploadInterrupted(store: Store, key: SegmentKey, now: Timestamp) returns (ghost report: seq<Event>)
    requires store.Valid() && Inv(store.Snapshot()) && key in store.segments && store.segments[key].upload.Attempting?
    modifies store
    ensures store.Valid() && Inv(store.Snapshot())
    ensures store.Snapshot() == old(store.Snapshot()).(segments := store.segments)
    ensures store.segments.Keys == old(store.segments).Keys
    ensures UploadInterrupted(old(store.segments)[key], store.segments[key], now)
    ensures forall k | k in old(store.segments) && k != key :: store.segments[k] == old(store.segments)[k]
    ensures AllReports(report) && Run(old(store.Snapshot()), report) == store.Snapshot()
  {
    ghost var db := store.Snapshot();
    InterruptedUploadEnabled(db, key, now);
    var id := store.segments[key].upload.attempt.id;
    OneEvent(db, Event(Command.ReportUpload(key, id, ReportAmbiguous(INTERRUPTED_UPLOAD)), now));
    report := [Event(Command.ReportUpload(key, id, ReportAmbiguous(INTERRUPTED_UPLOAD)), now)];
    var reported := store.ReportUpload(key, id, ReportAmbiguous(INTERRUPTED_UPLOAD), now);
  }

  method MarkSubmissionInterrupted(store: Store, sid: Uuid, now: Timestamp) returns (ghost report: seq<Event>)
    requires store.Valid() && Inv(store.Snapshot()) && sid in store.submissions
             && store.submissions[sid].state.Attempting?
    modifies store
    ensures store.Valid() && Inv(store.Snapshot())
    ensures store.Snapshot() == old(store.Snapshot()).(submissions := store.submissions)
    ensures store.submissions.Keys == old(store.submissions).Keys
    ensures SubmissionInterrupted(old(store.submissions)[sid], store.submissions[sid], now)
    ensures forall x | x in old(store.submissions) && x != sid :: store.submissions[x] == old(store.submissions)[x]
    ensures AllReports(report) && Run(old(store.Snapshot()), report) == store.Snapshot()
  {
    ghost var db := store.Snapshot();
    InterruptedSubmissionEnabled(db, sid, now);
    var id := store.submissions[sid].state.attempt.id;
    OneEvent(db, Event(Command.ReportSubmission(sid, id, ReportAmbiguous(INTERRUPTED_SUBMISSION)), now));
    report := [Event(Command.ReportSubmission(sid, id, ReportAmbiguous(INTERRUPTED_SUBMISSION)), now)];
    var reported := store.ReportSubmission(sid, id, ReportAmbiguous(INTERRUPTED_SUBMISSION), now);
  }

  /**
    Startup: every attempt the last process left open becomes ambiguous, and nothing else changes.
    It never fails and leaves nothing in flight, so a worker may start; what it does is a restart
    in the sense of `WorkerRuns`.
   */
  method ReconcileInterruptedAttempts(store: Store, now: Timestamp) returns (ghost reports: seq<Event>)
    requires store.Valid() && Inv(store.Snapshot())
    modifies store
    ensures store.Valid() && Inv(store.Snapshot()) && Landed(store.Snapshot())
    ensures store.Snapshot() == old(store.Snapshot()).(segments := store.segments, submissions := store.submissions)
    ensures store.segments.Keys == old(store.segments).Keys && store.submissions.Keys == old(store.submissions).Keys
    ensures forall k | k in store.segments ::
              UploadInterrupted(old(store.segments)[k], store.segments[k], now)
    ensures forall x | x in store.submissions ::
              SubmissionInterrupted(old(store.submissions)[x], store.submissions[x], now)
    ensures AllReports(reports) && Run(old(store.Snapshot()), reports) == store.Snapshot()
  {
    reports := MarkUploads(store, now);
    ghost var others := MarkSubmissions(store, now);
    RunJoin(old(store.Snapshot()), reports, others);
    reports := reports + others;
  }

  method MarkUploads(store: Store, now: Timestamp) returns (ghost reports: seq<Event>)
    requires store.Valid() && Inv(store.Snapshot())
    modifies store
    ensures store.Valid() && Inv(store.Snapshot())
    ensures store.Snapshot() == old(store.Snapshot()).(segments := store.segments)
    ensures store.segments.Keys == old(store.segments).Keys
    ensures forall k | k in store.segments ::
              UploadInterrupted(old(store.segments)[k], store.segments[k], now)
    ensures AllReports(reports) && Run(old(store.Snapshot()), reports) == store.Snapshot()
  {
    hide Inv, Recorded, store.Valid;
    var keys := store.segments.Keys;
    reports := [];
    while keys != {}
      invariant store.Valid() && Inv(store.Snapshot()) && keys <= store.segments.Keys
      invariant store.Snapshot() == old(store.Snapshot()).(segments := store.segments)
      invariant store.segments.Keys == old(store.segments).Keys
      invariant forall k | k in keys :: store.segments[k] == old(store.segments)[k]
      invariant forall k | k in store.segments && k !in keys ::
                  UploadInterrupted(old(store.segments)[k], store.segments[k], now)
      invariant AllReports(reports) && Run(old(store.Snapshot()), reports) == store.Snapshot()
      decreases keys
    {
      var key :| key in keys;
      if store.segments[key].upload.Attempting? {
        ghost var report := MarkUploadInterrupted(store, key, now);
        RunJoin(old(store.Snapshot()), reports, report);
        reports := reports + report;
      }
      keys := keys - {key};
    }
  }

  method MarkSubmissions(store: Store, now: Timestamp) returns (ghost reports: seq<Event>)
    requires store.Valid() && Inv(store.Snapshot())
    modifies store
    ensures store.Valid() && Inv(store.Snapshot())
    ensures store.Snapshot() == old(store.Snapshot()).(submissions := store.submissions)
    ensures store.submissions.Keys == old(store.submissions).Keys
    ensures forall x | x in store.submissions ::
              SubmissionInterrupted(old(store.submissions)[x], store.submissions[x], now)
    ensures AllReports(reports) && Run(old(store.Snapshot()), reports) == store.Snapshot()
  {
    hide Inv, Recorded, store.Valid;
    var sids := store.submissions.Keys;
    reports := [];
    while sids != {}
      invariant store.Valid() && Inv(store.Snapshot()) && sids <= store.submissions.Keys
      invariant store.Snapshot() == old(store.Snapshot()).(submissions := store.submissions)
      invariant store.submissions.Keys == old(store.submissions).Keys
      invariant forall x | x in sids :: store.submissions[x] == old(store.submissions)[x]
      invariant forall x | x in store.submissions && x !in sids ::
                  SubmissionInterrupted(old(store.submissions)[x], store.submissions[x], now)
      invariant AllReports(reports) && Run(old(store.Snapshot()), reports) == store.Snapshot()
      decreases sids
    {
      var sid :| sid in sids;
      if store.submissions[sid].state.Attempting? {
        ghost var report := MarkSubmissionInterrupted(store, sid, now);
        RunJoin(old(store.Snapshot()), reports, report);
        reports := reports + report;
      }
      sids := sids - {sid};
    }
  }
}
