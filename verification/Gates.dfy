/** The shared upload-target gate: who closes it, who may open it, and what one claim at a time buys. */
module Gates {
  import opened Wrappers
  import opened Model
  import opened History
  import opened Database
  import opened Transitions
  import opened Invariants
  import opened Preservation
  import opened Runs

  // ----- While a gate is blocked -----

  ghost predicate BlockedBy(db: Db, target: UploadTarget, owner: RemoteOperation) {
    target in db.gates && db.gates[target].Blocked? && db.gates[target].owner == owner
  }

  /**
    Main result: a blocked gate names an operation that is blocked right now; it stops every
    claim on its target at any time; and the owner's session cannot be abandoned.
   */
  lemma BlockedGateHolds(db: Db, target: UploadTarget, owner: RemoteOperation)
    requires Reachable(db) && BlockedBy(db, target, owner)
    ensures HoldsGate(db, target, owner)
    ensures forall key: SegmentKey, attempt: RemoteAttempt ::
              HasTarget(db, key.sid) && TargetOf(db, key.sid) == target ==> !CanBeginUpload(db, key, attempt)
    ensures forall sid: Uuid, attempt: RemoteAttempt ::
              HasTarget(db, sid) && TargetOf(db, sid) == target ==> !CanBeginSubmission(db, sid, attempt)
    ensures forall note :: !CanClose(db, owner.sid, Abandon(note))
  {
    ReachableInv(db);
    assert GateOk(db, target);
    assert SessionOk(db, owner.sid);
  }

  /** The operator's decision about exactly this operation. */
  predicate Resolves(command: Command, owner: RemoteOperation) {
    match owner
    case UploadOp(sid, index, _) => command.ResolveUpload? && command.key == SegmentKey(sid, index)
    case SubmissionOp(sid, _) => command.ResolveSubmission? && command.sid == sid
  }

  /** A target-scoped failure reported by an attempt on this target. */
  ghost predicate ReportsOn(db: Db, command: Command, target: UploadTarget) {
    || (command.ReportUpload? && command.upload.TargetScoped() && HasTarget(db, command.key.sid)
        && TargetOf(db, command.key.sid) == target)
    || (command.ReportSubmission? && command.submission.TargetScoped() && HasTarget(db, command.sid)
        && TargetOf(db, command.sid) == target)
  }

  /**
    Exactly two things move a blocked gate: the decision about its owner, which opens it, and a
    target-scoped failure of another attempt still in flight on the target, which takes it over.
   */
  lemma BlockedGateMoves(db: Db, command: Command, now: Timestamp, target: UploadTarget, owner: RemoteOperation)
    requires Inv(db) && Enabled(db, command) && BlockedBy(db, target, owner)
    ensures Effect(db, command, now).gates[target] != db.gates[target] <==>
              Resolves(command, owner) || ReportsOn(db, command, target)
    ensures Resolves(command, owner) ==> Effect(db, command, now).gates[target].Ready?
  {
    hide HistoryOk, SessionOk, RoomOk, NextIndex;
    assert GateOk(db, target);
    if command.BeginUpload? || command.BeginSubmission? {
    } else if command.ReportUpload? || command.ReportSubmission? {
      ReportMovesGate(db, command, now, target, owner);
    } else if command.ResolveUpload? {
      assert SegmentOk(db, command.key);
    } else if command.ResolveSubmission? {
      assert SubmissionOk(db, command.sid);
    } else {
      GatesUntouched(db, command, now);
    }
  }

  /** A report that reaches a blocked gate comes from another attempt, so it changes the owner. */
  lemma ReportMovesGate(db: Db, command: Command, now: Timestamp, target: UploadTarget, owner: RemoteOperation)
    requires Inv(db) && Enabled(db, command) && BlockedBy(db, target, owner) && HoldsGate(db, target, owner)
    requires command.ReportUpload? || command.ReportSubmission?
    ensures Effect(db, command, now).gates[target] != db.gates[target] <==> ReportsOn(db, command, target)
  {
    match command
    case ReportUpload(key, id, report) =>
      assert SegmentOk(db, key);
      assert owner != UploadOp(key.sid, key.index, id);
    case ReportSubmission(sid, id, report) =>
      assert SubmissionOk(db, sid);
      assert owner != SubmissionOp(sid, id);
  }

  lemma GatesUntouched(db: Db, command: Command, now: Timestamp)
    requires Inv(db) && Enabled(db, command)
    requires !command.BeginUpload? && !command.BeginSubmission? && !command.ReportUpload? && !command.ReportSubmission?
    requires !command.ResolveUpload? && !command.ResolveSubmission?
    ensures forall t | t in db.gates ::
              t in Effect(db, command, now).gates && Effect(db, command, now).gates[t] == db.gates[t]
  {
  }

  // ----- While a gate is in backoff -----

  ghost predicate InBackoff(db: Db, target: UploadTarget, retryAt: Timestamp) {
    target in db.gates && db.gates[target].Backoff? && db.gates[target].retryAt == retryAt
  }

  /** A claim on this target, started at a time. */
  ghost predicate ClaimsAt(db: Db, command: Command, target: UploadTarget, startedAt: Timestamp) {
    || (command.BeginUpload? && HasTarget(db, command.key.sid) && TargetOf(db, command.key.sid) == target
        && command.attempt.startedAt == startedAt)
    || (command.BeginSubmission? && HasTarget(db, command.sid) && TargetOf(db, command.sid) == target
        && command.attempt.startedAt == startedAt)
  }

  /**
    No claim that starts before the retry time takes effect, and until then only a report on the
    target or the decision about the owner changes the gate.
   */
  lemma BackoffHolds(db: Db, command: Command, now: Timestamp, target: UploadTarget, retryAt: Timestamp)
    requires Inv(db) && Enabled(db, command) && InBackoff(db, target, retryAt)
    ensures forall at :: ClaimsAt(db, command, target, at) ==> at >= retryAt
    ensures Effect(db, command, now).gates[target] != db.gates[target] ==>
              || (exists at :: ClaimsAt(db, command, target, at))
              || ReportsOn(db, command, target) || Resolves(command, db.gates[target].owner)
  {
    hide HistoryOk, SessionOk, RoomOk, NextIndex;
    if command.BeginUpload? {
      assert TargetOf(db, command.key.sid) == target ==>
               ClaimsAt(db, command, target, command.attempt.startedAt);
    } else if command.BeginSubmission? {
      assert TargetOf(db, command.sid) == target ==> ClaimsAt(db, command, target, command.attempt.startedAt);
    } else if command.ReportUpload? || command.ReportSubmission? || command.ResolveUpload?
              || command.ResolveSubmission? {
    } else {
      GatesUntouched(db, command, now);
    }
  }

  /** Nothing but claims on the target that come too early, and what has no say about its gate. */
  ghost predicate TooEarly(db: Db, command: Command, target: UploadTarget, retryAt: Timestamp) {
    && (forall at :: ClaimsAt(db, command, target, at) ==> at < retryAt)
    && !ReportsOn(db, command, target)
    && (target in db.gates && db.gates[target].Backoff? ==> !Resolves(command, db.gates[target].owner))
  }

  ghost predicate AllTooEarly(db: Db, events: seq<Event>, target: UploadTarget, retryAt: Timestamp)
    decreases |events|
  {
    events == [] ||
    (TooEarly(db, events[0].command, target, retryAt)
     && AllTooEarly(Apply(db, events[0].command, events[0].now), events[1..], target, retryAt))
  }

  /** So a backoff lasts, through any run of early claims and everything else. */
  lemma {:induction false} BackoffLasts(db: Db, events: seq<Event>, target: UploadTarget, retryAt: Timestamp)
    requires Inv(db) && InBackoff(db, target, retryAt) && AllTooEarly(db, events, target, retryAt)
    ensures target in Run(db, events).gates && Run(db, events).gates[target] == db.gates[target]
    decreases |events|
  {
    if events != [] {
      var command, now := events[0].command, events[0].now;
      if Enabled(db, command) {
        BackoffHolds(db, command, now, target, retryAt);
        EffectKeeps(db, command, now);
        EffectGrows(db, command, now);
      }
      BackoffLasts(Apply(db, command, now), events[1..], target, retryAt);
    }
  }

  /** Nor is a segment or a submission that waits for its own retry claimed before its time. */
  lemma RetryWaits(db: Db, command: Command)
    requires Enabled(db, command)
    ensures command.BeginUpload? ==>
              && command.key in db.segments && db.segments[command.key].upload.Pending?
              && (db.segments[command.key].upload.retryAt.Some? ==>
                    db.segments[command.key].upload.retryAt.value <= command.attempt.startedAt)
    ensures command.BeginSubmission? && command.sid in db.submissions ==>
              match db.submissions[command.sid].state
              case RetryScheduledAt(_, retryAt, _) => retryAt <= command.attempt.startedAt
              case state => state.RetryAuthorized?
  {
  }

  // ----- How a blocked gate is taken over -----

  const SHARED_TARGET := UploadTarget(UploadPrincipal("/cookie", 1), "line", 1, App)
  const PAIR_SESSION :=
    LiveSession(0, 0, 0, SessionLifecycle.Open, "/", None, Bilibili(UploadPlan(SHARED_TARGET, false)), [])
  const TARGET_DOWN: RemoteReport<UploadedPart> := ReportBlocked(Text("down"), Target)

  /** A segment of the session, recorded or claimed for upload, each with its own index as attempt id. */
  function PairRow(index: nat, artifact: ArtifactState): Segment {
    Segment(0, index, "/part", "/final", artifact, [], FreshPending, [], [])
  }

  function ClaimedRow(index: nat): Segment {
    UploadStartedRow(PairRow(index, ArtifactState.Ready(Rotation)), RemoteAttempt(index, 0))
  }

  function PairDb(rows: map<SegmentKey, Segment>): Db {
    Db(map[0 := PAIR_SESSION], rows, map[], map[0 := RoomState(RoomLifecycle.Owned(0), 0, None)],
       map[SHARED_TARGET := TargetGate.Ready])
  }

  lemma {:induction false} RunAppend(db: Db, events: seq<Event>, command: Command)
    ensures Run(db, events + [Event(command, 0)]) == Apply(Run(db, events), command, 0)
    decreases |events|
  {
    var all := events + [Event(command, 0)];
    if events == [] {
      assert all[1..] == [];
    } else {
      assert all[1..] == events[1..] + [Event(command, 0)];
      RunAppend(Apply(db, events[0].command, events[0].now), events[1..], command);
    }
  }

  ghost predicate NoDecision(events: seq<Event>) {
    forall e | e in events :: !e.command.ResolveUpload? && !e.command.ResolveSubmission?
  }

  /** The next segment is opened, written and finalized. */
  lemma PairRecorded(events: seq<Event>, rows: map<SegmentKey, Segment>, index: nat) returns (more: seq<Event>)
    requires Run(EMPTY, events) == PairDb(rows) && NoDecision(events)
    requires CanOpenSegment(PairDb(rows), PairRow(index, Writing))
    ensures Run(EMPTY, more) == PairDb(rows[SegmentKey(0, index) := PairRow(index, ArtifactState.Ready(Rotation))])
    ensures NoDecision(more)
  {
    var key := SegmentKey(0, index);
    var open, begin, complete := OpenSegment(PairRow(index, Writing)),
        UpdateArtifact(key, BeginFinalization(Rotation)), UpdateArtifact(key, CompleteFinalization);
    RunAppend(EMPTY, events, open);
    more := events + [Event(open, 0)];
    assert Run(EMPTY, more) == PairDb(rows[key := PairRow(index, Writing)]);
    RunAppend(EMPTY, more, begin);
    more := more + [Event(begin, 0)];
    assert Run(EMPTY, more) == PairDb(rows[key := PairRow(index, Finalizing(Rotation))]) by {
      assert rows[key := PairRow(index, Writing)][key := PairRow(index, Finalizing(Rotation))]
          == rows[key := PairRow(index, Finalizing(Rotation))];
    }
    RunAppend(EMPTY, more, complete);
    more := more + [Event(complete, 0)];
    assert rows[key := PairRow(index, Finalizing(Rotation))][key := PairRow(index, ArtifactState.Ready(Rotation))]
        == rows[key := PairRow(index, ArtifactState.Ready(Rotation))];
  }

  /** A recorded segment is claimed; the open gate stays open. */
  lemma PairClaimed(events: seq<Event>, rows: map<SegmentKey, Segment>, index: nat) returns (more: seq<Event>)
    requires Run(EMPTY, events) == PairDb(rows) && NoDecision(events)
    requires SegmentKey(0, index) in rows && rows[SegmentKey(0, index)] == PairRow(index, ArtifactState.Ready(Rotation))
    ensures Run(EMPTY, more) == PairDb(rows[SegmentKey(0, index) := ClaimedRow(index)])
    ensures NoDecision(more)
  {
    var claim := BeginUpload(SegmentKey(0, index), RemoteAttempt(index, 0));
    RunAppend(EMPTY, events, claim);
    more := events + [Event(claim, 0)];
    assert PairDb(rows).PutGate(SHARED_TARGET, TargetGate.Ready) == PairDb(rows);
  }

  /** One session with two recorded segments, both of them claimed. */
  lemma PairInFlight() returns (events: seq<Event>)
    ensures Run(EMPTY, events) == PairDb(map[SegmentKey(0, 1) := ClaimedRow(1), SegmentKey(0, 2) := ClaimedRow(2)])
    ensures NoDecision(events)
  {
    var first, second := SegmentKey(0, 1), SegmentKey(0, 2);
    var ready := map[first := PairRow(1, ArtifactState.Ready(Rotation))];
    assert !IsBlank(SHARED_TARGET.line) by {
      assert SHARED_TARGET.line[0] in SHARED_TARGET.line;
    }
    RunAppend(EMPTY, [], CreateSession(PAIR_SESSION));
    events := [] + [Event(CreateSession(PAIR_SESSION), 0)];
    assert Run(EMPTY, events) == PairDb(map[]);
    assert SegmentIndices(PairDb(map[]), 0) == {};
    events := PairRecorded(events, map[], 1);
    assert SegmentIndices(PairDb(ready), 0) == {1} by {
      assert first in ready;
    }
    events := PairRecorded(events, ready, 2);
    events := PairClaimed(events, ready[second := PairRow(2, ArtifactState.Ready(Rotation))], 1);
    events := PairClaimed(events,
        ready[second := PairRow(2, ArtifactState.Ready(Rotation))][first := ClaimedRow(1)], 2);
    assert ready[second := PairRow(2, ArtifactState.Ready(Rotation))][first := ClaimedRow(1)][second := ClaimedRow(2)]
        == map[first := ClaimedRow(1), second := ClaimedRow(2)];
  }

  /**
    Such a takeover is reached without any decision: two uploads of one session are in flight, the
    first finds the target down and blocks the gate, and the second finds the same and becomes its owner.
   */
  lemma TakeoverIsReached() returns (events: seq<Event>, command: Command)
    ensures NoDecision(events) && command.ReportUpload?
    ensures BlockedBy(Run(EMPTY, events), SHARED_TARGET, UploadOp(0, 1, 1))
    ensures BlockedBy(Run(EMPTY, events + [Event(command, 0)]), SHARED_TARGET, UploadOp(0, 2, 2))
  {
    events := PairInFlight();
    var first := ReportUpload(SegmentKey(0, 1), 1, TARGET_DOWN);
    RunAppend(EMPTY, events, first);
    events := events + [Event(first, 0)];
    command := ReportUpload(SegmentKey(0, 2), 2, TARGET_DOWN);
    RunAppend(EMPTY, events, command);
  }

  // ----- One claim at a time -----

  /** The operation is in flight, as this attempt. */
  ghost predicate Flying(db: Db, op: RemoteOperation) {
    match op
    case UploadOp(sid, index, id) =>
      var key := SegmentKey(sid, index);
      key in db.segments && db.segments[key].upload.Attempting? && db.segments[key].upload.attempt.id == id
    case SubmissionOp(sid, id) =>
      sid in db.submissions && db.submissions[sid].state.Attempting? && db.submissions[sid].state.attempt.id == id
  }

  ghost predicate FlyingOn(db: Db, op: RemoteOperation, target: UploadTarget) {
    Flying(db, op) && HasTarget(db, op.sid) && TargetOf(db, op.sid) == target
  }

  predicate Claims(command: Command, op: RemoteOperation) {
    match command
    case BeginUpload(key, attempt) => op == UploadOp(key.sid, key.index, attempt.id)
    case BeginSubmission(sid, attempt) => op == SubmissionOp(sid, attempt.id)
    case _ => false
  }

  /** The worker awaits one remote call before it claims the next on the same target. */
  ghost predicate Disciplined(db: Db, command: Command) {
    forall op, target, other :: Claims(command, op) && HasTarget(db, op.sid) && TargetOf(db, op.sid) == target ==>
                                  !FlyingOn(db, other, target)
  }

  ghost predicate DisciplinedRun(db: Db, events: seq<Event>)
    decreases |events|
  {
    events == [] ||
    (Disciplined(db, events[0].command) && DisciplinedRun(Apply(db, events[0].command, events[0].now), events[1..]))
  }

  ghost predicate OneFlight(db: Db) {
    forall target, a, b :: FlyingOn(db, a, target) && FlyingOn(db, b, target) ==> a == b
  }

  ghost predicate QuietWhenBlocked(db: Db) {
    forall target, op :: target in db.gates && db.gates[target].Blocked? ==> !FlyingOn(db, op, target)
  }

  /** Whatever flies after a command flew before it, on the same target, or was just claimed. */
  lemma FlightOrigin(db: Db, command: Command, now: Timestamp, op: RemoteOperation, target: UploadTarget)
    requires Inv(db) && Enabled(db, command)
    requires FlyingOn(Effect(db, command, now), op, target)
    ensures FlyingOn(db, op, target) || (Claims(command, op) && HasTarget(db, op.sid) && TargetOf(db, op.sid) == target)
  {
    EffectGrows(db, command, now);
    FlightRowOrigin(db, command, now, op);
    if Flying(db, op) {
      if op.UploadOp? {
        assert SegmentOk(db, SegmentKey(op.sid, op.index));
      } else {
        assert SubmissionOk(db, op.sid);
      }
    }
  }

  lemma FlightRowOrigin(db: Db, command: Command, now: Timestamp, op: RemoteOperation)
    requires Inv(db) && Enabled(db, command)
    requires Flying(Effect(db, command, now), op)
    ensures Flying(db, op) || Claims(command, op)
  {
    RowsKeyed(db);
    if op.UploadOp? {
      UploadFlightOrigin(db, command, now, op);
    } else {
      SubmissionFlightOrigin(db, command, now, op);
    }
  }

  lemma UploadFlightOrigin(db: Db, command: Command, now: Timestamp, op: RemoteOperation)
    requires db.Keyed() && Enabled(db, command) && op.UploadOp?
    requires Flying(Effect(db, command, now), op)
    ensures Flying(db, op) || Claims(command, op)
  {
    if command.BeginUpload? || command.ReportUpload? || command.ResolveUpload? {
      UploadCommandFlight(db, command, now, op);
    } else {
      OtherCommandFlight(db, command, now, op);
    }
  }

  lemma UploadCommandFlight(db: Db, command: Command, now: Timestamp, op: RemoteOperation)
    requires db.Keyed() && Enabled(db, command) && op.UploadOp?
    requires command.BeginUpload? || command.ReportUpload? || command.ResolveUpload?
    requires Flying(Effect(db, command, now), op)
    ensures Flying(db, op) || Claims(command, op)
  {
  }

  lemma OtherCommandFlight(db: Db, command: Command, now: Timestamp, op: RemoteOperation)
    requires db.Keyed() && Enabled(db, command) && op.UploadOp?
    requires !command.BeginUpload? && !command.ReportUpload? && !command.ResolveUpload?
    requires Flying(Effect(db, command, now), op)
    ensures Flying(db, op)
  {
  }

  lemma SubmissionFlightOrigin(db: Db, command: Command, now: Timestamp, op: RemoteOperation)
    requires db.Keyed() && Enabled(db, command) && op.SubmissionOp?
    requires Flying(Effect(db, command, now), op)
    ensures Flying(db, op) || Claims(command, op)
  {
  }

  /** A gate that is blocked afterwards was blocked before, or an attempt in flight on it just blocked it. */
  lemma BlockOrigin(db: Db, command: Command, now: Timestamp, target: UploadTarget)
    requires Inv(db) && Enabled(db, command)
    requires var db' := Effect(db, command, now); target in db'.gates && db'.gates[target].Blocked?
    ensures (target in db.gates && db.gates[target].Blocked?) ||
            exists op :: FlyingOn(db, op, target) && !Flying(Effect(db, command, now), op)
  {
    RowsKeyed(db);
    if command.ReportUpload? {
      UploadBlockOrigin(db, command.key, command.attemptId, command.upload, now, target);
    } else if command.ReportSubmission? {
      SubmissionBlockOrigin(db, command.sid, command.attemptId, command.submission, now, target);
    } else {
      NoNewBlock(db, command, now, target);
    }
  }

  lemma UploadBlockOrigin(db: Db, key: SegmentKey, id: Uuid, report: RemoteReport<UploadedPart>, now: Timestamp,
      target: UploadTarget)
    requires db.Keyed() && CanReportUpload(db, key, id, report)
    requires var db' := UploadReported(db, key, id, report, now); target in db'.gates && db'.gates[target].Blocked?
    ensures (target in db.gates && db.gates[target].Blocked?) || FlyingOn(db, UploadOp(key.sid, key.index, id), target)
    ensures !Flying(UploadReported(db, key, id, report, now), UploadOp(key.sid, key.index, id))
  {
  }

  lemma SubmissionBlockOrigin(db: Db, sid: Uuid, id: Uuid, report: RemoteReport<SubmissionProof>, now: Timestamp,
      target: UploadTarget)
    requires db.Keyed() && CanReportSubmission(db, sid, id, report)
    requires var db' := SubmissionReported(db, sid, id, report, now); target in db'.gates && db'.gates[target].Blocked?
    ensures (target in db.gates && db.gates[target].Blocked?) || FlyingOn(db, SubmissionOp(sid, id), target)
    ensures !Flying(SubmissionReported(db, sid, id, report, now), SubmissionOp(sid, id))
  {
  }

  lemma NoNewBlock(db: Db, command: Command, now: Timestamp, target: UploadTarget)
    requires Enabled(db, command) && !command.ReportUpload? && !command.ReportSubmission?
    requires var db' := Effect(db, command, now); target in db'.gates && db'.gates[target].Blocked?
    ensures target in db.gates && db.gates[target].Blocked?
  {
  }

  lemma DisciplineKeeps(db: Db, command: Command, now: Timestamp)
    requires Inv(db) && Enabled(db, command) && Disciplined(db, command)
    requires OneFlight(db) && QuietWhenBlocked(db)
    ensures OneFlight(Effect(db, command, now)) && QuietWhenBlocked(Effect(db, command, now))
  {
    var db' := Effect(db, command, now);
    forall target, a, b | FlyingOn(db', a, target) && FlyingOn(db', b, target) ensures a == b {
      FlightOrigin(db, command, now, a, target);
      FlightOrigin(db, command, now, b, target);
    }
    forall target, op | target in db'.gates && db'.gates[target].Blocked? ensures !FlyingOn(db', op, target) {
      if FlyingOn(db', op, target) {
        FlightOrigin(db, command, now, op, target);
        BlockOrigin(db, command, now, target);
        assert false;
      }
    }
  }

  lemma {:induction false} DisciplinedRunKeeps(db: Db, events: seq<Event>)
    requires Inv(db) && OneFlight(db) && QuietWhenBlocked(db) && DisciplinedRun(db, events)
    ensures Inv(Run(db, events)) && OneFlight(Run(db, events)) && QuietWhenBlocked(Run(db, events))
    decreases |events|
  {
    if events != [] {
      var command, now := events[0].command, events[0].now;
      if Enabled(db, command) {
        EffectKeeps(db, command, now);
        DisciplineKeeps(db, command, now);
      }
      DisciplinedRunKeeps(Apply(db, command, now), events[1..]);
    }
  }

  /** Whoever reports on a target is in flight there. */
  lemma ReporterFlies(db: Db, command: Command, target: UploadTarget)
    requires Enabled(db, command)
    ensures ReportsOn(db, command, target) ==> exists op :: FlyingOn(db, op, target)
  {
    if ReportsOn(db, command, target) {
      match command
      case ReportUpload(key, id, _) => assert FlyingOn(db, UploadOp(key.sid, key.index, id), target);
      case ReportSubmission(sid, id, _) => assert FlyingOn(db, SubmissionOp(sid, id), target);
    }
  }

  /**
    Main result: when one claim at a time is in flight on a target, a blocked gate changes only
    by the decision about its owner, and that decision opens it.
   */
  lemma OnlyOwnerReopens(events: seq<Event>, command: Command, now: Timestamp, target: UploadTarget,
      owner: RemoteOperation)
    requires DisciplinedRun(EMPTY, events)
    requires BlockedBy(Run(EMPTY, events), target, owner)
    ensures var db := Run(EMPTY, events);
            var db' := Apply(db, command, now);
            && target in db'.gates
            && (db'.gates[target] != db.gates[target] <==> Resolves(command, owner) && Enabled(db, command))
            && (db'.gates[target] != db.gates[target] ==> db'.gates[target].Ready?)
  {
    var db := Run(EMPTY, events);
    EmptyInv();
    DisciplinedRunKeeps(EMPTY, events);
    if Enabled(db, command) {
      BlockedGateMoves(db, command, now, target, owner);
      EffectGrows(db, command, now);
      ReporterFlies(db, command, target);
    }
  }
}
