/** No completed session is ever stuck: some finite run of remote steps submits it, whatever the operator answers. */
module Progress {
  import opened Wrappers
  import opened Model
  import opened History
  import opened Database
  import opened Transitions
  import opened Invariants
  import opened Preservation
  import opened Runs

  /**
    The world outside: which undecided operations the operator finds done, and the proofs that
    come with what was done.
   */
  datatype World = World(done: RemoteOperation -> bool, part: UploadedPart, receipt: SubmissionProof) {
    predicate Valid() {
      part.Valid() && receipt.Valid()
    }

    function UploadAnswer(op: RemoteOperation): OperatorDecision<UploadedPart> {
      if done(op) then ConfirmedDone(part) else ConfirmedNotDone
    }

    function SubmissionAnswer(op: RemoteOperation): OperatorDecision<SubmissionProof> {
      if done(op) then ConfirmedDone(receipt) else ConfirmedNotDone
    }
  }

  predicate UndecidedUpload(upload: UploadState) {
    (upload.Ambiguous? || upload.Blocked?) && UploadAttemptId(upload).Some?
  }

  function UploadOpOf(key: SegmentKey, upload: UploadState): RemoteOperation
    requires UndecidedUpload(upload)
  {
    UploadOp(key.sid, key.index, UploadAttemptId(upload).value)
  }

  predicate UndecidedSubmission(state: SubmissionState) {
    (state.Ambiguous? || state.Blocked?) && SubmissionAttemptId(state).Some?
  }

  function SubmissionOpOf(sid: Uuid, state: SubmissionState): RemoteOperation
    requires UndecidedSubmission(state)
  {
    SubmissionOp(sid, SubmissionAttemptId(state).value)
  }

  /** A claim, a confirmed result, or the operator's answer about an operation whose outcome is open. */
  predicate RemoteStep(db: Db, world: World, event: Event) {
    match event.command
    case BeginUpload(_, attempt) => attempt.startedAt == event.now
    case BeginSubmission(_, attempt) => attempt.startedAt == event.now
    case ReportUpload(_, _, report) => report == ReportConfirmed(world.part)
    case ReportSubmission(_, _, report) => report == ReportConfirmed(world.receipt)
    case ResolveUpload(key, decision, _) =>
      && key in db.segments && UndecidedUpload(db.segments[key].upload)
      && decision == world.UploadAnswer(UploadOpOf(key, db.segments[key].upload))
    case ResolveSubmission(sid, decision, _) =>
      && sid in db.submissions && UndecidedSubmission(db.submissions[sid].state)
      && decision == world.SubmissionAnswer(SubmissionOpOf(sid, db.submissions[sid].state))
    case _ => false
  }

  /** Remote steps that all take effect, at times that never go back. */
  ghost predicate Path(db: Db, world: World, from: Timestamp, events: seq<Event>)
    decreases |events|
  {
    events == [] ||
    (&& RemoteStep(db, world, events[0]) && from <= events[0].now
     && Enabled(db, events[0].command)
     && Path(Effect(db, events[0].command, events[0].now), world, events[0].now, events[1..]))
  }

  ghost predicate IsSubmitted(db: Db, sid: Uuid) {
    sid in db.submissions && db.submissions[sid].state.Submitted?
  }

  // ----- The distance to submission -----

  ghost function Unsatisfied(db: Db, sid: Uuid): set<SegmentKey> {
    set k | k in db.segments && k.sid == sid && !RowSubmittable(db.segments[k])
  }

  ghost function Undecided(db: Db, sid: Uuid): set<SegmentKey> {
    set k | k in db.segments && k.sid == sid && !RowSubmittable(db.segments[k])
        && UndecidedUpload(db.segments[k].upload)
  }

  ghost function Waiting(db: Db, sid: Uuid): set<SegmentKey> {
    set k | k in db.segments && k.sid == sid && !RowSubmittable(db.segments[k]) && db.segments[k].upload.Pending?
  }

  /** How far the submission itself has got. */
  ghost function Stage(db: Db, sid: Uuid): nat {
    if sid !in db.submissions then 2
    else match db.submissions[sid].state
         case Submitted(_) => 0
         case Attempting(_) => 1
         case RetryScheduledAt(_, _, _) => 2
         case RetryAuthorized(_) => 2
         case _ => 3
  }

  ghost function GateClosed(db: Db, sid: Uuid): nat {
    if HasTarget(db, sid) && TargetOf(db, sid) in db.gates && db.gates[TargetOf(db, sid)].Blocked? then 1 else 0
  }

  /** The distance: unsatisfied segments, undecided uploads, waiting uploads, the submission, the gate. */
  ghost predicate Closer(before: Db, after: Db, sid: Uuid) {
    var (u, u') := (|Unsatisfied(before, sid)|, |Unsatisfied(after, sid)|);
    var (d, d') := (|Undecided(before, sid)|, |Undecided(after, sid)|);
    var (w, w') := (|Waiting(before, sid)|, |Waiting(after, sid)|);
    var (s, s') := (Stage(before, sid), Stage(after, sid));
    || u' < u
    || (u' == u && d' < d)
    || (u' == u && d' == d && w' < w)
    || (u' == u && d' == d && w' == w && s' < s)
    || (u' == u && d' == d && w' == w && s' == s && GateClosed(after, sid) < GateClosed(before, sid))
  }

  ghost predicate Advances(db: Db, world: World, sid: Uuid, from: Timestamp, event: Event) {
    && RemoteStep(db, world, event) && from <= event.now
    && Enabled(db, event.command)
    && Closer(db, Effect(db, event.command, event.now), sid)
  }

  ghost predicate CompletedPlan(db: Db, sid: Uuid) {
    HasTarget(db, sid) && db.sessions[sid].lifecycle.Completed()
  }

  // ----- Ingredients -----

  lemma {:induction false} FreshId<P>(h: Attempts<P>) returns (id: Uuid)
    ensures forall i | 0 <= i < |h| :: h[i].attempt.id < id
    ensures Position(h, id) == |h|
  {
    if |h| == 0 {
      id := 0;
    } else {
      var rest := FreshId(h[1..]);
      id := if h[0].attempt.id < rest then rest else h[0].attempt.id + 1;
      assert forall i | 1 <= i < |h| :: h[i] == h[1..][i - 1];
    }
  }

  /** A time from which the gate and the retry delay let a claim pass. */
  function ClaimTime(from: Timestamp, gate: TargetGate, retryAt: Option<Timestamp>): (t: Timestamp)
    ensures from <= t
    ensures !gate.Blocked? ==> gate.Admits(t)
    ensures retryAt.Some? ==> retryAt.value <= t
  {
    var a := if gate.Backoff? && gate.retryAt > from then gate.retryAt else from;
    if retryAt.Some? && retryAt.value > a then retryAt.value else a
  }

  /** In a completed session an unsatisfied segment is ready, with its upload waiting or undecided. */
  lemma UnsatisfiedRow(db: Db, sid: Uuid, key: SegmentKey)
    requires Inv(db) && CompletedPlan(db, sid) && key in Unsatisfied(db, sid)
    ensures sid !in db.submissions
    ensures db.segments[key].Key() == key && db.segments[key].artifact.Ready?
    ensures db.segments[key].upload.Pending? || db.segments[key].upload.Attempting?
            || UndecidedUpload(db.segments[key].upload)
    ensures RowFits(db.sessions[sid], db.segments[key])
  {
    assert SegmentOk(db, key);
    UndecidedMeansUnsubmitted(db, key);
  }

  lemma SmallerSet<T>(small: set<T>, big: set<T>, x: T)
    requires small <= big && x in big && x !in small
    ensures |small| < |big|
  {
    assert small <= big - {x};
    SubsetSize(small, big - {x});
  }

  lemma SubsetSize<T>(small: set<T>, big: set<T>)
    requires small <= big
    ensures |small| <= |big|
  {
    assert big == small + (big - small);
  }

  // ----- Steps on segments -----

  lemma ConfirmStep(db: Db, world: World, sid: Uuid, key: SegmentKey, from: Timestamp) returns (event: Event)
    requires Inv(db) && world.Valid() && CompletedPlan(db, sid) && key in Unsatisfied(db, sid)
    requires db.segments[key].upload.Attempting?
    ensures Advances(db, world, sid, from, event)
  {
    UnsatisfiedRow(db, sid, key);
    var segment := db.segments[key];
    event := Event(ReportUpload(key, segment.upload.attempt.id, ReportConfirmed(world.part)), from);
    FinishKeeps(segment.upload.attempt, segment.attempts, segment.resolutions, from, Confirmed(world.part));
    assert CanReportUpload(db, key, segment.upload.attempt.id, ReportConfirmed(world.part));
    var db' := Effect(db, event.command, event.now);
    assert RowSubmittable(db'.segments[key]);
    forall k | k in Unsatisfied(db', sid) ensures k in Unsatisfied(db, sid) {
    }
    SmallerSet(Unsatisfied(db', sid), Unsatisfied(db, sid), key);
  }

  /** The operator's answer settles the upload, or lets it be tried again. */
  lemma DecideStep(db: Db, world: World, sid: Uuid, key: SegmentKey, from: Timestamp) returns (event: Event)
    requires Inv(db) && world.Valid() && CompletedPlan(db, sid) && key in Undecided(db, sid)
    ensures Advances(db, world, sid, from, event)
  {
    assert key in Unsatisfied(db, sid);
    UnsatisfiedRow(db, sid, key);
    var segment := db.segments[key];
    var answer := world.UploadAnswer(UploadOpOf(key, segment.upload));
    event := Event(ResolveUpload(key, answer, None), from);
    ResolvedUploadFits(db.sessions[sid], segment, answer, None, from);
    assert CanResolveUpload(db, key, answer);
    DecidedIsCloser(db, Effect(db, event.command, event.now), sid, key);
  }

  lemma DecidedIsCloser(db: Db, db': Db, sid: Uuid, key: SegmentKey)
    requires key in Undecided(db, sid) && db'.segments.Keys == db.segments.Keys
    requires forall k | k in db.segments && k != key :: db'.segments[k] == db.segments[k]
    requires RowSubmittable(db'.segments[key]) || db'.segments[key].upload.Pending?
    ensures Closer(db, db', sid)
  {
    if RowSubmittable(db'.segments[key]) {
      SmallerSet(Unsatisfied(db', sid), Unsatisfied(db, sid), key);
    } else {
      assert Unsatisfied(db', sid) == Unsatisfied(db, sid);
      SmallerSet(Undecided(db', sid), Undecided(db, sid), key);
    }
  }

  lemma ClaimUploadStep(db: Db, world: World, sid: Uuid, key: SegmentKey, from: Timestamp) returns (event: Event)
    requires Inv(db) && CompletedPlan(db, sid) && key in Waiting(db, sid) && GateClosed(db, sid) == 0
    ensures Advances(db, world, sid, from, event)
  {
    assert key in Unsatisfied(db, sid);
    UnsatisfiedRow(db, sid, key);
    assert SessionOk(db, sid);
    var id := FreshId(db.segments[key].attempts);
    var now := ClaimTime(from, db.gates[TargetOf(db, sid)], db.segments[key].upload.retryAt);
    event := Event(BeginUpload(key, RemoteAttempt(id, now)), now);
    ClaimedIsCloser(db, Effect(db, event.command, now), sid, key);
  }

  lemma ClaimedIsCloser(db: Db, db': Db, sid: Uuid, key: SegmentKey)
    requires key in Waiting(db, sid) && db'.segments.Keys == db.segments.Keys
    requires forall k | k in db.segments && k != key :: db'.segments[k] == db.segments[k]
    requires db'.segments[key].upload.Attempting? && !RowSubmittable(db'.segments[key])
    ensures Closer(db, db', sid)
  {
    assert Unsatisfied(db', sid) == Unsatisfied(db, sid);
    assert Undecided(db', sid) == Undecided(db, sid);
    SmallerSet(Waiting(db', sid), Waiting(db, sid), key);
  }

  // ----- Opening the gate -----

  /** The session's own rows and its submission are as before. */
  ghost predicate SessionUntouched(db: Db, db': Db, sid: Uuid) {
    && (forall k: SegmentKey | k.sid == sid ::
          (k in db.segments <==> k in db'.segments) && (k in db.segments ==> db'.segments[k] == db.segments[k]))
    && (sid in db.submissions <==> sid in db'.submissions)
    && (sid in db.submissions ==> db'.submissions[sid] == db.submissions[sid])
  }

  lemma SameRowsSameSets(db: Db, db': Db, sid: Uuid)
    requires forall k: SegmentKey | k.sid == sid ::
               (k in db.segments <==> k in db'.segments) && (k in db.segments ==> db'.segments[k] == db.segments[k])
    ensures Unsatisfied(db', sid) == Unsatisfied(db, sid)
    ensures Undecided(db', sid) == Undecided(db, sid)
    ensures Waiting(db', sid) == Waiting(db, sid)
  {
  }

  lemma GateOpened(db: Db, db': Db, sid: Uuid)
    requires SessionUntouched(db, db', sid) && GateClosed(db, sid) == 1 && GateClosed(db', sid) == 0
    ensures Closer(db, db', sid)
  {
    SameRowsSameSets(db, db', sid);
  }

  lemma OpenUploadGate(db: Db, world: World, sid: Uuid, from: Timestamp, owner: RemoteOperation) returns (event: Event)
    requires Inv(db) && world.Valid() && CompletedPlan(db, sid) && GateClosed(db, sid) == 1
    requires db.gates[TargetOf(db, sid)].owner == owner && owner.UploadOp?
    requires Undecided(db, sid) == {}
    ensures Advances(db, world, sid, from, event)
  {
    hide HistoryOk, SessionOk, RoomOk, SubmissionOk;
    assert GateOk(db, TargetOf(db, sid));
    var key := SegmentKey(owner.sid, owner.index);
    var segment := db.segments[key];
    assert SegmentOk(db, key);
    UndecidedMeansUnsubmitted(db, key);
    var answer := world.UploadAnswer(owner);
    event := Event(ResolveUpload(key, answer, None), from);
    ResolvedUploadFits(db.sessions[owner.sid], segment, answer, None, from);
    assert CanResolveUpload(db, key, answer);
    assert owner.sid == sid ==> key in Undecided(db, sid);
    GateOpened(db, Effect(db, event.command, from), sid);
  }

  lemma OpenSubmissionGate(db: Db, world: World, sid: Uuid, from: Timestamp, owner: RemoteOperation)
    returns (event: Event)
    requires Inv(db) && world.Valid() && CompletedPlan(db, sid) && GateClosed(db, sid) == 1
    requires db.gates[TargetOf(db, sid)].owner == owner && owner.SubmissionOp?
    requires Stage(db, sid) != 3
    ensures Advances(db, world, sid, from, event)
  {
    assert GateOk(db, TargetOf(db, sid));
    assert SubmissionOk(db, owner.sid);
    var answer := world.SubmissionAnswer(owner);
    event := Event(ResolveSubmission(owner.sid, answer, None), from);
    DecidedSubmissionFits(db.submissions[owner.sid], answer, None, from);
    assert CanResolveSubmission(db, owner.sid, answer);
    GateOpened(db, Effect(db, event.command, from), sid);
  }

  // ----- Steps on the submission -----

  lemma AllPartsReady(db: Db, sid: Uuid)
    requires Inv(db) && CompletedPlan(db, sid) && Unsatisfied(db, sid) == {}
    ensures PartsReady(db, sid)
  {
    assert SessionOk(db, sid);
    forall k | k in db.segments && k.sid == sid ensures RowSubmittable(db.segments[k]) {
      assert k !in Unsatisfied(db, sid);
    }
    var k :| k in db.segments && k.sid == sid && db.segments[k].artifact.Usable();
    assert RowUploaded(db.segments[k]);
  }

  lemma ClaimSubmissionStep(db: Db, world: World, sid: Uuid, from: Timestamp) returns (event: Event)
    requires Inv(db) && CompletedPlan(db, sid) && Unsatisfied(db, sid) == {}
    requires Stage(db, sid) == 2 && GateClosed(db, sid) == 0
    ensures Advances(db, world, sid, from, event)
  {
    assert SessionOk(db, sid);
    AllPartsReady(db, sid);
    assert sid in db.submissions ==> SubmissionOk(db, sid);
    var h := if sid in db.submissions then db.submissions[sid].attempts else [];
    var id := FreshId(h);
    var retryAt := if sid in db.submissions && db.submissions[sid].state.RetryScheduledAt?
                   then Some(db.submissions[sid].state.retryAt) else None;
    var now := ClaimTime(from, db.gates[TargetOf(db, sid)], retryAt);
    event := Event(BeginSubmission(sid, RemoteAttempt(id, now)), now);
    assert CanBeginSubmission(db, sid, RemoteAttempt(id, now));
    var db' := Effect(db, event.command, now);
    SameRowsSameSets(db, db', sid);
  }

  lemma SubmissionAdvances(db: Db, db': Db, sid: Uuid)
    requires db'.segments == db.segments && Stage(db', sid) < Stage(db, sid)
    ensures Closer(db, db', sid)
  {
    SameRowsSameSets(db, db', sid);
  }

  lemma ConfirmSubmissionStep(db: Db, world: World, sid: Uuid, from: Timestamp) returns (event: Event)
    requires Inv(db) && world.Valid() && CompletedPlan(db, sid) && Stage(db, sid) == 1
    ensures Advances(db, world, sid, from, event)
  {
    assert SubmissionOk(db, sid);
    var row := db.submissions[sid];
    event := Event(ReportSubmission(sid, row.state.attempt.id, ReportConfirmed(world.receipt)), from);
    FinishKeeps(row.state.attempt, row.attempts, row.resolutions, from, Confirmed(world.receipt));
    assert CanReportSubmission(db, sid, row.state.attempt.id, ReportConfirmed(world.receipt));
    SubmissionAdvances(db, Effect(db, event.command, from), sid);
  }

  lemma DecideSubmissionStep(db: Db, world: World, sid: Uuid, from: Timestamp) returns (event: Event)
    requires Inv(db) && world.Valid() && CompletedPlan(db, sid) && Stage(db, sid) == 3
    ensures Advances(db, world, sid, from, event)
  {
    assert SubmissionOk(db, sid);
    var row := db.submissions[sid];
    var answer := world.SubmissionAnswer(SubmissionOpOf(sid, row.state));
    event := Event(ResolveSubmission(sid, answer, None), from);
    DecidedSubmissionFits(row, answer, None, from);
    assert CanResolveSubmission(db, sid, answer);
    SubmissionAdvances(db, Effect(db, event.command, from), sid);
  }

  // ----- The run -----

  lemma NextStep(db: Db, world: World, sid: Uuid, from: Timestamp) returns (event: Event)
    requires Inv(db) && world.Valid() && CompletedPlan(db, sid) && !IsSubmitted(db, sid)
    ensures Advances(db, world, sid, from, event)
  {
    hide Advances, Inv, Stage, GateClosed;
    if key :| key in Undecided(db, sid) {
      event := DecideStep(db, world, sid, key, from);
    } else if key :| key in Unsatisfied(db, sid) && db.segments[key].upload.Attempting? {
      event := ConfirmStep(db, world, sid, key, from);
    } else if Stage(db, sid) == 1 {
      event := ConfirmSubmissionStep(db, world, sid, from);
    } else if Stage(db, sid) == 3 {
      event := DecideSubmissionStep(db, world, sid, from);
    } else {
      event := QuietStep(db, world, sid, from);
    }
  }

  /** Nothing is in flight and nothing is open: the gate is opened, an upload claimed, or the submission. */
  lemma QuietStep(db: Db, world: World, sid: Uuid, from: Timestamp) returns (event: Event)
    requires Inv(db) && world.Valid() && CompletedPlan(db, sid) && !IsSubmitted(db, sid)
    requires Undecided(db, sid) == {} && Stage(db, sid) != 1 && Stage(db, sid) != 3
    requires forall k | k in Unsatisfied(db, sid) :: !db.segments[k].upload.Attempting?
    ensures Advances(db, world, sid, from, event)
  {
    hide Advances, Inv;
    if GateClosed(db, sid) == 1 {
      var owner := db.gates[TargetOf(db, sid)].owner;
      if owner.UploadOp? {
        event := OpenUploadGate(db, world, sid, from, owner);
      } else {
        event := OpenSubmissionGate(db, world, sid, from, owner);
      }
    } else if key :| key in Unsatisfied(db, sid) {
      UnsatisfiedRow(db, sid, key);
      assert key !in Undecided(db, sid);
      event := ClaimUploadStep(db, world, sid, key, from);
    } else {
      event := ClaimSubmissionStep(db, world, sid, from);
    }
  }

  lemma {:induction false} PathToSubmission(db: Db, world: World, sid: Uuid, from: Timestamp)
    returns (events: seq<Event>)
    requires Inv(db) && world.Valid() && CompletedPlan(db, sid)
    ensures Path(db, world, from, events) && IsSubmitted(Run(db, events), sid)
    decreases |Unsatisfied(db, sid)|, |Undecided(db, sid)|, |Waiting(db, sid)|, Stage(db, sid), GateClosed(db, sid)
  {
    hide Inv, RemoteStep;
    if IsSubmitted(db, sid) {
      events := [];
    } else {
      var event := NextStep(db, world, sid, from);
      var db' := Effect(db, event.command, event.now);
      EffectKeeps(db, event.command, event.now);
      EffectGrows(db, event.command, event.now);
      assert SessionGrows(db.sessions[sid], db'.sessions[sid]);
      var rest := PathToSubmission(db', world, sid, event.now);
      events := [event] + rest;
      assert events[1..] == rest;
    }
  }

  /**
    Main result: from every reachable database, at every time and whatever the operator answers, a
    completed session that is planned for Bilibili can still be submitted by remote steps alone.
   */
  lemma CompletedCanBeSubmitted(db: Db, world: World, sid: Uuid, from: Timestamp)
    requires Reachable(db) && world.Valid() && CompletedPlan(db, sid)
    ensures exists events :: Path(db, world, from, events) && IsSubmitted(Run(db, events), sid)
  {
    ReachableInv(db);
    var events := PathToSubmission(db, world, sid, from);
  }
}
