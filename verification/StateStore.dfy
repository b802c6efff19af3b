/**
  The state store and its write transactions. A transaction stages its writes on a copy of the
  tables; only a transaction that ran to its end is committed, so a failed one leaves no trace.
 */
module StateStore {
  import opened Wrappers
  import opened Model
  import opened History
  import opened Database
  import opened Transitions

  // ----- Scans -----

  /** The rows of one session, ascending by index, each once. */
  ghost predicate Lists(db: Db, sid: Uuid, rows: seq<Segment>) {
    && (forall i | 0 <= i < |rows| ::
          rows[i].sid == sid && rows[i].Key() in db.segments && db.segments[rows[i].Key()] == rows[i])
    && (forall i, j | 0 <= i < j < |rows| :: rows[i].index < rows[j].index)
    && (forall k | k in db.segments && k.sid == sid :: db.segments[k] in rows)
  }

  method SmallestIndex(indices: set<nat>) returns (m: nat)
    requires indices != {}
    ensures m in indices && forall x | x in indices :: m <= x
  {
    m :| m in indices;
    var rest := indices - {m};
    while rest != {}
      invariant rest <= indices && m in indices
      invariant forall x | x in indices :: x in rest || m <= x
      decreases rest
    {
      var x :| x in rest;
      if x < m { m := x; }
      rest := rest - {x};
    }
  }

  method ListSegments(db: Db, sid: Uuid) returns (rows: seq<Segment>)
    requires db.Keyed()
    ensures Lists(db, sid, rows)
  {
    rows := [];
    var left := SegmentIndices(db, sid);
    while left != {}
      invariant left <= SegmentIndices(db, sid)
      invariant forall i | 0 <= i < |rows| ::
                  rows[i].sid == sid && rows[i].Key() in db.segments && db.segments[rows[i].Key()] == rows[i]
      invariant forall i, j | 0 <= i < j < |rows| :: rows[i].index < rows[j].index
      invariant forall i, x | 0 <= i < |rows| && x in left :: rows[i].index < x
      invariant forall k | k in db.segments && k.sid == sid && k.index !in left :: db.segments[k] in rows
      decreases left
    {
      var index := SmallestIndex(left);
      var row := db.segments[SegmentKey(sid, index)];
      rows := rows + [row];
      left := left - {index};
    }
    forall k | k in db.segments && k.sid == sid ensures db.segments[k] in rows {
      assert k.index in SegmentIndices(db, sid);
    }
  }

  // ----- Ledger updates -----

  method FindAttempt<P>(h: Attempts<P>, id: Uuid) returns (i: nat)
    ensures i == Position(h, id)
  {
    i := 0;
    while i < |h| && h[i].attempt.id != id
      invariant i <= |h|
      invariant forall k | 0 <= k < i :: h[k].attempt.id != id
    {
      i := i + 1;
    }
  }

  method FinishHistory<P>(h: Attempts<P>, id: Uuid, at: Timestamp, outcome: AttemptOutcome<P>)
    returns (r: Result<Attempts<P>>)
    ensures r.Success? <==> OpenRecord(h, id)
    ensures r.Success? ==> r.value == FinishAttempt(h, id, at, outcome)
  {
    var i := FindAttempt(h, id);
    if i == |h| {
      return Failure("attempt has no history record");
    }
    if h[i].finishedAt.Some? || h[i].outcome.Some? {
      return Failure("attempt is already finished");
    }
    return Success(h[i := h[i].(finishedAt := Some(at), outcome := Some(outcome))]);
  }

  method FinishUnfinishedAsAmbiguous<P>(h: Attempts<P>, id: Uuid, now: Timestamp) returns (r: Result<Attempts<P>>)
    ensures r.Success? <==> Position(h, id) < |h|
    ensures r.Success? ==> r.value == FinishIfOpen(h, id, now)
  {
    var i := FindAttempt(h, id);
    if i == |h| {
      return Failure("attempt has no history record");
    }
    if h[i].outcome.None? {
      return Success(h[i := h[i].(finishedAt := Some(now), outcome := Some(AmbiguousOutcome(INTERRUPTED)))]);
    }
    return Success(h);
  }

  method CountRetries<P>(h: Attempts<P>) returns (n: nat)
    ensures n == RetryCount(h)
  {
    n := 0;
    for i := 0 to |h|
      invariant n == RetryCount(h[..i])
    {
      assert h[..i + 1][..i] == h[..i];
      if h[i].outcome.Some? && h[i].outcome.value.RetryScheduled? {
        n := n + 1;
      }
    }
    assert h[..|h|] == h;
  }

  // ----- Checks inside a transaction -----

  function NeedValue(condition: bool, error: string): (r: Result<()>)
    ensures r.Success? <==> condition
  {
    if condition then Success(()) else Failure(error)
  }

  function RequireSession(txn: Db, sid: Uuid): (r: Result<LiveSession>)
    ensures r.Success? <==> sid in txn.sessions
    ensures r.Success? ==> r.value == txn.sessions[sid]
  {
    if sid in txn.sessions then Success(txn.sessions[sid]) else Failure("session does not exist")
  }

  function RequireSegment(txn: Db, key: SegmentKey): (r: Result<Segment>)
    ensures r.Success? <==> key in txn.segments
    ensures r.Success? ==> r.value == txn.segments[key]
  {
    if key in txn.segments then Success(txn.segments[key]) else Failure("segment does not exist")
  }

  function SessionTarget(txn: Db, sid: Uuid): (r: Result<UploadTarget>)
    ensures r.Success? <==> HasTarget(txn, sid)
    ensures r.Success? ==> r.value == TargetOf(txn, sid)
  {
    if sid !in txn.sessions then Failure("session does not exist")
    else if txn.sessions[sid].outputPlan.LocalOnly? then Failure("session is configured LocalOnly")
    else Success(txn.sessions[sid].outputPlan.upload.target)
  }

  /** `require_or_claim_recovery_owner` */
  method ClaimRecoveryOwner(txn: Db, session: LiveSession, now: Timestamp) returns (r: Result<Db>)
    ensures r.Success? <==> CanClaimRoom(txn, session)
    ensures r.Success? ==> r.value == ClaimRoom(txn, session, now)
  {
    if session.lifecycle.Closed? {
      return Failure("closed session cannot claim room ownership");
    }
    var desired := if session.lifecycle.Open? then RoomLifecycle.Owned(session.id)
        else RoomLifecycle.Blocked(session.id);
    if session.roomId in txn.rooms {
      var current := txn.rooms[session.roomId].lifecycle;
      if !current.Ready? && current.sid != session.id {
        return Failure("room is owned by another session; refusing recovery claim");
      }
      if current == desired {
        return Success(txn);
      }
    }
    var message := if session.lifecycle.RecoveryRequired? then Some(session.lifecycle.reason) else None;
    return Success(txn.PutRoom(session.roomId, desired, now, message));
  }

  /** Who may update a recording artifact: the open owner only, or whoever can claim the room for recovery. */
  method RecordingClaim(txn: Db, session: LiveSession, requireOpen: bool, now: Timestamp) returns (r: Result<Db>)
    ensures r.Success? <==> if requireOpen then session.lifecycle.Open? && OwnsRoom(txn, session)
            else CanClaimRoom(txn, session)
    ensures r.Success? ==> r.value == ClaimRoom(txn, session, now)
  {
    if requireOpen {
      var _ :- NeedValue(session.lifecycle.Open? && OwnsRoom(txn, session), "session is not open and owning its room");
      return Success(txn);
    }
    var _ :- NeedValue(!session.lifecycle.Closed?, "session is already closed");
    r := ClaimRecoveryOwner(txn, session, now);
  }

  /** The operator's decision written into the segment row, and the operation it settles. */
  method DecideUpload(session: LiveSession, row: Segment, decision: OperatorDecision<UploadedPart>,
      note: Option<string>, now: Timestamp)
    returns (r: Result<Segment>, owner: Option<RemoteOperation>)
    requires UploadRecoverable(row.upload)
    ensures r.Success? <==> HasRecord(row.attempts, UploadAttemptId(row.upload))
    ensures r.Success? ==> r.value == UploadResolvedRow(session, row, decision, note, now)
    ensures owner == if UploadAttemptId(row.upload).Some?
            then Some(UploadOp(row.sid, row.index, UploadAttemptId(row.upload).value)) else None
  {
    var segment := row;
    var id := UploadAttemptId(segment.upload);
    owner := None;
    if id.Some? {
      owner := Some(UploadOp(row.sid, row.index, id.value));
      var h := FinishUnfinishedAsAmbiguous(segment.attempts, id.value, now);
      if h.Failure? {
        return Failure(h.error), owner;
      }
      segment := segment.(attempts := h.value);
    }
    segment := segment.(resolutions := segment.resolutions + [OperatorResolution(id, now, decision, note)]);
    var upload := match decision
      case ConfirmedDone(proof) => Uploaded(proof)
      case ConfirmedNotDone =>
        (match session.lifecycle
         case Closed(Abandoned(_, _)) => Cancelled(now)
         case Closed(NoUsableRecording(_)) => Cancelled(now)
         case _ => FreshPending);
    segment := segment.(upload := upload);
    return Success(segment), owner;
  }

  method ConsumeTargetReady(txn: Db, target: UploadTarget, now: Timestamp) returns (r: Result<Db>)
    ensures r.Success? <==> GateAdmits(txn, target, now)
    ensures r.Success? ==> r.value == txn.PutGate(target, TargetGate.Ready)
  {
    if target !in txn.gates {
      return Failure("upload target has no durable gate");
    }
    match txn.gates[target]
    case Ready =>
      assert txn.PutGate(target, TargetGate.Ready).gates == txn.gates;
      return Success(txn);
    case Backoff(_, _, retryAt, _) =>
      if retryAt <= now {
        return Success(txn.PutGate(target, TargetGate.Ready));
      }
      return Failure("upload target is in backoff");
    case Blocked(_, _, _) =>
      return Failure("upload target is blocked");
  }

  method ClearTargetGateIfOwner(txn: Db, target: UploadTarget, expected: Option<RemoteOperation>) returns (txn': Db)
    ensures txn' == GateCleared(txn, target, expected)
  {
    if expected.None? || target !in txn.gates {
      return txn;
    }
    match txn.gates[target]
    case Ready => return txn;
    case Backoff(owner, _, _, _) =>
      return if owner == expected.value then txn.PutGate(target, TargetGate.Ready) else txn;
    case Blocked(owner, _, _) =>
      return if owner == expected.value then txn.PutGate(target, TargetGate.Ready) else txn;
  }

  method RequireSubmissionParts(txn: Db, sid: Uuid) returns (r: Outcome)
    requires txn.Keyed()
    ensures r.Pass? <==> PartsReady(txn, sid)
  {
    var rows := ListSegments(txn, sid);
    var uploaded := 0;
    for i := 0 to |rows|
      invariant forall j | 0 <= j < i :: RowSubmittable(rows[j])
      invariant uploaded > 0 <==> exists j :: 0 <= j < i && RowUploaded(rows[j])
    {
      var row := rows[i];
      if row.artifact.Filtered? || row.artifact.Excluded? {
      } else if row.artifact.Usable() && row.upload.Uploaded? {
        uploaded := uploaded + 1;
        assert RowUploaded(rows[i]);
      } else {
        assert !RowSubmittable(txn.segments[row.Key()]);
        return Fail("segment is not ready for submission");
      }
    }
    if uploaded == 0 {
      forall k | k in txn.segments && k.sid == sid ensures !RowUploaded(txn.segments[k]) {
        var j :| 0 <= j < |rows| && rows[j] == txn.segments[k];
      }
      return Fail("session has no uploaded parts");
    }
    var j :| 0 <= j < |rows| && RowUploaded(rows[j]);
    assert RowUploaded(txn.segments[rows[j].Key()]);
    forall k | k in txn.segments && k.sid == sid ensures RowSubmittable(txn.segments[k]) {
      var j :| 0 <= j < |rows| && rows[j] == txn.segments[k];
    }
    return Pass;
  }

  // ----- Closing loops -----

  datatype CloseResult = CloseResult(lifecycle: SessionLifecycle, excluded: seq<nat>)

  /** The first row whose artifact intent is open. */
  method FirstUnresolved(db: Db, sid: Uuid, rows: seq<Segment>) returns (found: Option<Segment>)
    requires db.Keyed() && Lists(db, sid, rows)
    ensures found.None? <==> UnresolvedIndices(db, sid) == {}
    ensures found.Some? ==>
              found.value.Key() in db.segments && db.segments[found.value.Key()] == found.value
              && found.value.sid == sid
    ensures found.Some? ==> found.value.index == Least(UnresolvedIndices(db, sid))
  {
    for i := 0 to |rows|
      invariant forall j | 0 <= j < i :: !rows[j].artifact.Unresolved()
    {
      if rows[i].artifact.Unresolved() {
        assert rows[i].Key().index in UnresolvedIndices(db, sid);
        LeastRow(db, sid, rows, i, UnresolvedIndices(db, sid));
        return Some(rows[i]);
      }
    }
    NoRow(db, sid, rows, UnresolvedIndices(db, sid));
    return None;
  }

  /** The first row that failed. */
  method FirstFailed(db: Db, sid: Uuid, rows: seq<Segment>) returns (found: Option<Segment>)
    requires db.Keyed() && Lists(db, sid, rows)
    ensures found.None? <==> FailedIndices(db, sid) == {}
    ensures found.Some? ==> found.value.sid == sid && found.value.index == Least(FailedIndices(db, sid))
  {
    for i := 0 to |rows|
      invariant forall j | 0 <= j < i :: !rows[j].artifact.Failed?
    {
      if rows[i].artifact.Failed? {
        assert rows[i].Key().index in FailedIndices(db, sid);
        LeastRow(db, sid, rows, i, FailedIndices(db, sid));
        return Some(rows[i]);
      }
    }
    NoRow(db, sid, rows, FailedIndices(db, sid));
    return None;
  }

  lemma LeastRow(db: Db, sid: Uuid, rows: seq<Segment>, i: nat, indices: set<nat>)
    requires db.Keyed() && Lists(db, sid, rows) && i < |rows|
    requires indices <= SegmentIndices(db, sid) && rows[i].index in indices
    requires forall j | 0 <= j < i :: rows[j].index !in indices
    ensures Least(indices) == rows[i].index
  {
    var m := Least(indices);
    var k :| k in db.segments && k.sid == sid && k.index == m;
    var j :| 0 <= j < |rows| && rows[j] == db.segments[k];
    assert j >= i;
  }

  lemma NoRow(db: Db, sid: Uuid, rows: seq<Segment>, indices: set<nat>)
    requires db.Keyed() && Lists(db, sid, rows) && indices <= SegmentIndices(db, sid)
    requires forall j | 0 <= j < |rows| :: rows[j].index !in indices
    ensures indices == {}
  {
    forall x | x in SegmentIndices(db, sid) ensures x !in indices {
      var k :| k in db.segments && k.sid == sid && k.index == x;
      var j :| 0 <= j < |rows| && rows[j] == db.segments[k];
    }
  }

  /** `abandon_upload` */
  method AbandonUpload(row: Segment, now: Timestamp) returns (r: Result<Segment>)
    ensures r.Success? <==> row.upload.Attempting? ==> Position(row.attempts, row.upload.attempt.id) < |row.attempts|
    ensures r.Success? ==> r.value == UploadAbandoned(row, now)
  {
    match row.upload
    case Attempting(attempt) =>
      var h :- FinishUnfinishedAsAmbiguous(row.attempts, attempt.id, now);
      return Success(row.(attempts := h,
                          upload := UploadState.Ambiguous(attempt,
                              Text("session was abandoned while upload outcome was unknown"))));
    case Pending(_, _, _) => return Success(row.(upload := Cancelled(now)));
    case Blocked(_, _) => return Success(row.(upload := Cancelled(now)));
    case _ => return Success(row);
  }

  /** A transaction that has rewritten the first `i` listed rows. */
  ghost predicate Rewritten(db: Db, sid: Uuid, rows: seq<Segment>, i: nat, f: Segment -> Segment, txn: Db)
    requires i <= |rows|
  {
    && txn == db.(segments := txn.segments) && txn.segments.Keys == db.segments.Keys
    && (forall j | 0 <= j < |rows| :: rows[j].Key() in db.segments)
    && (forall j | 0 <= j < i :: txn.segments[rows[j].Key()] == f(rows[j]))
    && (forall j | i <= j < |rows| :: txn.segments[rows[j].Key()] == rows[j])
    && (forall k | k in db.segments && k.sid != sid :: txn.segments[k] == db.segments[k])
  }

  lemma RewrittenNone(db: Db, sid: Uuid, rows: seq<Segment>, f: Segment -> Segment)
    requires db.Keyed() && Lists(db, sid, rows)
    ensures Rewritten(db, sid, rows, 0, f, db)
  {
  }

  lemma RewrittenNext(db: Db, sid: Uuid, rows: seq<Segment>, i: nat, f: Segment -> Segment, txn: Db)
    requires db.Keyed() && Lists(db, sid, rows) && i < |rows|
    requires Rewritten(db, sid, rows, i, f, txn)
    requires f(rows[i]).Key() == rows[i].Key()
    ensures Rewritten(db, sid, rows, i + 1, f, txn.PutSegment(f(rows[i])))
  {
    var txn' := txn.PutSegment(f(rows[i]));
    forall j | 0 <= j < |rows| && j != i ensures txn'.segments[rows[j].Key()] == txn.segments[rows[j].Key()] {
      assert rows[j].index != rows[i].index;
    }
  }

  lemma RewrittenAll(db: Db, sid: Uuid, rows: seq<Segment>, f: Segment -> Segment, txn: Db)
    requires db.Keyed() && Lists(db, sid, rows)
    requires Rewritten(db, sid, rows, |rows|, f, txn)
    ensures txn.segments == map k | k in db.segments :: if k.sid == sid then f(db.segments[k]) else db.segments[k]
  {
    forall k | k in db.segments && k.sid == sid ensures txn.segments[k] == f(db.segments[k]) {
      var j :| 0 <= j < |rows| && rows[j] == db.segments[k];
      assert rows[j].Key() == k;
    }
  }

  /** An attempt in flight may have left something behind; what certainly has not is cancelled, and the rest stays. */
  predicate UploadGivenUp(before: Segment, after: Segment, now: Timestamp) {
    && after == before.(upload := after.upload, attempts := after.attempts)
    && match before.upload
       case Attempting(attempt) => after.upload.Ambiguous? && after.upload.attempt == attempt
       case Pending(_, _, _) => after.upload == Cancelled(now) && after.attempts == before.attempts
       case Blocked(_, _) => after.upload == Cancelled(now) && after.attempts == before.attempts
       case _ => after == before
  }

  method AbandonRow(txn: Db, row: Segment, now: Timestamp) returns (r: Result<Db>)
    ensures r.Success? <==> RowAbandonable(row)
    ensures r.Success? ==> r.value == txn.PutSegment(UploadAbandoned(row, now))
  {
    var _ :- NeedValue(!row.artifact.Unresolved(), "segment has unresolved artifact intent");
    var abandoned :- AbandonUpload(row, now);
    return Success(txn.PutSegment(abandoned));
  }

  ghost predicate AllAbandonable(db: Db, sid: Uuid) {
    forall k | k in db.segments && k.sid == sid :: RowAbandonable(db.segments[k])
  }

  method AbandonRows(db: Db, sid: Uuid, rows: seq<Segment>, now: Timestamp) returns (r: Result<Db>)
    requires db.Keyed() && Lists(db, sid, rows)
    ensures r.Success? <==> AllAbandonable(db, sid)
    ensures r.Success? ==> r.value == db.(segments := RowsAbandoned(db, sid, now))
    ensures r.Success? ==> forall k | k in db.segments && k.sid == sid ::
              UploadGivenUp(db.segments[k], r.value.segments[k], now)
  {
    hide RowAbandonable, AllAbandonable, RowsAbandoned, Rewritten, Lists;
    ghost var f := (row: Segment) => UploadAbandoned(row, now);
    var txn := db;
    RewrittenNone(db, sid, rows, f);
    for i := 0 to |rows|
      invariant forall j | 0 <= j < i :: RowAbandonable(rows[j])
      invariant Rewritten(db, sid, rows, i, f, txn)
    {
      assert f(rows[i]).Key() == rows[i].Key();
      hide UploadAbandoned;
      var next := AbandonRow(txn, rows[i], now);
      if next.Failure? {
        ListedAbandonable(db, sid, rows);
        return next;
      }
      RewrittenNext(db, sid, rows, i, f, txn);
      txn := next.value;
    }
    ListedAbandonable(db, sid, rows);
    AbandonedAll(db, sid, rows, f, now, txn);
    EachGivenUp(db, sid, now);
    return Success(txn);
  }

  lemma EachGivenUp(db: Db, sid: Uuid, now: Timestamp)
    ensures forall k | k in db.segments && k.sid == sid ::
              UploadGivenUp(db.segments[k], RowsAbandoned(db, sid, now)[k], now)
  {
  }

  lemma AbandonedAll(db: Db, sid: Uuid, rows: seq<Segment>, f: Segment -> Segment, now: Timestamp, txn: Db)
    requires db.Keyed() && Lists(db, sid, rows) && Rewritten(db, sid, rows, |rows|, f, txn)
    requires forall row :: f(row) == UploadAbandoned(row, now)
    ensures txn == db.(segments := RowsAbandoned(db, sid, now))
  {
    RewrittenAll(db, sid, rows, f, txn);
  }

  lemma ListedAbandonable(db: Db, sid: Uuid, rows: seq<Segment>)
    requires db.Keyed() && Lists(db, sid, rows)
    ensures AllAbandonable(db, sid) <==> forall j | 0 <= j < |rows| :: RowAbandonable(rows[j])
  {
    if forall j | 0 <= j < |rows| :: RowAbandonable(rows[j]) {
      forall k | k in db.segments && k.sid == sid ensures RowAbandonable(db.segments[k]) {
        var j :| 0 <= j < |rows| && rows[j] == db.segments[k];
      }
    } else {
      var j :| 0 <= j < |rows| && !RowAbandonable(rows[j]);
      assert !RowAbandonable(db.segments[rows[j].Key()]);
    }
  }

  /** The excluded indices, in order and exactly the failed ones. */
  ghost predicate ExactlyFailed(db: Db, sid: Uuid, excluded: seq<nat>) {
    && (forall i, j | 0 <= i < j < |excluded| :: excluded[i] < excluded[j])
    && (forall x | x in excluded :: x in FailedIndices(db, sid))
    && (forall x | x in FailedIndices(db, sid) :: x in excluded)
  }

  method ExcludeFailedRow(txn: Db, row: Segment) returns (txn': Db, indices: seq<nat>)
    requires row.Key() in txn.segments && txn.segments[row.Key()] == row
    ensures txn' == txn.PutSegment(FailureExcluded(row))
    ensures indices == if row.artifact.Failed? then [row.index] else []
  {
    if row.artifact.Failed? {
      var excluded := row.(artifact := Excluded(OperatorExcluded(row.artifact.reason)));
      excluded := excluded.(upload := NotPlanned);
      return txn.PutSegment(excluded), [row.index];
    }
    assert txn.PutSegment(row).segments == txn.segments;
    return txn, [];
  }

  /** The failed rows, taken out of the recording; their indices come back in order. */
  method ExcludeFailedRows(db: Db, sid: Uuid, rows: seq<Segment>) returns (txn: Db, excluded: seq<nat>)
    requires db.Keyed() && Lists(db, sid, rows)
    ensures txn == db.(segments := RowsExcluded(db, sid))
    ensures ExactlyFailed(db, sid, excluded)
  {
    hide Rewritten, Lists, RowsExcluded, ExactlyFailed;
    txn := db;
    excluded := [];
    RewrittenNone(db, sid, rows, FailureExcluded);
    for i := 0 to |rows|
      invariant Rewritten(db, sid, rows, i, FailureExcluded, txn)
      invariant excluded == FailedOf(rows[..i])
    {
      assert rows[..i + 1][..i] == rows[..i];
      RewrittenRow(db, sid, rows, i, FailureExcluded, txn);
      RewrittenNext(db, sid, rows, i, FailureExcluded, txn);
      var indices;
      txn, indices := ExcludeFailedRow(txn, rows[i]);
      excluded := excluded + indices;
    }
    assert rows[..|rows|] == rows;
    ExcludedAll(db, sid, rows, txn);
    FailedOfExact(db, sid, rows);
  }

  lemma RewrittenRow(db: Db, sid: Uuid, rows: seq<Segment>, i: nat, f: Segment -> Segment, txn: Db)
    requires i < |rows| && Rewritten(db, sid, rows, i, f, txn)
    ensures rows[i].Key() in txn.segments && txn.segments[rows[i].Key()] == rows[i]
  {
  }

  lemma ExcludedAll(db: Db, sid: Uuid, rows: seq<Segment>, txn: Db)
    requires db.Keyed() && Lists(db, sid, rows) && Rewritten(db, sid, rows, |rows|, FailureExcluded, txn)
    ensures txn == db.(segments := RowsExcluded(db, sid))
  {
    RewrittenAll(db, sid, rows, FailureExcluded, txn);
  }

  function FailedOf(rows: seq<Segment>): seq<nat> {
    if |rows| == 0 then []
    else FailedOf(rows[..|rows| - 1]) + if rows[|rows| - 1].artifact.Failed? then [rows[|rows| - 1].index] else []
  }

  ghost predicate FailedAt(rows: seq<Segment>, j: nat, x: nat) {
    j < |rows| && rows[j].index == x && rows[j].artifact.Failed?
  }

  lemma {:induction false} FailedOfIsSound(rows: seq<Segment>, x: nat)
    requires x in FailedOf(rows)
    ensures exists j: nat :: FailedAt(rows, j, x)
  {
    var front := rows[..|rows| - 1];
    if x in FailedOf(front) {
      FailedOfIsSound(front, x);
      var j: nat :| FailedAt(front, j, x);
      assert FailedAt(rows, j, x);
    } else {
      assert FailedAt(rows, |rows| - 1, x);
    }
  }

  lemma {:induction false} FailedOfIsComplete(rows: seq<Segment>, j: nat, x: nat)
    requires FailedAt(rows, j, x)
    ensures x in FailedOf(rows)
  {
    if j < |rows| - 1 {
      FailedOfIsComplete(rows[..|rows| - 1], j, x);
    }
  }

  lemma {:induction false} FailedOfAscends(rows: seq<Segment>)
    requires forall i, j | 0 <= i < j < |rows| :: rows[i].index < rows[j].index
    ensures forall i, j | 0 <= i < j < |FailedOf(rows)| :: FailedOf(rows)[i] < FailedOf(rows)[j]
  {
    if |rows| > 0 {
      var front := rows[..|rows| - 1];
      FailedOfAscends(front);
      forall i | 0 <= i < |FailedOf(front)| ensures FailedOf(front)[i] < rows[|rows| - 1].index {
        FailedOfIsSound(front, FailedOf(front)[i]);
        var j: nat :| FailedAt(front, j, FailedOf(front)[i]);
        assert rows[j].index < rows[|rows| - 1].index;
      }
    }
  }

  lemma FailedOfExact(db: Db, sid: Uuid, rows: seq<Segment>)
    requires db.Keyed() && Lists(db, sid, rows)
    ensures ExactlyFailed(db, sid, FailedOf(rows))
  {
    FailedOfAscends(rows);
    forall x | x in FailedOf(rows) ensures x in FailedIndices(db, sid) {
      FailedOfIsSound(rows, x);
      var j: nat :| FailedAt(rows, j, x);
      assert rows[j].Key().index == x;
    }
    forall x | x in FailedIndices(db, sid) ensures x in FailedOf(rows) {
      var k :| k in db.segments && k.sid == sid && db.segments[k].artifact.Failed? && k.index == x;
      var j :| 0 <= j < |rows| && rows[j] == db.segments[k];
      FailedOfIsComplete(rows, j, x);
    }
  }

  method AnyUsable(db: Db, sid: Uuid, rows: seq<Segment>) returns (found: bool)
    requires db.Keyed() && Lists(db, sid, rows)
    ensures found <==> HasUsable(db, sid)
  {
    found := false;
    for i := 0 to |rows|
      invariant found <==> exists j :: 0 <= j < i && rows[j].artifact.Usable()
    {
      if rows[i].artifact.Usable() {
        found := true;
      }
    }
    if found {
      var j :| 0 <= j < |rows| && rows[j].artifact.Usable();
      assert rows[j].Key() in db.segments;
    }
    if HasUsable(db, sid) {
      var k :| k in db.segments && k.sid == sid && db.segments[k].artifact.Usable();
      var j :| 0 <= j < |rows| && rows[j] == db.segments[k];
      assert rows[j].artifact.Usable();
    }
  }

  /** Recovery may finish when no intent is open and no failed segment is left without a decision. */
  method RecoverableFailures(txn: Db, session: LiveSession, rows: seq<Segment>, excludeFailed: bool, now: Timestamp)
    returns (r: Result<()>)
    requires txn.Keyed() && Lists(txn, session.id, rows)
    ensures r.Success? <==>
              && CanClaimRoom(txn, session)
              && UnresolvedIndices(txn, session.id) == {}
              && (excludeFailed || FailedIndices(txn, session.id) == {})
  {
    var _ :- ClaimRecoveryOwner(txn, session, now);
    var unresolved := FirstUnresolved(txn, session.id, rows);
    var _ :- NeedValue(unresolved.None?, "segment has unresolved artifact intent");
    var failed := FirstFailed(txn, session.id, rows);
    var _ :- NeedValue(failed.None? || excludeFailed, "segment is Failed and requires exclusion or abandonment");
    return Success(());
  }

  // ----- The store -----

  method MoveTransaction(db: Db, key: SegmentKey, move: ArtifactMove, now: Timestamp) returns (r: Result<Db>)
    requires db.Keyed()
    ensures r.Success? <==> CanMoveArtifact(db, key, move)
    ensures r.Success? ==> r.value == ArtifactMoved(db, key, move, now) && r.value.Keyed() && key in r.value.segments
  {
    var txn := db;
    var session :- RequireSession(txn, key.sid);
    txn :- RecordingClaim(txn, session, move.RequiresOpen(), now);
    var segment :- RequireSegment(txn, key);
    var moved := MoveArtifact(segment, move);
    var _ :- NeedValue(moved.Some?, "segment is not in the expected artifact state");
    return Success(txn.PutSegment(moved.value));
  }

  lemma ClaimFrame(db: Db, session: LiveSession, now: Timestamp)
    requires db.Keyed() && CanClaimRoom(db, session)
    ensures var claimed := ClaimRoom(db, session, now);
            claimed.Keyed() && claimed == db.(rooms := claimed.rooms)
  {
  }

  method ConflictTransaction(db: Db, key: SegmentKey, decision: ArtifactDecision, note: Option<string>, now: Timestamp)
    returns (r: Result<Db>)
    requires db.Keyed()
    ensures r.Success? <==> CanBeginConflict(db, key)
    ensures r.Success? ==>
              r.value == ConflictBegun(db, key, decision, note, now) && r.value.Keyed() && key in r.value.segments
  {
    hide CanClaimRoom, ClaimRoom;
    var txn := db;
    var session :- RequireSession(txn, key.sid);
    var _ :- NeedValue(session.lifecycle.RecoveryRequired?, "session must be RecoveryRequired");
    txn :- ClaimRecoveryOwner(txn, session, now);
    ClaimFrame(db, session, now);
    var segment :- RequireSegment(txn, key);
    var _ :- NeedValue(segment.artifact.Finalizing?
        || segment.artifact.Discarding?, "segment is not Finalizing or Discarding");
    var closeReason := segment.artifact.closeReason;
    segment := segment.(artifactResolutions := segment.artifactResolutions + [ArtifactResolution(now, decision, note)]);
    segment := segment.(artifact := ResolvingConflict(closeReason, decision));
    return Success(txn.PutSegment(segment));
  }

  class Store {
    var sessions: map<Uuid, LiveSession>
    var segments: map<SegmentKey, Segment>
    var submissions: map<Uuid, Submission>
    var rooms: map<RoomId, RoomState>
    var gates: map<UploadTarget, TargetGate>

    function Snapshot(): Db
      reads this
    {
      Db(sessions, segments, submissions, rooms, gates)
    }

    ghost predicate Valid()
      reads this
    {
      Snapshot().Keyed()
    }

    constructor ()
      ensures Valid() && Snapshot() == EMPTY
    {
      sessions, segments, submissions, rooms, gates := map[], map[], map[], map[], map[];
    }

    /** The only write: the staged tables replace the stored ones in one step. */
    method Commit(txn: Db)
      requires txn.Keyed()
      modifies this
      ensures Valid() && Snapshot() == txn
    {
      sessions, segments, submissions := txn.sessions, txn.segments, txn.submissions;
      rooms, gates := txn.rooms, txn.gates;
    }

    /** The command took effect if and only if it was enabled, and otherwise nothing changed. */
    twostate predicate Performs(command: Command, now: Timestamp, success: bool)
      reads this
    {
      && Valid()
      && (success <==> Enabled(old(Snapshot()), command))
      && Snapshot() == Apply(old(Snapshot()), command, now)
    }

    // ----- Sessions -----

    method CreateSession(session: LiveSession, now: Timestamp) returns (r: Outcome)
      requires Valid()
      modifies this
      ensures Performs(Command.CreateSession(session), now, r.Pass?)
    {
      if !AcceptableNewSession(session) {
        return Fail("session is not acceptable");
      }
      var txn := Snapshot();
      if session.id in txn.sessions {
        return Fail("session already exists");
      }
      var left := txn.sessions.Keys;
      while left != {}
        invariant left <= txn.sessions.Keys
        invariant forall id | id in txn.sessions.Keys - left && txn.sessions[id].roomId == session.roomId ::
                    txn.sessions[id].lifecycle.Closed?
        decreases left
      {
        var id :| id in left;
        if txn.sessions[id].roomId == session.roomId && !txn.sessions[id].lifecycle.Closed? {
          return Fail("room already has a non-closed session");
        }
        left := left - {id};
      }
      assert forall id | id in txn.sessions :: id in txn.sessions.Keys - left;
      if session.roomId in txn.rooms && !txn.rooms[session.roomId].lifecycle.Ready? {
        return Fail("room is already owned");
      }
      txn := txn.PutSession(session);
      txn := txn.PutRoom(session.roomId, RoomLifecycle.Owned(session.id), now, None);
      if session.outputPlan.Bilibili? && session.outputPlan.upload.target !in txn.gates {
        txn := txn.PutGate(session.outputPlan.upload.target, TargetGate.Ready);
      }
      Commit(txn);
      return Pass;
    }

    method RequireRecovery(sid: Uuid, reason: Reason, now: Timestamp) returns (r: Result<SessionLifecycle>)
      requires Valid()
      modifies this
      ensures Performs(Command.RequireRecovery(sid, reason), now, r.Success?)
      ensures r.Success? ==> sid in sessions && r.value == sessions[sid].lifecycle
    {
      var _ :- NeedValue(!reason.Blank(), "recovery reason must not be empty");
      var txn := Snapshot();
      var session :- RequireSession(txn, sid);
      if session.lifecycle.Closed? {
        return Failure("session is already closed");
      }
      if session.lifecycle.RecoveryRequired? {
        var current := session.lifecycle.reason;
        if current != reason && !HasRecorded(session, reason) {
          session := session.(events := session.events + [RecoveryDetected(now, reason)]);
          txn := txn.PutSession(session);
        }
        txn :- ClaimRecoveryOwner(txn, session, now);
        txn := txn.PutRoom(session.roomId, RoomLifecycle.Blocked(sid), now, Some(current));
        assert txn.sessions == Snapshot().sessions[sid := session];
        Commit(txn);
        return Success(session.lifecycle);
      }
      txn :- ClaimRecoveryOwner(txn, session, now);
      session := session.(
        lifecycle := SessionLifecycle.RecoveryRequired(reason, now),
        events := session.events + [RecoveryDetected(now, reason)]);
      txn := txn.PutSession(session);
      txn := txn.PutRoom(session.roomId, RoomLifecycle.Blocked(sid), now, Some(reason));
      Commit(txn);
      return Success(session.lifecycle);
    }

    /** `record_recovery_reason`, then the session and its blocked room are put back. */
    static method MarkRecoveryRequired(txn: Db, session: LiveSession, reason: Reason, now: Timestamp)
      returns (txn': Db, noted: LiveSession)
      requires txn.Keyed() && session.id in txn.sessions
      ensures txn'.Keyed() && txn' == MarkedForRecovery(txn, session, reason, now)
      ensures noted == RecoveryNoted(session, reason, now)
    {
      noted := session;
      if !HasRecorded(noted, reason) {
        noted := noted.(events := noted.events + [RecoveryDetected(now, reason)]);
      }
      if !noted.lifecycle.RecoveryRequired? {
        noted := noted.(lifecycle := SessionLifecycle.RecoveryRequired(reason, now));
      }
      txn' := txn.PutSession(noted).PutRoom(session.roomId, RoomLifecycle.Blocked(session.id), now,
          Some(noted.lifecycle.reason));
    }

    // ----- Closing -----

    method CloseSession(sid: Uuid, request: CloseRequest, now: Timestamp) returns (r: Result<CloseResult>)
      requires Valid()
      modifies this
      ensures Performs(Command.CloseSession(sid, request), now, r.Success?)
      ensures r.Success? ==> sid in sessions && r.value.lifecycle == sessions[sid].lifecycle
      ensures r.Success? ==> if request.Recover? then ExactlyFailed(old(Snapshot()), sid, r.value.excluded)
              else r.value.excluded == []
      ensures r.Success? && request.Abandon? ==>
                segments.Keys == old(segments).Keys
                && forall k | k in old(segments) ::
                     if k.sid == sid then UploadGivenUp(old(segments)[k], segments[k], now)
                     else segments[k] == old(segments)[k]
    {
      var txn := Snapshot();
      var session :- RequireSession(txn, sid);
      var rows := ListSegments(txn, sid);
      match request {
        case Natural(_) =>
          var _ :- NeedValue(session.lifecycle.Open?, "session must be Open for natural close");
          var _ :- NeedValue(OwnsRoom(txn, session), "room is not owned by session");
        case Recover(_, _) =>
          var _ :- NeedValue(session.lifecycle.RecoveryRequired?, "session does not require recovery");
        case Abandon(_) =>
          var _ :- NeedValue(!session.lifecycle.Closed?, "session is already closed");
      }
      if request.Abandon? {
        r := Abandon(session, rows, request.note, now);
      } else if request.Recover? {
        r := FinishRecovery(session, rows, request.excludeFailed, request.note, now);
      } else {
        r := FinishNaturally(session, rows, request.note, now);
      }
    }

    method Abandon(session: LiveSession, rows: seq<Segment>, note: Option<string>, now: Timestamp)
      returns (r: Result<CloseResult>)
      requires Valid() && session.id in sessions && sessions[session.id] == session && !session.lifecycle.Closed?
      requires Lists(Snapshot(), session.id, rows)
      modifies this
      ensures Performs(Command.CloseSession(session.id, CloseRequest.Abandon(note)), now, r.Success?)
      ensures r.Success? ==> session.id in sessions && r.value == CloseResult(sessions[session.id].lifecycle, [])
      ensures r.Success? ==>
                segments.Keys == old(segments).Keys
                && forall k | k in old(segments) ::
                     if k.sid == session.id then UploadGivenUp(old(segments)[k], segments[k], now)
                     else segments[k] == old(segments)[k]
    {
      hide UploadGivenUp;
      var txn := Snapshot();
      var claimed :- ClaimRecoveryOwner(txn, session, now);
      var _ :- NeedValue(session.id !in txn.submissions, "session already has a submission and cannot be abandoned");
      var _ :- NeedValue(!GateBlockedBySession(txn, session), "session owns the blocked upload target");
      txn :- AbandonRows(txn, session.id, rows, now);
      txn := ClosedAs(txn, session, Abandoned(now, note), [OperatorResolved(now, AbandonedDecision, note)], now);
      Commit(txn);
      return Success(CloseResult(txn.sessions[session.id].lifecycle, []));
    }

    method FinishRecovery(session: LiveSession, rows: seq<Segment>, excludeFailed: bool, note: Option<string>,
        now: Timestamp)
      returns (r: Result<CloseResult>)
      requires Valid() && session.id in sessions && sessions[session.id] == session
               && session.lifecycle.RecoveryRequired?
      requires Lists(Snapshot(), session.id, rows)
      modifies this
      ensures Performs(Command.CloseSession(session.id, Recover(excludeFailed, note)), now, r.Success?)
      ensures r.Success? ==> session.id in sessions && r.value.lifecycle == sessions[session.id].lifecycle
      ensures r.Success? ==> ExactlyFailed(old(Snapshot()), session.id, r.value.excluded)
    {
      var txn := Snapshot();
      var _ :- RecoverableFailures(txn, session, rows, excludeFailed, now);
      var usable := AnyUsable(txn, session.id, rows);
      var indices;
      txn, indices := ExcludeFailedRows(txn, session.id, rows);
      var closure := if usable then Completed(now, note) else NoUsableRecording(now);
      txn := ClosedAs(txn, session, closure, [OperatorResolved(now, FinalizedDecision, note)], now);
      Commit(txn);
      return Success(CloseResult(txn.sessions[session.id].lifecycle, indices));
    }

    method FinishNaturally(session: LiveSession, rows: seq<Segment>, note: Option<string>, now: Timestamp)
      returns (r: Result<CloseResult>)
      requires Valid() && session.id in sessions && sessions[session.id] == session
      requires session.lifecycle.Open? && OwnsRoom(Snapshot(), session)
      requires Lists(Snapshot(), session.id, rows)
      modifies this
      ensures Performs(Command.CloseSession(session.id, Natural(note)), now, r.Success?)
      ensures r.Success? ==> session.id in sessions && r.value == CloseResult(sessions[session.id].lifecycle, [])
    {
      var txn := Snapshot();
      var sid := session.id;
      var noted;
      var unresolved := FirstUnresolved(txn, sid, rows);
      if unresolved.Some? {
        txn, noted := MarkRecoveryRequired(txn, session,
            UnresolvedIntent(sid, unresolved.value.index, unresolved.value.artifact), now);
        Commit(txn);
        return Success(CloseResult(noted.lifecycle, []));
      }
      var failed := FirstFailed(txn, sid, rows);
      if failed.Some? {
        txn, noted := MarkRecoveryRequired(txn, session, FailedNeedsDecision(sid, failed.value.index), now);
        Commit(txn);
        return Success(CloseResult(noted.lifecycle, []));
      }
      var usable := AnyUsable(txn, sid, rows);
      var closure := if usable then Completed(now, note) else NoUsableRecording(now);
      txn := ClosedAs(txn, session, closure, [], now);
      Commit(txn);
      return Success(CloseResult(txn.sessions[sid].lifecycle, []));
    }

    // ----- Segments and artifacts -----

    method OpenSegment(segment: Segment, now: Timestamp) returns (r: Result<Segment>)
      requires Valid()
      modifies this
      ensures Performs(Command.OpenSegment(segment), now, r.Success?)
      ensures r.Success? ==> segment.Key() in segments && r.value == segments[segment.Key()]
    {
      var _ :- NeedValue(segment.partPath != segment.finalPath, "segment part_path and final_path must be different");
      var _ :- NeedValue(IsAbsolute(segment.partPath)
          && IsAbsolute(segment.finalPath), "segment locators must be absolute");
      var txn := Snapshot();
      var session :- RequireSession(txn, segment.sid);
      var _ :- NeedValue(session.lifecycle.Open? && OwnsRoom(txn, session), "session is not open and owning its room");
      var _ :- NeedValue(segment.Key() !in txn.segments, "segment already exists");
      var rows := ListSegments(txn, segment.sid);
      LastRowIsGreatest(txn, segment.sid, rows);
      var next := if |rows| == 0 then 1
                  else if rows[|rows| - 1].index < MAX_U32 then rows[|rows| - 1].index + 1 else MAX_U32;
      var _ :- NeedValue(segment.index == next, "segment is out of sequence");
      var _ :- NeedValue(segment.artifact.Writing?, "new segment must be Writing");
      var row := segment;
      row := row.(upload := if session.outputPlan.Bilibili? then FreshPending else NotPlanned);
      row := row.(artifactResolutions := [], attempts := [], resolutions := []);
      txn := txn.PutSegment(row);
      Commit(txn);
      return Success(row);
    }

    /** `update_recording_artifact` with the closure of the given move. */
    method UpdateArtifact(key: SegmentKey, move: ArtifactMove, now: Timestamp) returns (r: Result<Segment>)
      requires Valid()
      modifies this
      ensures Performs(Command.UpdateArtifact(key, move), now, r.Success?)
      ensures r.Success? ==> key in segments && r.value == segments[key]
    {
      var txn :- MoveTransaction(Snapshot(), key, move, now);
      Commit(txn);
      return Success(segments[key]);
    }

    method BeginConflict(key: SegmentKey, decision: ArtifactDecision, note: Option<string>, now: Timestamp)
      returns (r: Result<Segment>)
      requires Valid()
      modifies this
      ensures Performs(Command.BeginConflict(key, decision, note), now, r.Success?)
      ensures r.Success? ==> key in segments && r.value == segments[key]
    {
      var txn :- ConflictTransaction(Snapshot(), key, decision, note, now);
      Commit(txn);
      return Success(segments[key]);
    }

    method FailArtifact(key: SegmentKey, reason: Reason, closeReason: Option<SegmentCloseReason>, now: Timestamp)
      returns (r: Result<Segment>)
      requires Valid()
      modifies this
      ensures Performs(Command.FailArtifact(key, reason, closeReason), now, r.Success?)
      ensures r.Success? ==> key in segments && r.value == segments[key]
    {
      var _ :- NeedValue(!reason.Blank(), "artifact failure reason must not be empty");
      var txn := Snapshot();
      var session :- RequireSession(txn, key.sid);
      var _ :- NeedValue(!session.lifecycle.Closed?, "session is already closed");
      txn :- ClaimRecoveryOwner(txn, session, now);
      var segment :- RequireSegment(txn, key);
      var _ :- NeedValue(segment.artifact.Unresolved() && !segment.artifact.Deleting?, "segment artifact cannot fail");
      var close := if closeReason.Some? then closeReason else segment.artifact.CloseReason();
      segment := segment.(artifact := Failed(reason, close));
      txn := txn.PutSegment(segment);
      var noted;
      txn, noted := MarkRecoveryRequired(txn, session, SegmentFailed(key.sid, key.index, reason), now);
      assert txn.rooms == Snapshot().rooms[session.roomId := txn.rooms[session.roomId]];
      Commit(txn);
      return Success(segment);
    }

    method BeginDelete(key: SegmentKey, now: Timestamp) returns (r: Result<Segment>)
      requires Valid()
      modifies this
      ensures Performs(Command.BeginDelete(key), now, r.Success?)
      ensures r.Success? ==> key in segments && r.value == segments[key]
    {
      var txn := Snapshot();
      var session :- RequireSession(txn, key.sid);
      var _ :- NeedValue(session.lifecycle.PermitsSubmission(), "session is not Completed; refusing artifact deletion");
      var _ :- NeedValue(session.outputPlan.Bilibili?
          && session.outputPlan.upload.deleteAfterSubmit, "session does not permit delete_after_submit");
      var _ :- NeedValue(key.sid in txn.submissions, "session has no submission; refusing artifact deletion");
      var _ :- NeedValue(txn.submissions[key.sid].state.Submitted?, "session submission is not Submitted");
      var segment :- RequireSegment(txn, key);
      var _ :- NeedValue(segment.artifact.Ready?
          && segment.upload.Uploaded?, "segment must be Ready and Uploaded before deletion");
      segment := segment.(artifact := Deleting);
      txn := txn.PutSegment(segment);
      Commit(txn);
      return Success(segment);
    }

    method CompleteDelete(key: SegmentKey, now: Timestamp) returns (r: Result<Segment>)
      requires Valid()
      modifies this
      ensures Performs(Command.CompleteDelete(key), now, r.Success?)
      ensures r.Success? ==> key in segments && r.value == segments[key]
    {
      var txn := Snapshot();
      var segment :- RequireSegment(txn, key);
      var _ :- NeedValue(segment.artifact.Deleting?, "segment is not Deleting");
      segment := segment.(artifact := Deleted);
      txn := txn.PutSegment(segment);
      Commit(txn);
      return Success(segment);
    }

    // ----- Uploads -----

    method BeginUpload(key: SegmentKey, attempt: RemoteAttempt, now: Timestamp) returns (r: Result<Segment>)
      requires Valid()
      modifies this
      ensures Performs(Command.BeginUpload(key, attempt), now, r.Success?)
      ensures r.Success? ==> key in segments && r.value == segments[key]
    {
      var txn := Snapshot();
      var session :- RequireSession(txn, key.sid);
      var _ :- NeedValue(session.lifecycle.PermitsUpload(), "session lifecycle does not permit upload");
      var target :- SessionTarget(txn, key.sid);
      txn :- ConsumeTargetReady(txn, target, attempt.startedAt);
      var _ :- NeedValue(key.sid !in txn.submissions, "session already has a submission");
      var segment :- RequireSegment(txn, key);
      var _ :- NeedValue(segment.artifact.Ready? && segment.upload.Pending? && segment.upload.Due(attempt.startedAt),
                         "segment is not a due Ready/Pending upload");
      var known := FindAttempt(segment.attempts, attempt.id);
      var _ :- NeedValue(known == |segment.attempts|, "upload attempt already exists");
      segment := segment.(attempts := segment.attempts + [AttemptRecord(attempt, None, None)]);
      segment := segment.(upload := UploadState.Attempting(attempt));
      txn := txn.PutSegment(segment);
      Commit(txn);
      return Success(segment);
    }

    /**
      `complete_upload`, `schedule_upload_retry`, `block_upload`, `mark_upload_ambiguous` and their
      target-scoped forms.
     */
    method ReportUpload(key: SegmentKey, id: Uuid, report: RemoteReport<UploadedPart>, now: Timestamp)
      returns (r: Result<Segment>)
      requires Valid()
      modifies this
      ensures Performs(Command.ReportUpload(key, id, report), now, r.Success?)
      ensures r.Success? ==> key in segments && r.value == segments[key]
    {
      var _ :- NeedValue(report.Counted(), "target failure count must be greater than zero");
      var txn := Snapshot();
      if report.ReportConfirmed? {
        var _ :- NeedValue(report.proof.Valid(), "upload proof is not valid");
      } else {
        var _ :- SessionTarget(txn, key.sid);
      }
      var segment :- RequireSegment(txn, key);
      var _ :- NeedValue(segment.upload.Attempting?
          && segment.upload.attempt.id == id, "segment is not owned by this upload attempt");
      var attempt := segment.upload.attempt;
      var h :- FinishHistory(segment.attempts, id, now, report.Outcome());
      var failures := CountRetries(h);
      segment := segment.(attempts := h);
      match report {
        case ReportConfirmed(proof) =>
          segment := segment.(upload := Uploaded(proof));
          txn := txn.PutSegment(segment);
        case ReportRetry(reason, retryAt, scope, targetFailures) =>
          segment := segment.(upload := Pending(CountAsU32(failures), Some(retryAt), Some(reason)));
          txn := txn.PutSegment(segment);
          if scope.Target? {
            txn := txn.PutGate(TargetOf(txn, key.sid),
                Backoff(UploadOp(key.sid, key.index, id), targetFailures, retryAt, reason));
          }
        case ReportBlocked(reason, scope) =>
          segment := segment.(upload := UploadState.Blocked(Some(id), reason));
          txn := txn.PutSegment(segment);
          if scope.Target? {
            txn := txn.PutGate(TargetOf(txn, key.sid),
                TargetGate.Blocked(UploadOp(key.sid, key.index, id), now, reason));
          }
        case ReportAmbiguous(reason) =>
          segment := segment.(upload := UploadState.Ambiguous(attempt, reason));
          txn := txn.PutSegment(segment);
      }
      Commit(txn);
      return Success(segment);
    }

    /** `resolve_upload_not_uploaded` and `resolve_upload_uploaded` */
    method ResolveUpload(key: SegmentKey, decision: OperatorDecision<UploadedPart>, note: Option<string>,
        now: Timestamp)
      returns (r: Result<Segment>)
      requires Valid()
      modifies this
      ensures Performs(Command.ResolveUpload(key, decision, note), now, r.Success?)
      ensures r.Success? ==> key in segments && r.value == segments[key]
    {
      var _ :- NeedValue(decision.ConfirmedDone? ==> decision.proof.Valid(), "upload proof is not valid");
      var txn := Snapshot();
      var session :- RequireSession(txn, key.sid);
      var target :- SessionTarget(txn, key.sid);
      var _ :- NeedValue(key.sid !in txn.submissions, "session already has a submission; refusing upload resolution");
      var segment :- RequireSegment(txn, key);
      var _ :- NeedValue(UploadRecoverable(segment.upload), "upload state does not require operator resolution");
      var decided, owner := DecideUpload(session, segment, decision, note, now);
      segment :- decided;
      txn := txn.PutSegment(segment);
      txn := ClearTargetGateIfOwner(txn, target, owner);
      Commit(txn);
      return Success(segment);
    }

    // ----- Submissions -----

    method BeginSubmission(sid: Uuid, attempt: RemoteAttempt, now: Timestamp) returns (r: Result<Submission>)
      requires Valid()
      modifies this
      ensures Performs(Command.BeginSubmission(sid, attempt), now, r.Success?)
      ensures r.Success? ==> sid in submissions && r.value == submissions[sid]
    {
      var txn := Snapshot();
      var session :- RequireSession(txn, sid);
      var _ :- NeedValue(session.lifecycle.PermitsSubmission(), "session is not Completed");
      var target :- SessionTarget(txn, sid);
      txn :- ConsumeTargetReady(txn, target, attempt.startedAt);
      var parts := RequireSubmissionParts(txn, sid);
      assert PartsReady(txn, sid) == PartsReady(Snapshot(), sid);
      var _ :- NeedValue(parts.Pass?, "session has no submittable set of parts");
      var submission;
      if sid !in txn.submissions {
        submission := Submission(sid, SubmissionState.Attempting(attempt), [], []);
      } else {
        submission := txn.submissions[sid];
        var _ :- NeedValue(submission.state.Due(attempt.startedAt), "submission is not ready for another attempt");
        submission := submission.(state := SubmissionState.Attempting(attempt));
      }
      var known := FindAttempt(submission.attempts, attempt.id);
      var _ :- NeedValue(known == |submission.attempts|, "submission attempt already exists");
      submission := submission.(attempts := submission.attempts + [AttemptRecord(attempt, None, None)]);
      txn := txn.PutSubmission(submission);
      Commit(txn);
      return Success(submission);
    }

    /**
      `complete_submission`, `schedule_submission_retry`, `block_submission`,
      `mark_submission_ambiguous` and their target-scoped forms.
     */
    method ReportSubmission(sid: Uuid, id: Uuid, report: RemoteReport<SubmissionProof>, now: Timestamp)
      returns (r: Result<Submission>)
      requires Valid()
      modifies this
      ensures Performs(Command.ReportSubmission(sid, id, report), now, r.Success?)
      ensures r.Success? ==> sid in submissions && r.value == submissions[sid]
    {
      var _ :- NeedValue(report.Counted(), "target failure count must be greater than zero");
      var txn := Snapshot();
      if report.ReportConfirmed? {
        var _ :- NeedValue(report.proof.Valid(), "submission proof is not valid");
      } else {
        var _ :- SessionTarget(txn, sid);
      }
      var _ :- NeedValue(sid in txn.submissions, "submission does not exist");
      var submission := txn.submissions[sid];
      var _ :- NeedValue(submission.state.Attempting?
          && submission.state.attempt.id == id, "submission is not owned by this attempt");
      var attempt := submission.state.attempt;
      var h :- FinishHistory(submission.attempts, id, now, report.Outcome());
      var failures := CountRetries(h);
      submission := submission.(attempts := h);
      match report {
        case ReportConfirmed(proof) =>
          submission := submission.(state := Submitted(proof));
          txn := txn.PutSubmission(submission);
        case ReportRetry(reason, retryAt, scope, targetFailures) =>
          submission := submission.(state := RetryScheduledAt(CountAsU32(failures), retryAt, reason));
          txn := txn.PutSubmission(submission);
          if scope.Target? {
            txn := txn.PutGate(TargetOf(txn, sid), Backoff(SubmissionOp(sid, id), targetFailures, retryAt, reason));
          }
        case ReportBlocked(reason, scope) =>
          submission := submission.(state := SubmissionState.Blocked(Some(id), reason));
          txn := txn.PutSubmission(submission);
          if scope.Target? {
            txn := txn.PutGate(TargetOf(txn, sid), TargetGate.Blocked(SubmissionOp(sid, id), now, reason));
          }
        case ReportAmbiguous(reason) =>
          submission := submission.(state := SubmissionState.Ambiguous(attempt, reason));
          txn := txn.PutSubmission(submission);
      }
      Commit(txn);
      return Success(submission);
    }

    /** `resolve_submission_not_submitted` and `resolve_submission_submitted` */
    method ResolveSubmission(sid: Uuid, decision: OperatorDecision<SubmissionProof>, note: Option<string>,
        now: Timestamp)
      returns (r: Result<Submission>)
      requires Valid()
      modifies this
      ensures Performs(Command.ResolveSubmission(sid, decision, note), now, r.Success?)
      ensures r.Success? ==> sid in submissions && r.value == submissions[sid]
    {
      var _ :- NeedValue(decision.ConfirmedDone? ==> decision.proof.Valid(), "submission proof is not valid");
      var txn := Snapshot();
      var session :- RequireSession(txn, sid);
      var _ :- NeedValue(session.lifecycle.PermitsSubmission(), "session does not permit submission recovery");
      var target :- SessionTarget(txn, sid);
      var _ :- NeedValue(sid in txn.submissions, "submission does not exist");
      var submission := txn.submissions[sid];
      var _ :- NeedValue(SubmissionRecoverable(submission.state),
          "submission state does not require operator resolution");
      var id := SubmissionAttemptId(submission.state);
      var owner := None;
      if id.Some? {
        var h :- FinishUnfinishedAsAmbiguous(submission.attempts, id.value, now);
        submission := submission.(attempts := h);
        owner := Some(SubmissionOp(sid, id.value));
      }
      submission := submission.(resolutions := submission.resolutions + [OperatorResolution(id, now, decision, note)]);
      submission := submission.(state := if decision.ConfirmedDone? then Submitted(decision.proof)
          else RetryAuthorized(now));
      txn := txn.PutSubmission(submission);
      txn := ClearTargetGateIfOwner(txn, target, owner);
      Commit(txn);
      return Success(submission);
    }
  }

  lemma LastRowIsGreatest(db: Db, sid: Uuid, rows: seq<Segment>)
    requires db.Keyed() && Lists(db, sid, rows)
    ensures |rows| == 0 <==> SegmentIndices(db, sid) == {}
    ensures |rows| > 0 ==> rows[|rows| - 1].index == Greatest(SegmentIndices(db, sid))
  {
    if |rows| > 0 {
      var indices := SegmentIndices(db, sid);
      assert rows[|rows| - 1].Key().index in indices;
      assert rows[|rows| - 1].index in indices;
      forall x | x in indices ensures x <= rows[|rows| - 1].index {
        var k :| k in db.segments && k.sid == sid && k.index == x;
        var i :| 0 <= i < |rows| && rows[i] == db.segments[k];
        assert rows[i].index <= rows[|rows| - 1].index;
      }
      var g := Greatest(indices);
      assert g in indices;
    }
    if SegmentIndices(db, sid) != {} {
      var x :| x in SegmentIndices(db, sid);
      var k :| k in db.segments && k.sid == sid && k.index == x;
      assert db.segments[k] in rows;
    }
  }
}
