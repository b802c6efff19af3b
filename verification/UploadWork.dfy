/** What is left to do for the upload worker, and what its own checks let it start. */
module UploadWork {
  import opened Sequences
  import opened Model
  import opened Database
  import opened Transitions
  import opened Invariants
  import opened Runs
  import opened StateStore

  // ----- One session's rows -----

  datatype SegmentUpload = Satisfied | NeedsUpload | Stuck

  function Classify(row: Segment): SegmentUpload {
    if row.artifact.Filtered? || row.artifact.Excluded? then Satisfied
    else if row.artifact.Usable() && row.upload.Uploaded? then Satisfied
    else if row.artifact.Ready? && row.upload.Pending? then NeedsUpload
    else Stuck
  }

  datatype Part = Part(index: nat, proof: UploadedPart)

  datatype Reconciliation = Reconciliation(needsUpload: seq<nat>, stuck: seq<nat>, parts: seq<Part>) {
    predicate ReadyForSubmission() {
      needsUpload == [] && stuck == [] && parts != []
    }
  }

  /** The report's three lists, each in the order of the rows. */
  ghost predicate Reports(report: Reconciliation, rows: seq<Segment>) {
    && (forall x :: x in report.needsUpload <==> exists i ::
          0 <= i < |rows| && rows[i].index == x && Classify(rows[i]).NeedsUpload?)
    && (forall x :: x in report.stuck <==> exists i ::
          0 <= i < |rows| && rows[i].index == x && Classify(rows[i]).Stuck?)
    && (forall p :: p in report.parts <==> exists i :: 0 <= i < |rows| && IsPart(rows[i], p))
  }

  predicate IsPart(row: Segment, p: Part) {
    Classify(row).Satisfied? && row.upload.Uploaded? && p == Part(row.index, row.upload.proof)
  }

  ghost predicate InOrder(parts: seq<Part>) {
    forall i, j | 0 <= i < j < |parts| :: parts[i].index < parts[j].index
  }

  /** The rows come in index order, so the parts are submitted in recording order. */
  method ReconcileSessionUploads(rows: seq<Segment>) returns (report: Reconciliation)
    requires forall i, j | 0 <= i < j < |rows| :: rows[i].index < rows[j].index
    ensures Reports(report, rows) && InOrder(report.parts)
  {
    report := Reconciliation([], [], []);
    for i := 0 to |rows|
      invariant Reports(report, rows[..i]) && InOrder(report.parts)
      invariant forall p, j | p in report.parts && i <= j < |rows| :: p.index < rows[j].index
    {
      var row := rows[i];
      ghost var before := report;
      match Classify(row) {
        case Satisfied =>
          if row.upload.Uploaded? {
            report := report.(parts := report.parts + [Part(row.index, row.upload.proof)]);
          }
        case NeedsUpload => report := report.(needsUpload := report.needsUpload + [row.index]);
        case Stuck => report := report.(stuck := report.stuck + [row.index]);
      }
      ReportsNext(before, report, rows, i);
    }
    assert rows[..|rows|] == rows;
  }

  lemma ReportsNext(before: Reconciliation, after: Reconciliation, rows: seq<Segment>, i: nat)
    requires i < |rows| && Reports(before, rows[..i])
    requires after.needsUpload == before.needsUpload + (if Classify(rows[i]).NeedsUpload? then [rows[i].index] else [])
    requires after.stuck == before.stuck + (if Classify(rows[i]).Stuck? then [rows[i].index] else [])
    requires after.parts ==
               before.parts + (if Classify(rows[i]).Satisfied? && rows[i].upload.Uploaded?
               then [Part(rows[i].index, rows[i].upload.proof)] else [])
    ensures Reports(after, rows[..i + 1])
  {
    var seen, all := rows[..i], rows[..i + 1];
    assert all[i] == rows[i] && forall j | 0 <= j < i :: all[j] == seen[j];
    forall x ensures x in after.needsUpload <==> exists j ::
          0 <= j < |all| && all[j].index == x && Classify(all[j]).NeedsUpload? {
      if x in before.needsUpload {
        var j :| 0 <= j < |seen| && seen[j].index == x && Classify(seen[j]).NeedsUpload?;
        assert all[j].index == x;
      }
    }
    forall x ensures x in after.stuck <==> exists j :: 0 <= j < |all| && all[j].index == x && Classify(all[j]).Stuck? {
      if x in before.stuck {
        var j :| 0 <= j < |seen| && seen[j].index == x && Classify(seen[j]).Stuck?;
        assert all[j].index == x;
      }
    }
    forall p ensures p in after.parts <==> exists j :: 0 <= j < |all| && IsPart(all[j], p) {
      if p in before.parts {
        var j :| 0 <= j < |seen| && IsPart(seen[j], p);
        assert IsPart(all[j], p);
      }
    }
  }

  /** On every reachable database the worker's readiness is exactly what the submission transition asks for. */
  lemma ReadyIffSubmittable(db: Db, sid: Uuid, rows: seq<Segment>, report: Reconciliation)
    requires Reachable(db) && Lists(db, sid, rows) && Reports(report, rows)
    ensures report.ReadyForSubmission() <==> PartsReady(db, sid)
  {
    ReachableInv(db);
    ReadyIffPartsReady(db, sid, rows, report);
  }

  lemma ReadyIffPartsReady(db: Db, sid: Uuid, rows: seq<Segment>, report: Reconciliation)
    requires Inv(db) && Lists(db, sid, rows) && Reports(report, rows)
    ensures report.ReadyForSubmission() <==> PartsReady(db, sid)
  {
    forall i | 0 <= i < |rows|
      ensures Classify(rows[i]).Satisfied? <==> RowSubmittable(rows[i])
      ensures Classify(rows[i]).Satisfied? && rows[i].upload.Uploaded? ==> RowUploaded(rows[i])
    {
      assert SegmentOk(db, rows[i].Key());
    }
    if report.ReadyForSubmission() {
      ReadyMeansParts(db, sid, rows, report);
    }
    if PartsReady(db, sid) {
      PartsMeanReady(db, sid, rows, report);
    }
  }

  lemma ReadyMeansParts(db: Db, sid: Uuid, rows: seq<Segment>, report: Reconciliation)
    requires Lists(db, sid, rows) && Reports(report, rows) && report.ReadyForSubmission()
    requires forall i | 0 <= i < |rows| :: Classify(rows[i]).Satisfied? ==> RowSubmittable(rows[i])
    requires forall i | 0 <= i < |rows| ::
               Classify(rows[i]).Satisfied? && rows[i].upload.Uploaded? ==> RowUploaded(rows[i])
    ensures PartsReady(db, sid)
  {
    forall k | k in db.segments && k.sid == sid ensures RowSubmittable(db.segments[k]) {
      var i :| 0 <= i < |rows| && rows[i] == db.segments[k];
      assert rows[i].index !in report.needsUpload && rows[i].index !in report.stuck;
    }
    assert report.parts[0] in report.parts;
    var i :| 0 <= i < |rows| && IsPart(rows[i], report.parts[0]);
    assert rows[i].Key() in db.segments && RowUploaded(db.segments[rows[i].Key()]);
  }

  lemma PartsMeanReady(db: Db, sid: Uuid, rows: seq<Segment>, report: Reconciliation)
    requires Lists(db, sid, rows) && Reports(report, rows) && PartsReady(db, sid)
    requires forall i | 0 <= i < |rows| :: RowSubmittable(rows[i]) ==> Classify(rows[i]).Satisfied?
    ensures report.ReadyForSubmission()
  {
    forall i | 0 <= i < |rows| ensures Classify(rows[i]).Satisfied? {
      assert RowSubmittable(db.segments[rows[i].Key()]);
    }
    FirstIsIn(report.needsUpload);
    FirstIsIn(report.stuck);
    var k :| k in db.segments && k.sid == sid && RowUploaded(db.segments[k]);
    var i :| 0 <= i < |rows| && rows[i] == db.segments[k];
    var p := Part(rows[i].index, rows[i].upload.proof);
    assert IsPart(rows[i], p);
    assert p in report.parts;
  }

  // ----- Work that outlives the rooms -----

  datatype DurableWork = Cleanup(sid: Uuid) | Upload(key: SegmentKey) | Submit(sid: Uuid)

  /** A recorded segment whose upload is planned and not begun. */
  predicate AwaitsUpload(db: Db, key: SegmentKey) {
    && key in db.segments && db.segments[key].artifact.Ready? && db.segments[key].upload.Pending?
    && key.sid in db.sessions && db.sessions[key.sid].lifecycle.PermitsUpload()
    && key.sid !in db.submissions
    && db.sessions[key.sid].outputPlan.Bilibili?
  }

  predicate Submittable(db: Db, sid: Uuid) {
    sid in db.sessions && db.sessions[sid].lifecycle.PermitsSubmission() && db.sessions[sid].outputPlan.Bilibili?
  }

  ghost predicate AwaitsSubmission(db: Db, sid: Uuid) {
    && Submittable(db, sid)
    && (if sid in db.submissions
        then db.submissions[sid].state.RetryScheduledAt? || db.submissions[sid].state.RetryAuthorized?
        else PartsReady(db, sid))
  }

  predicate Deletable(row: Segment) {
    row.artifact.Ready? && row.upload.Uploaded?
  }

  ghost predicate AwaitsCleanup(db: Db, sid: Uuid) {
    && Submittable(db, sid)
    && sid in db.submissions && db.submissions[sid].state.Submitted?
    && db.sessions[sid].outputPlan.upload.deleteAfterSubmit
    && exists k :: k in db.segments && k.sid == sid && Deletable(db.segments[k])
  }

  ghost predicate IsWork(db: Db, work: DurableWork) {
    match work
    case Cleanup(sid) => AwaitsCleanup(db, sid)
    case Upload(key) => AwaitsUpload(db, key)
    case Submit(sid) => AwaitsSubmission(db, sid)
  }

  predicate TargetOpen(db: Db, sid: Uuid, uploaders: set<UploadTarget>)
    requires HasTarget(db, sid)
  {
    var target := TargetOf(db, sid);
    target in uploaders && target in db.gates && !db.gates[target].Blocked?
  }

  /** Work that needs no gate, or whose gate some configured uploader may pass now or later. */
  ghost predicate Executable(db: Db, work: DurableWork, uploaders: set<UploadTarget>)
    requires IsWork(db, work)
  {
    match work
    case Cleanup(_) => true
    case Upload(key) => TargetOpen(db, key.sid, uploaders)
    case Submit(sid) => TargetOpen(db, sid, uploaders)
  }

  ghost predicate HasExecutableWork(db: Db, uploaders: set<UploadTarget>) {
    exists work :: IsWork(db, work) && Executable(db, work, uploaders)
  }

  method SubmissionWork(db: Db, sid: Uuid) returns (work: seq<DurableWork>)
    requires Inv(db) && db.Keyed() && sid in db.sessions
    ensures forall w :: w in work <==> IsWork(db, w) && (w == Submit(sid) || w == Cleanup(sid))
  {
    if !Submittable(db, sid) {
      return [];
    }
    var rows := ListSegments(db, sid);
    if sid !in db.submissions {
      var report := ReconcileSessionUploads(rows);
      ReadyIffPartsReady(db, sid, rows, report);
      return if report.ReadyForSubmission() then [Submit(sid)] else [];
    }
    var state := db.submissions[sid].state;
    if state.RetryScheduledAt? || state.RetryAuthorized? {
      return [Submit(sid)];
    }
    if state.Submitted? && db.sessions[sid].outputPlan.upload.deleteAfterSubmit {
      var found := AnyDeletable(db, sid, rows);
      return if found then [Cleanup(sid)] else [];
    }
    return [];
  }

  method AnyDeletable(db: Db, sid: Uuid, rows: seq<Segment>) returns (found: bool)
    requires Lists(db, sid, rows)
    ensures found <==> exists k :: k in db.segments && k.sid == sid && Deletable(db.segments[k])
  {
    for i := 0 to |rows|
      invariant forall j | 0 <= j < i :: !Deletable(rows[j])
    {
      if Deletable(rows[i]) {
        assert rows[i].Key() in db.segments && Deletable(db.segments[rows[i].Key()]);
        return true;
      }
    }
    forall k | k in db.segments && k.sid == sid ensures !Deletable(db.segments[k]) {
      var j :| 0 <= j < |rows| && rows[j] == db.segments[k];
    }
    return false;
  }

  /** Everything that is still to be done, whatever room is being watched. */
  method PendingDurableWork(db: Db) returns (work: seq<DurableWork>)
    requires Inv(db) && db.Keyed()
    ensures forall w :: w in work <==> IsWork(db, w)
  {
    work := [];
    var keys := db.segments.Keys;
    while keys != {}
      invariant keys <= db.segments.Keys
      invariant forall w :: w in work <==> w.Upload? && w.key !in keys && AwaitsUpload(db, w.key)
      decreases keys
    {
      var key :| key in keys;
      if AwaitsUpload(db, key) {
        work := work + [Upload(key)];
      }
      keys := keys - {key};
    }
    var sids := db.sessions.Keys;
    while sids != {}
      invariant sids <= db.sessions.Keys
      invariant forall w :: w in work <==> IsWork(db, w) && (w.Upload? || w.sid !in sids)
      decreases sids
    {
      var sid :| sid in sids;
      var more := SubmissionWork(db, sid);
      work := work + more;
      sids := sids - {sid};
    }
  }

  method HasExecutableDurableWork(db: Db, uploaders: set<UploadTarget>) returns (found: bool)
    requires Inv(db) && db.Keyed()
    ensures found <==> HasExecutableWork(db, uploaders)
  {
    var work := PendingDurableWork(db);
    for i := 0 to |work|
      invariant forall j | 0 <= j < i :: IsWork(db, work[j]) && !Executable(db, work[j], uploaders)
    {
      assert work[i] in work && IsWork(db, work[i]);
      match work[i]
      case Cleanup(_) => return true;
      case Upload(key) =>
        if TargetOpen(db, key.sid, uploaders) {
          return true;
        }
      case Submit(sid) =>
        if TargetOpen(db, sid, uploaders) {
          return true;
        }
    }
    forall w | IsWork(db, w) ensures !Executable(db, w, uploaders) {
      var j :| 0 <= j < |work| && work[j] == w;
    }
    return false;
  }
}
