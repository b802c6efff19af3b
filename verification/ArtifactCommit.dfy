/**
  The commit protocol for recorded files (src/recorder/artifact_commit.rs): the intent is stored,
  then the file is renamed or removed, then the directory is synced, then the end is stored.
  A crash may fall between any two of these steps.
 */
module ArtifactCommit {
  import opened Wrappers
  import opened Model
  import opened Database
  import opened Transitions
  import opened Invariants
  import opened Preservation
  import opened StateStore
  import opened FileSystem
  import opened ByteStrings

  // ----- Files and rows -----

  ghost predicate Holds(d: Directory, path: Path, bytes: Bytes) {
    path in d && d[path] == File(bytes)
  }

  /**
    What is promised about a recording: `Keeps` for bytes that were decided on while no crash could
    bring others into their place, `Wrote` for bytes written under names nothing else ever had.
   */
  datatype Promise = NoPromise | Keeps(bytes: Bytes) | Wrote(bytes: Bytes)

  type Intended = map<SegmentKey, Promise>

  function IntendedFor(intended: Intended, key: SegmentKey): Promise {
    if key in intended then intended[key] else NoPromise
  }

  /** Promises about written bytes outlast everything. */
  ghost predicate PromisesKept(before: Intended, after: Intended) {
    forall k | IntendedFor(before, k).Wrote? :: IntendedFor(after, k) == IntendedFor(before, k)
  }

  /** Nothing is promised anew but about this recording. */
  ghost predicate IntentOnly(before: Intended, after: Intended, key: SegmentKey) {
    forall k | k != key :: IntendedFor(after, k) == IntendedFor(before, k)
  }

  /** The file that recovery would make the recording, as the files stand; none if it must wait or fail. */
  function Chosen(row: Segment, d: Directory): Option<Node> {
    var (part, final) := (KindIn(d, row.partPath), KindIn(d, row.finalPath));
    match row.artifact
    case Finalizing(_) =>
      if part.RegularFile? && final.Missing? then Some(d[row.partPath])
      else if part.Missing? && final.RegularFile? then Some(d[row.finalPath])
      else None
    case ResolvingConflict(_, KeepPart) =>
      if part.RegularFile? && !final.Irregular? then Some(d[row.partPath])
      else if part.Missing? && final.RegularFile? then Some(d[row.finalPath])
      else None
    case ResolvingConflict(_, KeepFinal) =>
      if !part.Irregular? && final.RegularFile? then Some(d[row.finalPath]) else None
    case _ => None
  }

  /** A name is free, or has these bytes. */
  ghost predicate FreeOrHolds(d: Directory, path: Path, bytes: Bytes) {
    path in d ==> d[path] == File(bytes)
  }

  /** Under a recording's own names there is nothing but what was written, and only once. */
  ghost predicate OwnNames(row: Segment, bytes: Bytes, d: Directory) {
    match row.artifact
    case Writing => FreeOrHolds(d, row.partPath, bytes) && row.finalPath !in d
    case Discarding(_) => FreeOrHolds(d, row.partPath, bytes) && row.finalPath !in d
    case Finalizing(_) =>
      && FreeOrHolds(d, row.partPath, bytes) && FreeOrHolds(d, row.finalPath, bytes)
      && (row.partPath !in d || row.finalPath !in d)
    case ResolvingConflict(_, _) => false
    case _ => true
  }

  /** What one possible directory must show for a row. */
  ghost predicate RowSafe(row: Segment, promise: Promise, d: Directory) {
    match row.artifact
    case Ready(_) =>
      && row.finalPath in d && d[row.finalPath].File?
      && (!promise.NoPromise? ==> Holds(d, row.finalPath, promise.bytes))
    case Filtered(_) => row.partPath !in d && row.finalPath !in d
    case Deleted => row.finalPath !in d
    case _ =>
      match promise
      case NoPromise => true
      case Keeps(bytes) => Chosen(row, d).Some? ==> Chosen(row, d) == Some(File(bytes))
      case Wrote(bytes) => OwnNames(row, bytes, d)
  }

  /** The row is safe now and after any crash. */
  ghost predicate RowDurable(row: Segment, promise: Promise, fs: Fs) {
    forall n | 0 <= n <= |fs.pending| :: RowSafe(row, promise, fs.View(n))
  }

  ghost predicate FilesOk(db: Db, fs: Fs, intended: Intended) {
    forall k {:trigger RowDurable(db.segments[k], IntendedFor(intended, k), fs)} | k in db.segments ::
      RowDurable(db.segments[k], IntendedFor(intended, k), fs)
  }

  /** The names of two segments, or of one segment's two files, never coincide. */
  ghost predicate Apart(db: Db, k: SegmentKey, k': SegmentKey)
    requires k in db.segments && k' in db.segments
  {
    if k == k' then db.segments[k].partPath != db.segments[k].finalPath
    else {db.segments[k].partPath, db.segments[k].finalPath} !! {db.segments[k'].partPath, db.segments[k'].finalPath}
  }

  /** Different segments use different names, as the recording layout assigns them. */
  ghost predicate PathsApart(db: Db) {
    forall k, k' {:trigger Apart(db, k, k')} | k in db.segments && k' in db.segments :: Apart(db, k, k')
  }

  predicate SamePaths(row: Segment, row': Segment) {
    row'.partPath == row.partPath && row'.finalPath == row.finalPath
  }

  /** The row kept its names, and did not go back to being recorded. */
  predicate Follows(row: Segment, row': Segment) {
    SamePaths(row, row') && (row'.artifact.Writing? ==> row.artifact.Writing?)
  }

  /** No row came or went, and each kept its names. */
  ghost predicate NamesKept(db: Db, db': Db) {
    && db'.segments.Keys == db.segments.Keys
    && forall k {:trigger db'.segments[k]} | k in db.segments :: Follows(db.segments[k], db'.segments[k])
  }

  /** The names of a segment are no other row's. */
  ghost predicate NamesApart(db: Db, segment: Segment) {
    forall k | k in db.segments && k != segment.Key() ::
      {db.segments[k].partPath, db.segments[k].finalPath} !! {segment.partPath, segment.finalPath}
  }

  /** A new row, as it was asked for. */
  predicate Opens(row: Segment, segment: Segment) {
    row.artifact.Writing? && row.Key() == segment.Key() && SamePaths(segment, row)
  }

  /** Whatever a crash leaves, nothing has the segment's names. */
  ghost predicate NamesFree(segment: Segment, fs: Fs) {
    forall n | 0 <= n <= |fs.pending| :: segment.partPath !in fs.View(n) && segment.finalPath !in fs.View(n)
  }

  /** What is written under free names is promised for good. */
  ghost function PromiseToWrite(intended: Intended, segment: Segment, bytes: Bytes, fs: Fs): Intended {
    if NamesFree(segment, fs) then intended[segment.Key() := Wrote(bytes)] else intended - {segment.Key()}
  }

  // ----- What keeps files and rows in step -----

  predicate OpOf(row: Segment, op: DirectoryOp) {
    match op
    case Put(path, _) => path == row.partPath
    case Rename(source, path) => source == row.partPath && path == row.finalPath
    case Remove(path) => path == row.partPath || path == row.finalPath
  }

  lemma CrashKeepsRows(db: Db, fs: Fs, intended: Intended, fs': Fs)
    requires FilesOk(db, fs, intended) && CrashOf(fs, fs')
    ensures FilesOk(db, fs', intended)
  {
    var n: nat :| n <= |fs.pending| && fs' == fs.Crash(n);
    forall k | k in db.segments ensures RowDurable(db.segments[k], IntendedFor(intended, k), fs') {
      forall m | 0 <= m <= |fs'.pending| ensures RowSafe(db.segments[k], IntendedFor(intended, k), fs'.View(m)) {
        assert RowDurable(db.segments[k], IntendedFor(intended, k), fs);
        assert fs'.View(m) == fs.View(n);
      }
    }
  }

  lemma SyncKeepsRows(db: Db, fs: Fs, intended: Intended)
    requires FilesOk(db, fs, intended)
    ensures FilesOk(db, fs.Sync(), intended)
    ensures fs.Sync().Visible() == fs.Visible()
  {
    VisibleIsLastView(fs);
    assert CrashOf(fs, fs.Crash(|fs.pending|));
    CrashKeepsRows(db, fs, intended, fs.Sync());
  }

  /** A name that holds the same node in every crash state keeps doing so. */
  ghost predicate StableKept(fs: Fs, fs': Fs, path: Path) {
    forall node | Stable(fs, path, node) :: Stable(fs', path, node)
  }

  /** All names but these are left alone. */
  ghost predicate Spared(fs: Fs, fs': Fs, touched: set<Path>) {
    forall path, node {:trigger Stable(fs, path, node)} | path !in touched && Stable(fs, path, node) ::
      Stable(fs', path, node)
  }

  function Names(row: Segment): set<Path> {
    {row.partPath, row.finalPath}
  }

  /** A crash, or a sync, leaves every name alone. */
  lemma CrashSpares(fs: Fs, fs': Fs)
    requires CrashOf(fs, fs') || fs' == fs.Sync()
    ensures Spared(fs, fs', {})
  {
    VisibleIsLastView(fs);
    forall path, node | Stable(fs, path, node) ensures Stable(fs', path, node) {
      forall m | 0 <= m <= |fs'.pending| ensures path in fs'.View(m) && fs'.View(m)[path] == node {
        assert fs'.View(m) == fs'.durable;
      }
    }
  }

  /** Only a deletion and the decision for the part may take a final file away. */
  predicate MayTouchFinal(artifact: ArtifactState) {
    artifact.Deleting? || (artifact.ResolvingConflict? && artifact.decision.KeepPart?)
  }

  /** The row's final file, if it was there to stay, is there to stay. */
  ghost predicate FinalKept(db: Db, fs: Fs, db': Db, fs': Fs, key: SegmentKey)
    requires key in db.segments
  {
    && key in db'.segments && SamePaths(db.segments[key], db'.segments[key])
    && !MayTouchFinal(db'.segments[key].artifact)
    && StableKept(fs, fs', db.segments[key].finalPath)
  }

  /**
    Outside announced deletions and decisions for the part, final files stay; `doomed` are the rows
    for which either was announced meanwhile.
   */
  ghost predicate FinalsKept(db: Db, fs: Fs, db': Db, fs': Fs, doomed: set<SegmentKey>) {
    forall k {:trigger FinalKept(db, fs, db', fs', k)} |
      k in db.segments && k !in doomed && !MayTouchFinal(db.segments[k].artifact) :: FinalKept(db, fs, db', fs', k)
  }

  lemma FinalsKeptTransitive(a: Db, p: Fs, b: Db, q: Fs, c: Db, r: Fs, doomed: set<SegmentKey>, more: set<SegmentKey>)
    requires FinalsKept(a, p, b, q, doomed) && FinalsKept(b, q, c, r, more)
    ensures FinalsKept(a, p, c, r, doomed + more)
  {
    hide Stable;
    forall k | k in a.segments && k !in doomed + more && !MayTouchFinal(a.segments[k].artifact)
      ensures FinalKept(a, p, c, r, k)
    {
      assert FinalKept(a, p, b, q, k) && FinalKept(b, q, c, r, k);
    }
  }

  lemma SameRowsKeepFinals(db: Db, fs: Fs, db': Db, fs': Fs)
    requires db'.segments == db.segments && Spared(fs, fs', {})
    ensures FinalsKept(db, fs, db', fs', {})
  {
  }

  /** No other row changed. */
  ghost predicate OthersSame(db: Db, db': Db, key: SegmentKey) {
    forall k {:trigger db'.segments[k]} {:trigger db.segments[k]} | k in db.segments && k != key ::
      k in db'.segments && db'.segments[k] == db.segments[k]
  }

  lemma OthersSameTransitive(a: Db, b: Db, c: Db, key: SegmentKey)
    requires OthersSame(a, b, key) && OthersSame(b, c, key)
    ensures OthersSame(a, c, key)
  {
  }

  /** Work on one row's files leaves the other rows' final files alone. */
  lemma RowWorkKeepsFinals(db: Db, fs: Fs, db': Db, fs': Fs, key: SegmentKey, doomed: set<SegmentKey>)
    requires PathsApart(db) && key in db.segments && Spared(fs, fs', Names(db.segments[key]))
    requires OthersSame(db, db', key)
    requires key in doomed || MayTouchFinal(db.segments[key].artifact) || FinalKept(db, fs, db', fs', key)
    ensures FinalsKept(db, fs, db', fs', doomed)
  {
    hide Stable;
    forall k | k in db.segments && k !in doomed && !MayTouchFinal(db.segments[k].artifact)
      ensures FinalKept(db, fs, db', fs', k)
    {
      if k != key {
        assert Apart(db, k, key);
      }
    }
  }

  function Touched(op: DirectoryOp): set<Path> {
    match op
    case Put(path, _) => {path}
    case Rename(source, path) => {source, path}
    case Remove(path) => {path}
  }

  /** A change leaves alone what it does not name. */
  lemma ActSpares(fs: Fs, op: DirectoryOp)
    ensures Spared(fs, fs.Act(op), Touched(op))
  {
    var fs' := fs.Act(op);
    ViewsAfter(fs, op);
    VisibleIsLastView(fs);
    forall path, node | path !in Touched(op) && Stable(fs, path, node) ensures Stable(fs', path, node) {
      forall n | 0 <= n <= |fs'.pending| ensures path in fs'.View(n) && fs'.View(n)[path] == node {
        if n <= |fs.pending| {
          assert fs'.View(n) == fs.View(n);
        } else {
          assert path in fs.View(|fs.pending|) && fs.View(|fs.pending|)[path] == node;
        }
      }
    }
  }

  lemma NothingStable(fs: Fs, fs': Fs, path: Path)
    requires path !in fs.Visible()
    ensures StableKept(fs, fs', path)
  {
    VisibleIsLastView(fs);
    assert path !in fs.View(|fs.pending|);
  }

  /** After a sync only the visible directory counts. */
  lemma SyncedRow(row: Segment, promise: Promise, fs: Fs)
    requires fs.pending == []
    ensures RowDurable(row, promise, fs) <==> RowSafe(row, promise, fs.Visible())
  {
    VisibleIsLastView(fs);
  }

  lemma OpKeepsRow(row: Segment, promise: Promise, fs: Fs, op: DirectoryOp)
    requires RowDurable(row, promise, fs) && RowSafe(row, promise, Step(fs.Visible(), op))
    ensures RowDurable(row, promise, fs.Act(op))
  {
    ViewsAfter(fs, op);
    var fs' := fs.Act(op);
    forall n | 0 <= n <= |fs'.pending| ensures RowSafe(row, promise, fs'.View(n)) {
      if n <= |fs.pending| {
        assert fs'.View(n) == fs.View(n);
      }
    }
  }

  lemma OpKeepsRows(db: Db, fs: Fs, intended: Intended, key: SegmentKey, op: DirectoryOp)
    requires FilesOk(db, fs, intended) && PathsApart(db) && key in db.segments && OpOf(db.segments[key], op)
    requires RowSafe(db.segments[key], IntendedFor(intended, key), Step(fs.Visible(), op))
    ensures FilesOk(db, fs.Act(op), intended)
  {
    VisibleIsLastView(fs);
    forall k | k in db.segments ensures RowDurable(db.segments[k], IntendedFor(intended, k), fs.Act(op)) {
      var row := db.segments[k];
      assert RowDurable(row, IntendedFor(intended, k), fs);
      assert RowSafe(row, IntendedFor(intended, k), fs.View(|fs.pending|));
      assert Apart(db, k, key);
      if k != key {
        assert RowSafe(row, IntendedFor(intended, k), Step(fs.Visible(), op));
      }
      OpKeepsRow(row, IntendedFor(intended, k), fs, op);
    }
  }

  /** A store step that moves one row keeps the rest in step with their files. */
  lemma RowStepKeepsRows(db: Db, db': Db, fs: Fs, intended: Intended, intended': Intended, key: SegmentKey)
    requires FilesOk(db, fs, intended) && PathsApart(db) && key in db.segments
    requires db'.segments.Keys == db.segments.Keys
    requires forall k | k in db.segments && k != key ::
               db'.segments[k] == db.segments[k] && IntendedFor(intended', k) == IntendedFor(intended, k)
    requires db'.segments[key].partPath == db.segments[key].partPath
             && db'.segments[key].finalPath == db.segments[key].finalPath
    requires RowDurable(db'.segments[key], IntendedFor(intended', key), fs)
    ensures FilesOk(db', fs, intended') && PathsApart(db')
  {
    forall k | k in db'.segments ensures RowDurable(db'.segments[k], IntendedFor(intended', k), fs) {
      assert RowDurable(db.segments[k], IntendedFor(intended, k), fs);
    }
    forall k, k' | k in db'.segments && k' in db'.segments ensures Apart(db', k, k') {
      assert Apart(db, k, k');
    }
  }

  lemma SameSegmentsInStep(db: Db, db': Db, fs: Fs, intended: Intended)
    requires db'.segments == db.segments && PathsApart(db) && FilesOk(db, fs, intended)
    ensures PathsApart(db') && FilesOk(db', fs, intended)
  {
    forall k, k' | k in db'.segments && k' in db'.segments ensures Apart(db', k, k') {
      assert Apart(db, k, k');
    }
  }

  /** Whatever a crash leaves, recovery would choose these bytes or none. */
  ghost predicate Sheltered(row: Segment, bytes: Bytes, fs: Fs) {
    forall n | 0 <= n <= |fs.pending| :: Chosen(row, fs.View(n)).Some? ==> Chosen(row, fs.View(n)) == Some(File(bytes))
  }

  ghost predicate OtherFile(d: Directory, path: Path, bytes: Bytes) {
    path in d && d[path].File? && d[path] != File(bytes)
  }

  /** The files a crash leaves offer recovery something else than these bytes. */
  ghost predicate Intruded(row: Segment, bytes: Bytes, d: Directory) {
    match row.artifact
    case Finalizing(_) =>
      || (row.partPath !in d && OtherFile(d, row.finalPath, bytes))
      || (OtherFile(d, row.partPath, bytes) && row.finalPath !in d)
    case ResolvingConflict(_, KeepPart) =>
      || (row.partPath !in d && OtherFile(d, row.finalPath, bytes))
      || (OtherFile(d, row.partPath, bytes) && KindIn(d, row.finalPath) != Irregular)
    case ResolvingConflict(_, KeepFinal) => OtherFile(d, row.finalPath, bytes) && KindIn(d, row.partPath) != Irregular
    case _ => false
  }

  /** A decision about bytes is safe exactly when no crash leaves files that offer others. */
  lemma ShelteredIff(row: Segment, bytes: Bytes, fs: Fs)
    ensures Sheltered(row, bytes, fs) <==> forall n | 0 <= n <= |fs.pending| :: !Intruded(row, bytes, fs.View(n))
  {
    forall n | 0 <= n <= |fs.pending|
      ensures Intruded(row, bytes, fs.View(n)) <==>
                Chosen(row, fs.View(n)).Some? && Chosen(row, fs.View(n)) != Some(File(bytes))
    {
      IntrudedMeansChosen(row, bytes, fs.View(n));
    }
  }

  lemma IntrudedMeansChosen(row: Segment, bytes: Bytes, d: Directory)
    ensures Intruded(row, bytes, d) <==> Chosen(row, d).Some? && Chosen(row, d) != Some(File(bytes))
  {
  }

  ghost function BytesAt(d: Directory, path: Path): Bytes {
    if path in d && d[path].File? then d[path].bytes else []
  }

  /** The bytes the row's owner has just decided for. */
  ghost function DecidedBytes(row: Segment, d: Directory): Bytes {
    if row.artifact.ResolvingConflict? && row.artifact.decision.KeepFinal? then BytesAt(d, row.finalPath)
    else BytesAt(d, row.partPath)
  }

  /** The decision is promised exactly where no crash can bring another file into its place. */
  ghost function Intend(intended: Intended, row: Segment, fs: Fs): Intended {
    var bytes := DecidedBytes(row, fs.Visible());
    if row.artifact.Finalizing? && IntendedFor(intended, row.Key()).Wrote? then intended
    else if Sheltered(row, bytes, fs) then intended[row.Key() := Keeps(bytes)]
    else intended - {row.Key()}
  }

  /** A new segment joins with names of its own. */
  lemma NewSegmentKeepsFiles(db: Db, segment: Segment, bytes: Bytes, fs: Fs, intended: Intended)
    requires Inv(db) && PathsApart(db) && FilesOk(db, fs, intended) && CanOpenSegment(db, segment)
             && NamesApart(db, segment)
    ensures PathsApart(SegmentOpened(db, segment))
    ensures FilesOk(SegmentOpened(db, segment), fs, PromiseToWrite(intended, segment, bytes, fs))
  {
    var (db', intended') := (SegmentOpened(db, segment), PromiseToWrite(intended, segment, bytes, fs));
    forall k, k' | k in db'.segments && k' in db'.segments ensures Apart(db', k, k') {
      if k != segment.Key() && k' != segment.Key() {
        assert Apart(db, k, k');
      }
    }
    forall k | k in db'.segments ensures RowDurable(db'.segments[k], IntendedFor(intended', k), fs) {
      if k != segment.Key() {
        assert RowDurable(db.segments[k], IntendedFor(intended, k), fs);
      }
    }
  }

  lemma DecisionKeepsFiles(db: Db, key: SegmentKey, decision: ArtifactDecision, note: Option<string>, now: Timestamp,
      fs: Fs, intended: Intended)
    requires Inv(db) && CanBeginConflict(db, key) && PathsApart(db) && FilesOk(db, fs, intended)
    ensures var db' := ConflictBegun(db, key, decision, note, now);
            Inv(db') && PathsApart(db') && key in db'.segments
                && FilesOk(db', fs, Intend(intended, db'.segments[key], fs))
    ensures db.segments[key].Key() == key && ClaimRoom(db, db.sessions[key.sid], now) == db
  {
    ConflictKeeps(db, key, decision, note, now);
    ClaimIsExact(db, key.sid, now);
    assert SegmentOk(db, key);
    var db' := ConflictBegun(db, key, decision, note, now);
    var intended' := Intend(intended, db'.segments[key], fs);
    IntendIsDurable(db'.segments[key], fs, intended);
    RowStepKeepsRows(db, db', fs, intended, intended', key);
  }

  lemma IntendIsDurable(row: Segment, fs: Fs, intended: Intended)
    requires row.artifact.Finalizing? || row.artifact.ResolvingConflict?
    requires row.artifact.Finalizing? ==> RowDurable(row.(artifact := Writing), IntendedFor(intended, row.Key()), fs)
    ensures RowDurable(row, IntendedFor(Intend(intended, row, fs), row.Key()), fs)
  {
    if row.artifact.Finalizing? && IntendedFor(intended, row.Key()).Wrote? {
      forall n | 0 <= n <= |fs.pending| ensures RowSafe(row, IntendedFor(intended, row.Key()), fs.View(n)) {
        assert RowSafe(row.(artifact := Writing), IntendedFor(intended, row.Key()), fs.View(n));
      }
    }
  }

  lemma DeletedKeepsFiles(db: Db, key: SegmentKey, fs: Fs, intended: Intended)
    requires Inv(db) && key in db.segments && db.segments[key].artifact.Deleting? && PathsApart(db)
             && FilesOk(db, fs, intended)
    requires fs.pending == [] && db.segments[key].finalPath !in fs.Visible()
    ensures var db' := WithArtifact(db, key, Deleted);
            Inv(db') && PathsApart(db') && FilesOk(db', fs, intended) && OthersKept(db, db', key)
    ensures db.segments[key].Key() == key
  {
    assert SegmentOk(db, key);
    CompleteDeleteKeeps(db, key);
    var db' := WithArtifact(db, key, Deleted);
    PutKeepsOthers(db, db'.segments[key]);
    SyncedRow(db'.segments[key], IntendedFor(intended, key), fs);
    RowStepKeepsRows(db, db', fs, intended, intended, key);
  }

  lemma PutKeepsOthers(db: Db, row: Segment)
    requires row.Key() in db.segments && Follows(db.segments[row.Key()], row)
    ensures OthersKept(db, db.PutSegment(row), row.Key())
  {
    assert db.PutSegment(row).segments.Keys == db.segments.Keys;
  }

  lemma FailIsLocal(db: Db, key: SegmentKey, reason: Reason, close: Option<SegmentCloseReason>, now: Timestamp)
    requires Inv(db) && CanFailArtifact(db, key, reason)
    ensures OthersKept(db, ArtifactFailed(db, key, reason, close, now), key)
    ensures ArtifactFailed(db, key, reason, close, now).segments[key].artifact.Failed?
    ensures var row' := ArtifactFailed(db, key, reason, close, now).segments[key];
            && row' == db.segments[key].(artifact := row'.artifact)
            && row'.artifact == Failed(reason, if close.Some? then close else db.segments[key].artifact.CloseReason())
  {
    assert SegmentOk(db, key) && SessionOk(db, key.sid);
    var db' := ArtifactFailed(db, key, reason, close, now);
    assert db'.segments.Keys == db.segments.Keys;
    forall id | id in db.sessions ensures SessionKept(db, db', id) {
      RecoveryIsLocal(db, key.sid, db', id);
    }
  }

  lemma FailKeepsFiles(db: Db, key: SegmentKey, reason: Reason, close: Option<SegmentCloseReason>, now: Timestamp,
      fs: Fs, intended: Intended)
    requires Inv(db) && CanFailArtifact(db, key, reason) && PathsApart(db) && FilesOk(db, fs, intended)
    ensures var db' := ArtifactFailed(db, key, reason, close, now);
            Inv(db') && PathsApart(db') && FilesOk(db', fs, intended)
  {
    FailArtifactKeeps(db, key, reason, close, now);
    assert SegmentOk(db, key);
    RowStepKeepsRows(db, ArtifactFailed(db, key, reason, close, now), fs, intended, intended, key);
  }

  /** While a row waits for its file work, its session can still be claimed and the work recorded. */
  lemma CompletionEnabled(db: Db, key: SegmentKey, move: ArtifactMove)
    requires Inv(db) && key in db.segments && !move.RequiresOpen() && MoveArtifact(db.segments[key], move).Some?
    ensures CanMoveArtifact(db, key, move)
  {
    assert SegmentOk(db, key);
    ClaimIsExact(db, key.sid, 0);
  }

  predicate Discardable(d: Directory, row: Segment) {
    row.finalPath !in d && KindIn(d, row.partPath) != Irregular
  }

  /** The file the operator's decision keeps: the part's while it is there, otherwise what is final. */
  function Kept(decision: ArtifactDecision, d: Directory, row: Segment): Option<Node> {
    if decision.KeepPart? && row.partPath in d then Some(d[row.partPath])
    else if row.finalPath in d then Some(d[row.finalPath])
    else None
  }

  /** The decision can be carried out on these files, or they are both gone. */
  predicate Replayable(decision: ArtifactDecision, d: Directory, row: Segment) {
    var (part, final) := (KindIn(d, row.partPath), KindIn(d, row.finalPath));
    match decision
    case KeepPart => !part.Irregular? && !final.Irregular?
    case KeepFinal => (!part.Irregular? && final.RegularFile?) || (part.Missing? && final.Missing?)
    case Exclude => true
  }

  /** How a carried-out decision ends: the kept file is final, alone and durable. */
  ghost predicate Resolved(decision: ArtifactDecision, d: Directory, before: Segment, after: Segment, fs: Fs)
    requires before.artifact.ResolvingConflict?
  {
    match decision
    case Exclude =>
      after == before.(artifact := after.artifact, upload := NotPlanned) && after.artifact.Excluded?
    case _ =>
      if Kept(decision, d, before).None? then
        && after == before.(artifact := after.artifact)
        && after.artifact.Failed? && after.artifact.failedClose == before.artifact.CloseReason()
      else
        && after == before.(artifact := ArtifactState.Ready(before.artifact.closeReason))
        && fs.pending == []
        && before.finalPath in fs.durable && Some(fs.durable[before.finalPath]) == Kept(decision, d, before)
        && before.partPath !in fs.durable
  }

  /** What startup recovery leaves: the row is settled, or the operator has to decide, or deletion waits. */
  ghost predicate RowReconciled(db: Db, key: SegmentKey) {
    && key in db.segments && key.sid in db.sessions
    && var artifact := db.segments[key].artifact;
    && !artifact.Writing?
    && (artifact.Unresolved() && !artifact.Deleting? ==> db.sessions[key.sid].lifecycle.RecoveryRequired?)
  }

  /** The files give startup recovery nothing more to do for this row. */
  predicate RowQuiet(row: Segment, d: Directory) {
    var (part, final) := (KindIn(d, row.partPath), KindIn(d, row.finalPath));
    match row.artifact
    case Writing => false
    case Finalizing(_) => part.Irregular? || final.Irregular? || (part.RegularFile? && final.RegularFile?)
    case Discarding(_) => !Discardable(d, row)
    case ResolvingConflict(_, decision) => !Replayable(decision, d, row)
    case Deleting => final.Irregular?
    case _ => true
  }

  /** Recovery left the row's intent to the operator. */
  predicate Waits(artifact: ArtifactState) {
    artifact.Finalizing? || artifact.Discarding? || artifact.ResolvingConflict?
  }

  function KindText(kind: PathKind): string {
    match kind
    case Missing => "Missing"
    case RegularFile => "RegularFile"
    case Irregular => "Other"
  }

  function Matrix(d: Directory, row: Segment): string {
    "part=" + KindText(KindIn(d, row.partPath)) + ", final=" + KindText(KindIn(d, row.finalPath))
  }

  function DecisionText(decision: ArtifactDecision): string {
    match decision
    case KeepPart => "KeepPart"
    case KeepFinal => "KeepFinal"
    case Exclude => "Exclude"
  }

  /** Why startup recovery does not go on with a row, as the files stand. */
  function StopDetail(row: Segment, d: Directory): string {
    var (part, final) := (KindIn(d, row.partPath), KindIn(d, row.finalPath));
    match row.artifact
    case Finalizing(_) =>
      if part.RegularFile? && final.RegularFile? then "both part and final files exist during finalization"
      else "finalization paths are not a recoverable regular-file matrix: " + Matrix(d, row)
    case Discarding(_) =>
      if !final.Missing? then "discard intent conflicts with final path state " + KindText(final)
      else "discard part path is not removable: " + KindText(part)
    case ResolvingConflict(_, decision) => DecisionText(decision) + " cannot continue: " + Matrix(d, row)
    case _ => ""
  }

  function StopReason(row: Segment, d: Directory): Reason {
    ArtifactStopped(row.sid, row.index, StopDetail(row, d))
  }

  const OPERATION_FAILED := "a file operation failed"

  /** The room shows that its session needs the operator, and why. */
  ghost predicate RoomTells(db: Db, session: LiveSession) {
    && session.lifecycle.RecoveryRequired?
    && session.roomId in db.rooms
    && db.rooms[session.roomId].lifecycle == RoomLifecycle.Blocked(session.id)
    && db.rooms[session.roomId].message == Some(session.lifecycle.reason)
  }

  /** The session is in recovery and this reason is on record. */
  ghost predicate Told(db: Db, sid: Uuid, reason: Reason) {
    && sid in db.sessions
    && RoomTells(db, db.sessions[sid])
    && (db.sessions[sid].lifecycle.reason == reason || HasRecorded(db.sessions[sid], reason))
  }

  /** Startup recovery has nothing more to do for this row, and nothing more to say. */
  ghost predicate RowSettled(db: Db, key: SegmentKey, d: Directory) {
    && key in db.segments
    && RowQuiet(db.segments[key], d)
    && (Waits(db.segments[key].artifact) ==> Told(db, key.sid, StopReason(db.segments[key], d)))
  }

  /** Two databases that differ in nothing but the times at which rooms were last written. */
  ghost predicate SameButTimes(db: Db, db': Db) {
    && db'.sessions == db.sessions && db'.segments == db.segments
    && db'.submissions == db.submissions && db'.gates == db.gates
    && db'.rooms.Keys == db.rooms.Keys
    && forall room | room in db.rooms ::
         db'.rooms[room].lifecycle == db.rooms[room].lifecycle && db'.rooms[room].message == db.rooms[room].message
  }

  /** A recording is the outcome, or will be when its file work is done. */
  predicate Settling(artifact: ArtifactState) {
    artifact.Ready? || artifact.Finalizing? || artifact.ResolvingConflict?
  }

  /** Nothing became a recording that was not about to. */
  ghost predicate NoneRevived(db: Db, db': Db) {
    forall k {:trigger db'.segments[k]} | k in db.segments && k in db'.segments ::
      Settling(db'.segments[k].artifact) ==> Settling(db.segments[k].artifact)
  }

  lemma SameButTimesSelf(db: Db)
    ensures SameButTimes(db, db)
  {
  }

  lemma SameButTimesTransitive(a: Db, b: Db, c: Db)
    requires SameButTimes(a, b) && SameButTimes(b, c)
    ensures SameButTimes(a, c)
  {
  }

  /** A session in recovery stays there, for the same first reason, and nothing it noted is lost. */
  ghost predicate SessionKept(db: Db, db': Db, id: Uuid)
    requires id in db.sessions
  {
    && id in db'.sessions
    && var (s, s') := (db.sessions[id], db'.sessions[id]);
    && (s.lifecycle.RecoveryRequired? ==>
          s'.lifecycle == s.lifecycle && s'.roomId == s.roomId && s'.id == s.id && s.events <= s'.events)
    && (RoomTells(db, s) ==> RoomTells(db', s'))
  }

  /** Nothing happened to the other rows, to submissions and to gates, and no session went back from recovery. */
  ghost predicate OthersKept(db: Db, db': Db, key: SegmentKey) {
    && db'.segments.Keys == db.segments.Keys
    && (forall k {:trigger db'.segments[k]} | k in db.segments && k != key :: db'.segments[k] == db.segments[k])
    && (key in db.segments ==> Follows(db.segments[key], db'.segments[key]))
    && (forall id {:trigger SessionKept(db, db', id)} | id in db.sessions :: SessionKept(db, db', id))
    && db'.submissions == db.submissions && db'.gates == db.gates
  }

  lemma ToldAfter(db: Db, sid: Uuid, reason: Reason, now: Timestamp)
    requires Inv(db) && CanRequireRecovery(db, sid, reason)
    ensures Told(RecoveryRequested(db, sid, reason, now), sid, reason)
  {
    assert SessionOk(db, sid);
    var (s, s') := (db.sessions[sid], RecoveryRequested(db, sid, reason, now).sessions[sid]);
    if !(s.lifecycle.RecoveryRequired? && (s.lifecycle.reason == reason || HasRecorded(s, reason))) {
      assert Records(s'.events[|s'.events| - 1], reason);
    }
  }

  /** Telling it again changes nothing but the time. */
  lemma ToldAgain(db: Db, sid: Uuid, reason: Reason, now: Timestamp)
    requires Inv(db) && Told(db, sid, reason)
    ensures SameButTimes(db, RecoveryRequested(db, sid, reason, now))
  {
    assert SessionOk(db, sid);
  }

  lemma ToldStays(db: Db, db': Db, sid: Uuid, reason: Reason)
    requires Told(db, sid, reason) && SessionKept(db, db', sid)
    ensures Told(db', sid, reason)
  {
    var (s, s') := (db.sessions[sid], db'.sessions[sid]);
    if HasRecorded(s, reason) {
      var i :| 0 <= i < |s.events| && Records(s.events[i], reason);
      assert s'.events[i] == s.events[i];
    }
  }

  /** A session that is not another's rival keeps its room whatever is noted for the other. */
  lemma RecoveryIsLocal(db: Db, sid: Uuid, db': Db, id: Uuid)
    requires Inv(db) && sid in db.sessions && CanClaimRoom(db, db.sessions[sid]) && id in db.sessions
    requires id == sid ==> SessionKept(db, db', id)
    requires id != sid ==> id in db'.sessions && db'.sessions[id] == db.sessions[id]
    requires forall room | room in db.rooms && room != db.sessions[sid].roomId ::
               room in db'.rooms && db'.rooms[room] == db.rooms[room]
    ensures SessionKept(db, db', id)
  {
    assert SessionOk(db, sid) && SessionOk(db, id);
  }

  lemma RequestIsLocal(db: Db, sid: Uuid, reason: Reason, now: Timestamp, key: SegmentKey)
    requires Inv(db) && CanRequireRecovery(db, sid, reason)
    ensures OthersKept(db, RecoveryRequested(db, sid, reason, now), key)
  {
    assert SessionOk(db, sid);
    var db' := RecoveryRequested(db, sid, reason, now);
    forall id | id in db.sessions ensures SessionKept(db, db', id) {
      RecoveryIsLocal(db, sid, db', id);
    }
  }

  predicate SameAt(d: Directory, d': Directory, path: Path) {
    (path in d <==> path in d') && (path in d ==> d'[path] == d[path])
  }

  /** No other name changed. */
  ghost predicate OnlyPaths(d: Directory, d': Directory, row: Segment) {
    forall path | path != row.partPath && path != row.finalPath :: SameAt(d, d', path)
  }

  // ----- What recovery owes each row -----

  function NodeAt(d: Directory, path: Path): Option<Node> {
    if path in d then Some(d[path]) else None
  }

  /** The name holds this, or nothing, now and after any crash. */
  ghost predicate AtRest(fs: Fs, path: Path, what: Option<Node>) {
    forall n | 0 <= n <= |fs.pending| :: NodeAt(fs.View(n), path) == what
  }

  ghost predicate SyncedOrSame(fs: Fs, fs': Fs) {
    fs' == fs || fs'.pending == []
  }

  /** The row is a recording, and its file alone is there, durably. */
  ghost predicate BecameReady(before: Segment, reason: SegmentCloseReason, node: Node, after: Segment, fs: Fs) {
    && after == before.(artifact := ArtifactState.Ready(reason))
    && AtRest(fs, before.finalPath, Some(node)) && AtRest(fs, before.partPath, None)
  }

  ghost predicate FilesUntouched(row: Segment, fs: Fs, fs': Fs) {
    SameAt(fs.Visible(), fs'.Visible(), row.partPath) && SameAt(fs.Visible(), fs'.Visible(), row.finalPath)
  }

  /** Given up, with whatever files there are. */
  ghost predicate GaveUp(before: Segment, after: Segment, fs: Fs, fs': Fs) {
    && after == before.(artifact := after.artifact)
    && after.artifact.Failed? && after.artifact.failedClose == before.artifact.CloseReason()
    && FilesUntouched(before, fs, fs')
  }

  ghost predicate LeftAlone(before: Segment, after: Segment, fs: Fs, fs': Fs) {
    after == before && FilesUntouched(before, fs, fs')
  }

  /** Nothing is left to keep, or nothing can be told from what there is. */
  ghost predicate CannotGoOn(before: Segment, after: Segment, fs: Fs, fs': Fs) {
    if before.partPath !in fs.Visible() && before.finalPath !in fs.Visible() then GaveUp(before, after, fs, fs')
    else LeftAlone(before, after, fs, fs')
  }

  /**
    What recovery makes of a row, by its artifact state and the kinds of its two files: whatever
    can be completed is, the row fails only where it was being written or has no file left, and
    in every other case it is left as it is.
   */
  ghost predicate Recovered(before: Segment, fs: Fs, after: Segment, fs': Fs) {
    var d := fs.Visible();
    var (part, final) := (KindIn(d, before.partPath), KindIn(d, before.finalPath));
    match before.artifact
    case Writing => GaveUp(before, after, fs, fs')
    case Finalizing(reason) =>
      if part.RegularFile? && final.Missing? then BecameReady(before, reason, d[before.partPath], after, fs')
      else if part.Missing? && final.RegularFile? then BecameReady(before, reason, d[before.finalPath], after, fs')
      else CannotGoOn(before, after, fs, fs')
    case Discarding(reason) =>
      if final.Missing? && !part.Irregular? then
        && after == before.(artifact := Filtered(reason), upload := NotPlanned)
        && AtRest(fs', before.partPath, None) && AtRest(fs', before.finalPath, None)
      else LeftAlone(before, after, fs, fs')
    case ResolvingConflict(reason, KeepPart) =>
      if part.RegularFile? && !final.Irregular? then BecameReady(before, reason, d[before.partPath], after, fs')
      else if part.Missing? && final.RegularFile? then BecameReady(before, reason, d[before.finalPath], after, fs')
      else CannotGoOn(before, after, fs, fs')
    case ResolvingConflict(reason, KeepFinal) =>
      if !part.Irregular? && final.RegularFile? then BecameReady(before, reason, d[before.finalPath], after, fs')
      else CannotGoOn(before, after, fs, fs')
    case ResolvingConflict(_, Exclude) =>
      && after == before.(artifact := after.artifact, upload := NotPlanned) && after.artifact.Excluded?
      && FilesUntouched(before, fs, fs')
    case Deleting =>
      if !final.Irregular? then after == before.(artifact := Deleted) && AtRest(fs', before.finalPath, None)
      else LeftAlone(before, after, fs, fs')
    case _ => LeftAlone(before, after, fs, fs')
  }

  lemma RestNow(fs: Fs, path: Path)
    requires fs.pending == []
    ensures AtRest(fs, path, NodeAt(fs.Visible(), path))
    ensures fs.durable == fs.Visible()
  {
    VisibleIsLastView(fs);
  }

  lemma RestStays(fs: Fs, fs': Fs, path: Path, what: Option<Node>)
    requires AtRest(fs, path, what) && SyncedOrSame(fs, fs') && SameAt(fs.Visible(), fs'.Visible(), path)
    ensures AtRest(fs', path, what)
  {
    VisibleIsLastView(fs);
    assert NodeAt(fs.View(|fs.pending|), path) == what;
    if fs' != fs {
      RestNow(fs', path);
    }
  }

  /** Work elsewhere takes nothing of it back. */
  lemma RecoveredStays(before: Segment, fs: Fs, after: Segment, fs': Fs, fs'': Fs)
    requires Recovered(before, fs, after, fs') && SyncedOrSame(fs', fs'') && FilesUntouched(before, fs', fs'')
    ensures Recovered(before, fs, after, fs'')
  {
    hide AtRest;
    forall what | AtRest(fs', before.partPath, what) ensures AtRest(fs'', before.partPath, what) {
      RestStays(fs', fs'', before.partPath, what);
    }
    forall what | AtRest(fs', before.finalPath, what) ensures AtRest(fs'', before.finalPath, what) {
      RestStays(fs', fs'', before.finalPath, what);
    }
  }

  /** Nor does it matter when the row's turn came. */
  lemma RecoveredFrom(before: Segment, fs: Fs, mid: Fs, after: Segment, fs': Fs)
    requires Recovered(before, mid, after, fs') && FilesUntouched(before, fs, mid)
    ensures Recovered(before, fs, after, fs')
  {
    hide AtRest;
  }

  /** A decision that was carried out leaves what recovery owes the row. */
  lemma ResolvedIsRecovered(before: Segment, fs: Fs, after: Segment, fs': Fs)
    requires before.artifact.ResolvingConflict?
    requires var decision := before.artifact.decision;
             Replayable(decision, fs.Visible(), before) && Resolved(decision, fs.Visible(), before, after, fs')
    requires !after.artifact.Ready? ==> fs' == fs
    ensures Recovered(before, fs, after, fs') && SyncedOrSame(fs, fs')
  {
    hide AtRest;
    if after.artifact.Ready? {
      RestNow(fs', before.partPath);
      RestNow(fs', before.finalPath);
    }
  }

  lemma UnreplayableIsRecovered(row: Segment, fs: Fs)
    requires row.artifact.ResolvingConflict? && !Replayable(row.artifact.decision, fs.Visible(), row)
    ensures Recovered(row, fs, row, fs)
  {
  }

  /** How far recovery has come: the rows still to do are as they were, the others have what they are owed. */
  ghost predicate Midway(db: Db, fs: Fs, db': Db, fs': Fs, left: set<SegmentKey>) {
    && db'.segments.Keys == db.segments.Keys
    && (forall k | k in db.segments && k in left ::
          db'.segments[k] == db.segments[k] && FilesUntouched(db.segments[k], fs, fs'))
    && (forall k | k in db.segments && k !in left :: Recovered(db.segments[k], fs, db'.segments[k], fs'))
    && (forall k | k in db.segments :: SamePaths(db.segments[k], db'.segments[k]))
  }

  lemma MidwayStart(db: Db, fs: Fs)
    ensures Midway(db, fs, db, fs, db.segments.Keys)
  {
  }

  lemma MidwayDone(db: Db, fs: Fs, db': Db, fs': Fs)
    requires Midway(db, fs, db', fs', {})
    ensures forall k | k in db.segments :: k in db'.segments && Recovered(db.segments[k], fs, db'.segments[k], fs')
  {
  }

  lemma MidwayNext(db: Db, fs: Fs, mid: Db, midFs: Fs, db': Db, fs': Fs, key: SegmentKey, left: set<SegmentKey>)
    requires Midway(db, fs, mid, midFs, left) && key in left && key in mid.segments && PathsApart(mid)
    requires OthersSame(mid, db', key) && db'.segments.Keys == mid.segments.Keys
    requires SamePaths(mid.segments[key], db'.segments[key])
    requires OnlyPaths(midFs.Visible(), fs'.Visible(), mid.segments[key]) && SyncedOrSame(midFs, fs')
    requires Recovered(mid.segments[key], midFs, db'.segments[key], fs')
    ensures Midway(db, fs, db', fs', left - {key})
  {
    hide Recovered;
    RecoveredFrom(db.segments[key], fs, midFs, db'.segments[key], fs');
    forall k | k in db.segments && k != key ensures FilesUntouched(db.segments[k], midFs, fs') {
      assert Apart(mid, k, key);
    }
    forall k | k in db.segments && k !in left - {key} ensures Recovered(db.segments[k], fs, db'.segments[k], fs') {
      if k != key {
        RecoveredStays(db.segments[k], fs, mid.segments[k], midFs, fs');
      }
    }
  }

  class Committer {
    const store: Store
    const disk: Disk
    ghost var intended: Intended

    ghost predicate Valid()
      reads this, store, disk
    {
      && store.Valid() && Inv(store.Snapshot())
      && PathsApart(store.Snapshot())
      && FilesOk(store.Snapshot(), disk.fs, intended)
      && intended.Keys <= store.segments.Keys
    }

    constructor (store: Store, disk: Disk)
      requires store.Valid() && store.Snapshot() == EMPTY
      ensures Valid() && this.store == store && this.disk == disk
    {
      this.store, this.disk, this.intended := store, disk, map[];
    }

    function Row(key: SegmentKey): Segment
      requires key in store.segments
      reads this, store
    {
      store.segments[key]
    }

    // ----- Store steps -----

    method Move(key: SegmentKey, move: ArtifactMove, now: Timestamp) returns (ok: bool)
      requires Valid()
      requires CanMoveArtifact(store.Snapshot(), key, move) ==>
                 RowDurable(MoveArtifact(Row(key), move).value, IntendedFor(intended, key), disk.fs)
      modifies store
      ensures Valid()
      ensures ok <==> CanMoveArtifact(old(store.Snapshot()), key, move)
      ensures store.Snapshot() == if ok then old(store.Snapshot()).PutSegment(MoveArtifact(old(Row(key)), move).value)
              else old(store.Snapshot())
      ensures OthersKept(old(store.Snapshot()), store.Snapshot(), key)
      ensures ok ==> key in store.segments && Row(key) == MoveArtifact(old(Row(key)), move).value
      ensures OthersSame(old(store.Snapshot()), store.Snapshot(), key)
    {
      ghost var before := store.Snapshot();
      var moved := store.UpdateArtifact(key, move, now);
      if moved.Success? {
        MoveKeeps(before, key, move, now);
        ClaimIsExact(before, key.sid, now);
        assert SegmentOk(before, key);
        PutKeepsOthers(before, MoveArtifact(before.segments[key], move).value);
        RowStepKeepsRows(before, store.Snapshot(), disk.fs, intended, intended, key);
      }
      return moved.Success?;
    }

    method DemandRecovery(sid: Uuid, reason: Reason, now: Timestamp) returns (ok: bool)
      requires Valid()
      modifies store
      ensures Valid()
      ensures ok <==> CanRequireRecovery(old(store.Snapshot()), sid, reason)
      ensures store.segments == old(store.segments)
      ensures !ok ==> store.Snapshot() == old(store.Snapshot())
      ensures ok ==> store.Snapshot() == RecoveryRequested(old(store.Snapshot()), sid, reason, now)
    {
      ghost var before := store.Snapshot();
      var outcome := store.RequireRecovery(sid, reason, now);
      if outcome.Success? {
        RequireRecoveryKeeps(before, sid, reason, now);
      }
      SameSegmentsInStep(before, store.Snapshot(), disk.fs, intended);
      return outcome.Success?;
    }

    method Fail(key: SegmentKey, reason: Reason, close: Option<SegmentCloseReason>, now: Timestamp) returns (ok: bool)
      requires Valid()
      modifies store
      ensures Valid()
      ensures ok <==> CanFailArtifact(old(store.Snapshot()), key, reason)
      ensures store.Snapshot() == if ok then ArtifactFailed(old(store.Snapshot()), key, reason, close, now)
              else old(store.Snapshot())
      ensures NamesKept(old(store.Snapshot()), store.Snapshot())
    {
      ghost var before := store.Snapshot();
      var outcome := store.FailArtifact(key, reason, close, now);
      if outcome.Success? {
        FailKeepsFiles(before, key, reason, close, now, disk.fs, intended);
      }
      return outcome.Success?;
    }

    // ----- Disk steps -----

    method CrashPoint() returns (crashed: bool)
      requires Valid()
      modifies disk
      ensures Valid()
      ensures disk.dependable ==> !crashed
      ensures !crashed ==> disk.fs == old(disk.fs)
      ensures crashed ==> CrashOf(old(disk.fs), disk.fs)
      ensures Spared(old(disk.fs), disk.fs, {})
    {
      crashed := disk.MayCrash();
      if crashed {
        CrashKeepsRows(store.Snapshot(), old(disk.fs), intended, disk.fs);
        CrashSpares(old(disk.fs), disk.fs);
      }
    }

    method Sync() returns (e: Ending)
      requires Valid()
      modifies disk
      ensures Valid()
      ensures disk.dependable ==> e.Done?
      ensures e.Done? ==>
                disk.fs == old(disk.fs).Sync() && disk.fs.pending == [] && disk.fs.Visible() == old(disk.fs).Visible()
      ensures e.Errored? ==> disk.fs == old(disk.fs)
      ensures e.Crashed? ==> CrashOf(old(disk.fs), disk.fs) || CrashOf(old(disk.fs).Sync(), disk.fs)
      ensures Spared(old(disk.fs), disk.fs, {})
    {
      var crashed := CrashPoint();
      if crashed {
        return Crashed;
      }
      SyncKeepsRows(store.Snapshot(), disk.fs, intended);
      CrashSpares(disk.fs, disk.fs.Sync());
      var ok := disk.SyncParent();
      if !ok {
        return Errored;
      }
      crashed := CrashPoint();
      return if crashed then Crashed else Done;
    }

    /** One change to the files of an unsettled row, then a point where the machine may stop. */
    method Rename(key: SegmentKey) returns (e: Ending)
      requires Valid() && key in store.segments
      requires Row(key).artifact.Finalizing?
               || (Row(key).artifact.ResolvingConflict? && Row(key).artifact.decision.KeepPart?)
      modifies disk
      ensures Valid()
      ensures disk.dependable ==>
                Row(key).partPath in old(disk.fs).Visible() && Row(key).finalPath !in old(disk.fs).Visible() ==> e.Done?
      ensures e.Done? ==>
                && Row(key).partPath in old(disk.fs).Visible() && Row(key).finalPath !in old(disk.fs).Visible()
                && disk.fs == old(disk.fs).Act(DirectoryOp.Rename(Row(key).partPath, Row(key).finalPath))
      ensures e.Errored? ==> disk.fs == old(disk.fs)
      ensures forall node | Stable(old(disk.fs), Row(key).finalPath, node) ::
                Stable(disk.fs, Row(key).finalPath, node) && !e.Done?
      ensures disk.dependable ==> !e.Crashed?
      ensures Spared(old(disk.fs), disk.fs, Names(Row(key)))
    {
      ghost var before := disk.fs;
      var row := Row(key);
      assert Apart(store.Snapshot(), key, key);
      var ok := disk.RenameNoReplace(row.partPath, row.finalPath);
      VisibleIsLastView(before);
      if !ok {
        return Errored;
      }
      assert RowDurable(row, IntendedFor(intended, key), before);
      assert RowSafe(row, IntendedFor(intended, key), before.View(|before.pending|));
      OpKeepsRows(store.Snapshot(), before, intended, key, DirectoryOp.Rename(row.partPath, row.finalPath));
      ActSpares(before, DirectoryOp.Rename(row.partPath, row.finalPath));
      var crashed := CrashPoint();
      return if crashed then Crashed else Done;
    }

    method RemoveIfExists(key: SegmentKey, path: Path) returns (e: Ending)
      requires Valid() && key in store.segments
      requires path == Row(key).partPath || path == Row(key).finalPath
      requires RowSafe(Row(key), IntendedFor(intended, key), Step(disk.fs.Visible(), Remove(path)))
      modifies disk
      ensures Valid()
      ensures disk.dependable && KindIn(old(disk.fs).Visible(), path) != Irregular ==> e.Done?
      ensures e.Done? ==> disk.fs == if path in old(disk.fs).Visible() then old(disk.fs).Act(Remove(path))
              else old(disk.fs)
      ensures e.Errored? ==> disk.fs == old(disk.fs)
      ensures e.Crashed? ==>
                CrashOf(old(disk.fs), disk.fs)
                || (path in old(disk.fs).Visible() && CrashOf(old(disk.fs).Act(Remove(path)), disk.fs))
      ensures disk.dependable ==> !e.Crashed?
      ensures KindIn(old(disk.fs).Visible(), path).Irregular? ==> e.Errored?
      ensures Spared(old(disk.fs), disk.fs, {path})
    {
      ghost var before := disk.fs;
      var ok := disk.RemoveRegularFileIfExists(path);
      if !ok {
        return Errored;
      }
      if path in before.Visible() {
        OpKeepsRows(store.Snapshot(), before, intended, key, Remove(path));
        ActSpares(before, Remove(path));
      }
      var crashed := CrashPoint();
      return if crashed then Crashed else Done;
    }

    /** Remove the file if it is there, then sync the directory. */
    method RemoveDurably(key: SegmentKey, path: Path) returns (e: Ending)
      requires Valid() && key in store.segments
      requires path == Row(key).partPath || path == Row(key).finalPath
      requires RowSafe(Row(key), IntendedFor(intended, key), Step(disk.fs.Visible(), Remove(path)))
      modifies disk
      ensures Valid()
      ensures disk.dependable ==> !e.Crashed? && (KindIn(old(disk.fs).Visible(), path) != Irregular ==> e.Done?)
      ensures KindIn(old(disk.fs).Visible(), path).Irregular? ==> e.Errored? && disk.fs == old(disk.fs)
      ensures e.Done? ==> disk.fs.pending == [] && disk.fs.Visible() == old(disk.fs).Visible() - {path}
      ensures Spared(old(disk.fs), disk.fs, {path})
    {
      hide FilesOk, PathsApart, Inv, RowSafe, Valid;
      e := RemoveIfExists(key, path);
      if e.Done? {
        ViewsAfter(old(disk.fs), Remove(path));
        e := Sync();
      }
    }

    // ----- Recording -----

    /** The segment's row comes before its file. */
    method OpenRow(segment: Segment, bytes: Bytes, now: Timestamp) returns (ok: bool)
      requires Valid() && NamesApart(store.Snapshot(), segment)
      modifies this`intended, store
      ensures Valid()
      ensures ok <==> CanOpenSegment(old(store.Snapshot()), segment)
      ensures store.Snapshot() == if ok then SegmentOpened(old(store.Snapshot()), segment) else old(store.Snapshot())
      ensures ok ==> segment.Key() in store.segments && Opens(Row(segment.Key()), segment)
      ensures intended == if ok then PromiseToWrite(old(intended), segment, bytes, disk.fs) else old(intended)
      ensures PromisesKept(old(intended), intended)
      ensures IntentOnly(old(intended), intended, segment.Key())
    {
      ghost var before := store.Snapshot();
      var outcome := store.OpenSegment(segment, now);
      if outcome.Failure? {
        return false;
      }
      OpenSegmentKeeps(before, segment);
      NewSegmentKeepsFiles(before, segment, bytes, disk.fs, intended);
      intended := PromiseToWrite(intended, segment, bytes, disk.fs);
      return true;
    }

    /** The recorder creates and fills the part; it never reuses an existing one. */
    method WritePart(key: SegmentKey, bytes: Bytes) returns (e: Ending)
      requires Valid() && key in store.segments && Row(key).artifact.Writing?
      requires IntendedFor(intended, key).Wrote? ==> IntendedFor(intended, key) == Wrote(bytes)
      modifies disk
      ensures Valid()
      ensures e.Done? ==> disk.fs == old(disk.fs).Act(Put(Row(key).partPath, File(bytes)))
      ensures e.Errored? ==> disk.fs == old(disk.fs)
      ensures disk.dependable ==> !e.Crashed? && (e.Done? <==> Row(key).partPath !in old(disk.fs).Visible())
      ensures Spared(old(disk.fs), disk.fs, Names(Row(key)))
    {
      if disk.Inspect(Row(key).partPath) != Missing {
        return Errored;
      }
      RowSafeNow(key);
      OpKeepsRows(store.Snapshot(), disk.fs, intended, key, Put(Row(key).partPath, File(bytes)));
      ActSpares(disk.fs, Put(Row(key).partPath, File(bytes)));
      disk.Create(Row(key).partPath, bytes);
      var crashed := CrashPoint();
      return if crashed then Crashed else Done;
    }

    /**
      A new recording: its row, then its part, which a stop may keep from being created. Where its
      names are free, in every state a crash can leave, the bytes written are promised for good.
     */
    method Record(segment: Segment, bytes: Bytes, now: Timestamp) returns (e: Ending)
      requires Valid() && NamesApart(store.Snapshot(), segment)
      modifies this`intended, store, disk
      ensures Valid()
      ensures PromisesKept(old(intended), intended)
      ensures e.Done? ==>
                && CanOpenSegment(old(store.Snapshot()), segment)
                && segment.Key() in store.segments && Opens(Row(segment.Key()), segment)
                && Holds(disk.fs.Visible(), segment.partPath, bytes)
      ensures CanOpenSegment(old(store.Snapshot()), segment) ==>
                intended == PromiseToWrite(old(intended), segment, bytes, old(disk.fs))
      ensures old(store.segments).Keys <= store.segments.Keys
      ensures forall k | k in store.segments :: k in old(store.segments) || k == segment.Key()
      ensures forall k {:trigger Row(k)} | k in store.segments ::
                if k in old(store.segments) then Follows(old(store.segments)[k], Row(k)) else SamePaths(segment, Row(k))
      ensures IntentOnly(old(intended), intended, segment.Key())
      ensures !CanOpenSegment(old(store.Snapshot()), segment) ==> intended == old(intended)
      ensures e.Done? ==> disk.fs == old(disk.fs).Act(Put(segment.partPath, File(bytes)))
      ensures FinalsKept(old(store.Snapshot()), old(disk.fs), store.Snapshot(), disk.fs, {})
      ensures CanOpenSegment(old(store.Snapshot()), segment) ==>
                segment.Key() in store.segments && !Settling(Row(segment.Key()).artifact)
      ensures disk.dependable && segment.partPath !in old(disk.fs).Visible() ==>
                CanOpenSegment(old(store.Snapshot()), segment) ==> e.Done?
      ensures e.Done? ==> forall reason :: CanMoveArtifact(store.Snapshot(), segment.Key(), BeginFinalization(reason))
      ensures e.Done? && segment.finalPath !in old(disk.fs).Visible() ==>
                forall reason :: Committable(segment.Key(), reason)
    {
      hide NextIndex, Inv, Valid, FilesOk, PathsApart, RowSafe, RowDurable, NamesFree, SessionKept;
      var begun := OpenRow(segment, bytes, now);
      if !begun {
        return Errored;
      }
      var crashed := CrashPoint();
      if crashed {
        return Crashed;
      }
      e := WritePart(segment.Key(), bytes);
      if e.Done? {
      } else if e.Errored? {
        var reason := ArtifactStopped(segment.sid, segment.index, OPERATION_FAILED);
        FailEnabled(store.Snapshot(), segment.Key(), reason);
        var failed := Fail(segment.Key(), reason, None, now);
      }
    }

    // ----- Finalizing -----

    /** Rename without replacing, then sync the directory. */
    method CommitRename(key: SegmentKey) returns (e: Ending)
      requires Valid() && key in store.segments
      requires Row(key).artifact.Finalizing?
               || (Row(key).artifact.ResolvingConflict? && Row(key).artifact.decision.KeepPart?)
      modifies disk
      ensures Valid()
      ensures disk.dependable ==>
                Row(key).partPath in old(disk.fs).Visible() && Row(key).finalPath !in old(disk.fs).Visible() ==> e.Done?
      ensures e.Done? ==>
                && disk.fs.pending == []
                && Row(key).partPath in old(disk.fs).Visible() && Row(key).finalPath !in old(disk.fs).Visible()
                && disk.fs.Visible() ==
                      Step(old(disk.fs).Visible(), DirectoryOp.Rename(Row(key).partPath, Row(key).finalPath))
      ensures StableKept(old(disk.fs), disk.fs, Row(key).finalPath)
      ensures disk.dependable ==> OnlyPaths(old(disk.fs).Visible(), disk.fs.Visible(), old(Row(key)))
      ensures disk.dependable ==> !e.Crashed?
      ensures Spared(old(disk.fs), disk.fs, Names(Row(key)))
    {
      ghost var before := disk.fs;
      e := Rename(key);
      if !e.Done? {
        return e;
      }
      ViewsAfter(before, DirectoryOp.Rename(Row(key).partPath, Row(key).finalPath));
      VisibleIsLastView(before);
      e := Sync();
    }

    /** A row whose file is in place and synced can be recorded as ready. */
    lemma ReadyIsDurable(key: SegmentKey, row': Segment)
      requires Valid() && key in store.segments
      requires Row(key).artifact.Finalizing?
               || (Row(key).artifact.ResolvingConflict? && !Row(key).artifact.decision.Exclude?)
      requires row' == Row(key).(artifact := row'.artifact) && row'.artifact.Ready?
      requires disk.fs.pending == []
      requires var d := disk.fs.Visible();
               Row(key).partPath !in d && Row(key).finalPath in d && d[Row(key).finalPath].File?
      ensures RowDurable(row', IntendedFor(intended, key), disk.fs)
    {
      var promise := IntendedFor(intended, key);
      assert RowDurable(Row(key), promise, disk.fs);
      SyncedRow(Row(key), promise, disk.fs);
      SyncedRow(row', promise, disk.fs);
    }

    /** The file work and the closing store step of a finalization whose intent is stored. */
    method CommitPart(key: SegmentKey, now: Timestamp) returns (e: Ending)
      requires Valid() && key in store.segments && Row(key).artifact.Finalizing?
      modifies store, disk
      ensures Valid() && key in store.segments
      ensures e.Done? ==>
                && Row(key) == old(Row(key)).(artifact := ArtifactState.Ready(old(Row(key)).artifact.closeReason))
                && Row(key).partPath in old(disk.fs).Visible() && Row(key).finalPath !in old(disk.fs).Visible()
                && disk.fs.pending == []
                && disk.fs.durable ==
                      Step(old(disk.fs).Visible(), DirectoryOp.Rename(Row(key).partPath, Row(key).finalPath))
                && Row(key).finalPath in disk.fs.durable && disk.fs.durable[Row(key).finalPath].File?
      ensures !e.Done? ==> store.Snapshot() == old(store.Snapshot())
      ensures StableKept(old(disk.fs), disk.fs, old(Row(key)).finalPath)
      ensures disk.dependable ==> OnlyPaths(old(disk.fs).Visible(), disk.fs.Visible(), old(Row(key)))
      ensures disk.dependable ==> !e.Crashed?
      ensures var (d, row) := (old(disk.fs).Visible(), old(Row(key)));
              disk.dependable && KindIn(d, row.partPath).RegularFile? && row.finalPath !in d ==> e.Done?
      ensures OthersKept(old(store.Snapshot()), store.Snapshot(), key)
      ensures Spared(old(disk.fs), disk.fs, Names(old(Row(key))))
      ensures OthersSame(old(store.Snapshot()), store.Snapshot(), key)
    {
      var row := Row(key);
      if disk.Inspect(row.partPath) != RegularFile {
        return Errored;
      }
      e := CommitRename(key);
      if !e.Done? {
        return e;
      }
      ReadyIsDurable(key, row.(artifact := ArtifactState.Ready(row.artifact.closeReason)));
      CompletionEnabled(store.Snapshot(), key, CompleteFinalization);
      var done := Move(key, CompleteFinalization, now);
      return Done;
    }

    /**
      Commit a written part as the final recording. On success the row is ready and the directory
      durably holds the part's bytes under the final name; an existing final file is never touched.
     */
    method Finalize(key: SegmentKey, reason: SegmentCloseReason, now: Timestamp) returns (e: Ending)
      requires Valid()
      modifies this`intended, store, disk
      ensures Valid()
      ensures e.Done? ==>
                && key in old(store.segments) && key in store.segments && old(Row(key)).artifact.Writing?
                && Row(key) == old(Row(key)).(artifact := ArtifactState.Ready(reason))
                && Row(key).partPath in old(disk.fs).Visible() && Row(key).finalPath !in old(disk.fs).Visible()
                && disk.fs.pending == []
                && Row(key).finalPath in disk.fs.durable
                && disk.fs.durable[Row(key).finalPath] == old(disk.fs).Visible()[Row(key).partPath]
      ensures CanMoveArtifact(old(store.Snapshot()), key, BeginFinalization(reason)) ==>
                intended == Intend(old(intended), old(Row(key)).(artifact := Finalizing(reason)), old(disk.fs))
      ensures key in old(store.segments) ==> StableKept(old(disk.fs), disk.fs, old(Row(key)).finalPath)
      ensures PromisesKept(old(intended), intended) && NamesKept(old(store.Snapshot()), store.Snapshot())
      ensures disk.dependable && old(Committable(key, reason)) ==> e.Done?
      ensures e.Errored? && CanMoveArtifact(old(store.Snapshot()), key, BeginFinalization(reason)) ==>
                && key in store.segments && Row(key) == old(Row(key)).(artifact := Finalizing(reason))
                && Told(store.Snapshot(), key.sid, ArtifactStopped(key.sid, key.index, "finalization"))
      ensures IntentOnly(old(intended), intended, key)
      ensures !CanMoveArtifact(old(store.Snapshot()), key, BeginFinalization(reason)) ==> intended == old(intended)
      ensures FinalsKept(old(store.Snapshot()), old(disk.fs), store.Snapshot(), disk.fs, {})
      ensures CanMoveArtifact(old(store.Snapshot()), key, BeginFinalization(reason)) ==>
                key in store.segments && !Row(key).artifact.Writing?
    {
      hide Valid, OthersKept, OthersSame, RowSafe, RowDurable, CanRequireRecovery, RecoveryRequested, Stable, Intend,
        Spared, PromisesKept, IntentOnly, CanMoveArtifact, FinalsKept, KindIn, Told;
      ghost var db, fs := store.Snapshot(), disk.fs;
      NamesApartNow();
      SameRowsKeepFinals(db, fs, db, fs);
      var begun := BeginFinalizing(key, reason, now);
      if !begun {
        return Errored;
      }
      ghost var announced := store.Snapshot();
      e := CommitAnnounced(key, now);
      OthersSameTransitive(db, announced, store.Snapshot(), key);
      RowWorkKeepsFinals(db, fs, store.Snapshot(), disk.fs, key, {});
    }

    /** The machine may stop between the announcement and the file work. */
    method CommitAnnounced(key: SegmentKey, now: Timestamp) returns (e: Ending)
      requires Valid() && key in store.segments && Row(key).artifact.Finalizing?
      modifies store, disk
      ensures Valid() && NamesKept(old(store.Snapshot()), store.Snapshot())
      ensures OthersSame(old(store.Snapshot()), store.Snapshot(), key)
      ensures e.Done? ==>
                && Row(key) == old(Row(key)).(artifact := ArtifactState.Ready(old(Row(key)).artifact.closeReason))
                && Row(key).partPath in old(disk.fs).Visible() && Row(key).finalPath !in old(disk.fs).Visible()
                && disk.fs.pending == []
                && Row(key).finalPath in disk.fs.durable
                && disk.fs.durable[Row(key).finalPath] == old(disk.fs).Visible()[Row(key).partPath]
      ensures !e.Done? ==> Row(key) == old(Row(key))
      ensures e.Errored? ==> Told(store.Snapshot(), key.sid, ArtifactStopped(key.sid, key.index, "finalization"))
      ensures Spared(old(disk.fs), disk.fs, Names(old(Row(key))))
      ensures StableKept(old(disk.fs), disk.fs, old(Row(key)).finalPath)
      ensures var (d, row) := (old(disk.fs).Visible(), old(Row(key)));
              disk.dependable && KindIn(d, row.partPath).RegularFile? && row.finalPath !in d ==> e.Done?
    {
      hide Valid, RowSafe, RowDurable, CanRequireRecovery, RecoveryRequested, Stable, Told;
      var crashed := CrashPoint();
      if crashed {
        return Crashed;
      }
      e := CommitPart(key, now);
      if e.Errored? {
        LeaveForOperator(key, "finalization", now);
      }
    }

    /** The recording session still owns its room, the part is written and its final name free. */
    ghost predicate Committable(key: SegmentKey, reason: SegmentCloseReason)
      reads this, store, disk
    {
      && CanMoveArtifact(store.Snapshot(), key, BeginFinalization(reason))
      && KindIn(disk.fs.Visible(), Row(key).partPath).RegularFile? && Row(key).finalPath !in disk.fs.Visible()
    }

    method BeginFinalizing(key: SegmentKey, reason: SegmentCloseReason, now: Timestamp) returns (ok: bool)
      requires Valid()
      modifies this`intended, store
      ensures Valid()
      ensures ok <==> CanMoveArtifact(old(store.Snapshot()), key, BeginFinalization(reason))
      ensures ok ==> intended == Intend(old(intended), old(Row(key)).(artifact := Finalizing(reason)), disk.fs)
      ensures ok ==>
                store.Snapshot() == old(store.Snapshot()).PutSegment(old(Row(key)).(artifact := Finalizing(reason)))
      ensures !ok ==> store.Snapshot() == old(store.Snapshot()) && intended == old(intended)
      ensures PromisesKept(old(intended), intended) && NamesKept(old(store.Snapshot()), store.Snapshot())
      ensures ok ==> key in old(store.segments) && key in store.segments && old(Row(key)).artifact.Writing?
                     && Row(key) == old(Row(key)).(artifact := Finalizing(reason))
      ensures IntentOnly(old(intended), intended, key)
      ensures OthersSame(old(store.Snapshot()), store.Snapshot(), key)
    {
      ghost var before := store.Snapshot();
      ghost var old_ := intended;
      if CanMoveArtifact(store.Snapshot(), key, BeginFinalization(reason)) {
        intended := Intend(intended, Row(key).(artifact := Finalizing(reason)), disk.fs);
        IntentionsElsewhere(before, key, old_, intended, disk.fs);
        assert SegmentOk(before, key);
        assert RowDurable(Row(key), IntendedFor(old_, key), disk.fs);
        assert Row(key).(artifact := Writing) == Row(key);
        IntendIsDurable(Row(key).(artifact := Finalizing(reason)), disk.fs, old_);
      }
      ok := Move(key, BeginFinalization(reason), now);
    }

    lemma IntentionsElsewhere(db: Db, key: SegmentKey, before: Intended, after: Intended, fs: Fs)
      requires FilesOk(db, fs, before) && key in db.segments && db.segments[key].artifact.Writing?
      requires forall k | k != key :: IntendedFor(after, k) == IntendedFor(before, k)
      requires IntendedFor(after, key) == IntendedFor(before, key) || !IntendedFor(after, key).Wrote?
      ensures FilesOk(db, fs, after)
    {
      forall k | k in db.segments ensures RowDurable(db.segments[k], IntendedFor(after, k), fs) {
        assert RowDurable(db.segments[k], IntendedFor(before, k), fs);
      }
    }

    // ----- Discarding -----

    lemma FilteredIsDurable(key: SegmentKey, row': Segment)
      requires key in store.segments && row' == Row(key).(artifact := row'.artifact, upload := row'.upload)
               && row'.artifact.Filtered?
      requires disk.fs.pending == []
      requires Row(key).partPath !in disk.fs.Visible() && Row(key).finalPath !in disk.fs.Visible()
      ensures RowDurable(row', IntendedFor(intended, key), disk.fs)
    {
      SyncedRow(row', IntendedFor(intended, key), disk.fs);
    }

    /** The file work and the closing store step of a discard whose intent is stored. */
    method CommitDiscard(key: SegmentKey, now: Timestamp) returns (e: Ending)
      requires Valid() && key in store.segments && Row(key).artifact.Discarding?
      modifies store, disk
      ensures Valid() && key in store.segments
      ensures disk.dependable && Discardable(old(disk.fs).Visible(), old(Row(key))) ==> e.Done?
      ensures e.Done? ==>
                && Row(key) == old(Row(key)).(artifact := Filtered(old(Row(key)).artifact.closeReason),
                    upload := NotPlanned)
                && old(Row(key)).finalPath !in old(disk.fs).Visible()
                && disk.fs.pending == []
                && Row(key).partPath !in disk.fs.durable && Row(key).finalPath !in disk.fs.durable
      ensures store.Snapshot() == if e.Done? then old(store.Snapshot()).PutSegment(Row(key)) else old(store.Snapshot())
      ensures StableKept(old(disk.fs), disk.fs, old(Row(key)).finalPath)
      ensures disk.dependable ==> OnlyPaths(old(disk.fs).Visible(), disk.fs.Visible(), old(Row(key)))
      ensures disk.dependable ==> !e.Crashed?
      ensures !Discardable(old(disk.fs).Visible(), old(Row(key))) ==> disk.fs == old(disk.fs)
      ensures OthersKept(old(store.Snapshot()), store.Snapshot(), key)
      ensures Spared(old(disk.fs), disk.fs, Names(old(Row(key))))
      ensures OthersSame(old(store.Snapshot()), store.Snapshot(), key)
    {
      e := DiscardFiles(key);
      if e.Done? {
        CompletionEnabled(store.Snapshot(), key, CompleteDiscard);
        FilteredIsDurable(key, MoveArtifact(Row(key), CompleteDiscard).value);
        var done := Move(key, CompleteDiscard, now);
      }
    }

    method DiscardFiles(key: SegmentKey) returns (e: Ending)
      requires Valid() && key in store.segments && Row(key).artifact.Discarding?
      modifies disk
      ensures Valid()
      ensures disk.dependable ==> !e.Crashed? && OnlyPaths(old(disk.fs).Visible(), disk.fs.Visible(), Row(key))
      ensures disk.dependable && Discardable(old(disk.fs).Visible(), Row(key)) ==> e.Done?
      ensures e.Done? ==>
                && Row(key).finalPath !in old(disk.fs).Visible()
                && disk.fs.pending == [] && disk.fs.Visible() == old(disk.fs).Visible() - {Row(key).partPath}
      ensures !Discardable(old(disk.fs).Visible(), Row(key)) ==> disk.fs == old(disk.fs)
      ensures StableKept(old(disk.fs), disk.fs, Row(key).finalPath)
      ensures Spared(old(disk.fs), disk.fs, Names(Row(key)))
    {
      var row := Row(key);
      if disk.Inspect(row.finalPath) != Missing {
        return Errored;
      }
      assert Apart(store.Snapshot(), key, key);
      e := RemoveDurably(key, row.partPath);
      NothingStable(old(disk.fs), disk.fs, row.finalPath);
    }

    lemma DiscardIsDurable(key: SegmentKey, reason: SegmentCloseReason)
      requires Valid() && key in store.segments && Row(key).artifact.Writing?
      ensures RowDurable(Row(key).(artifact := Discarding(reason)), IntendedFor(intended, key), disk.fs)
    {
      assert RowDurable(Row(key), IntendedFor(intended, key), disk.fs);
      forall n | 0 <= n <= |disk.fs.pending|
        ensures RowSafe(Row(key).(artifact := Discarding(reason)), IntendedFor(intended, key), disk.fs.View(n))
      {
        assert RowSafe(Row(key), IntendedFor(intended, key), disk.fs.View(n));
      }
    }

    method DiscardAnnounced(key: SegmentKey, now: Timestamp) returns (e: Ending)
      requires Valid() && key in store.segments && Row(key).artifact.Discarding?
      modifies store, disk
      ensures Valid() && NamesKept(old(store.Snapshot()), store.Snapshot())
      ensures OthersSame(old(store.Snapshot()), store.Snapshot(), key)
      ensures e.Done? ==>
                && Row(key) == old(Row(key)).(artifact := Filtered(old(Row(key)).artifact.closeReason),
                    upload := NotPlanned)
                && disk.fs.pending == []
                && Row(key).partPath !in disk.fs.durable && Row(key).finalPath !in disk.fs.durable
      ensures !e.Done? ==> Row(key) == old(Row(key))
      ensures e.Errored? ==> Told(store.Snapshot(), key.sid, ArtifactStopped(key.sid, key.index, "discard"))
      ensures disk.dependable && Discardable(old(disk.fs).Visible(), old(Row(key))) ==> e.Done?
      ensures Spared(old(disk.fs), disk.fs, Names(old(Row(key))))
      ensures StableKept(old(disk.fs), disk.fs, old(Row(key)).finalPath)
    {
      hide Valid, RowSafe, RowDurable, CanRequireRecovery, RecoveryRequested, Stable, Told;
      var crashed := CrashPoint();
      if crashed {
        return Crashed;
      }
      e := CommitDiscard(key, now);
      if e.Errored? {
        LeaveForOperator(key, "discard", now);
      }
    }

    /** Drop a too small recording: on success neither of its files is left, durably. */
    method Discard(key: SegmentKey, reason: SegmentCloseReason, now: Timestamp) returns (e: Ending)
      requires Valid()
      modifies store, disk
      ensures Valid()
      ensures e.Done? ==>
                && key in old(store.segments) && key in store.segments && old(Row(key)).artifact.Writing?
                && Row(key) == old(Row(key)).(artifact := Filtered(reason), upload := NotPlanned)
                && disk.fs.pending == []
                && Row(key).partPath !in disk.fs.durable && Row(key).finalPath !in disk.fs.durable
      ensures e.Errored? && CanMoveArtifact(old(store.Snapshot()), key, BeginDiscard(reason)) ==>
                && key in store.segments && Row(key) == old(Row(key)).(artifact := Discarding(reason))
                && Told(store.Snapshot(), key.sid, ArtifactStopped(key.sid, key.index, "discard"))
      ensures disk.dependable && CanMoveArtifact(old(store.Snapshot()), key, BeginDiscard(reason)) ==>
                Discardable(old(disk.fs).Visible(), old(Row(key))) ==> e.Done?
      ensures key in old(store.segments) ==> StableKept(old(disk.fs), disk.fs, old(Row(key)).finalPath)
      ensures NamesKept(old(store.Snapshot()), store.Snapshot())
      ensures NoneRevived(old(store.Snapshot()), store.Snapshot())
      ensures FinalsKept(old(store.Snapshot()), old(disk.fs), store.Snapshot(), disk.fs, {})
    {
      hide Valid, OthersKept, RowSafe, RowDurable, CanRequireRecovery, RecoveryRequested, Stable, Spared;
      ghost var db, fs := store.Snapshot(), disk.fs;
      NamesApartNow();
      SameRowsKeepFinals(db, fs, db, fs);
      if CanMoveArtifact(store.Snapshot(), key, BeginDiscard(reason)) {
        DiscardIsDurable(key, reason);
      }
      var begun := Move(key, BeginDiscard(reason), now);
      if !begun {
        return Errored;
      }
      e := DiscardAnnounced(key, now);
      RowWorkKeepsFinals(db, fs, store.Snapshot(), disk.fs, key, {});
    }

    // ----- Deleting -----

    method CommitDelete(key: SegmentKey, now: Timestamp) returns (e: Ending)
      requires Valid() && key in store.segments && Row(key).artifact.Deleting?
      modifies store, disk
      ensures Valid() && key in store.segments
      ensures disk.dependable && KindIn(old(disk.fs).Visible(), old(Row(key)).finalPath) != Irregular ==> e.Done?
      ensures e.Done? ==>
                && Row(key) == old(Row(key)).(artifact := Deleted)
                && disk.fs.pending == [] && Row(key).finalPath !in disk.fs.durable
      ensures store.Snapshot() == if e.Done? then old(store.Snapshot()).PutSegment(Row(key)) else old(store.Snapshot())
      ensures disk.dependable ==> OnlyPaths(old(disk.fs).Visible(), disk.fs.Visible(), old(Row(key)))
      ensures disk.dependable ==> !e.Crashed?
      ensures OthersKept(old(store.Snapshot()), store.Snapshot(), key)
      ensures Spared(old(disk.fs), disk.fs, Names(old(Row(key))))
      ensures OthersSame(old(store.Snapshot()), store.Snapshot(), key)
    {
      e := RemoveDurably(key, Row(key).finalPath);
      if e.Done? {
        RecordDeleted(key, now);
      }
    }

    method RecordDeleted(key: SegmentKey, now: Timestamp)
      requires Valid() && key in store.segments && Row(key).artifact.Deleting?
      requires disk.fs.pending == [] && Row(key).finalPath !in disk.fs.Visible()
      modifies store
      ensures Valid()
      ensures store.Snapshot() == old(store.Snapshot()).PutSegment(old(Row(key)).(artifact := Deleted))
      ensures OthersKept(old(store.Snapshot()), store.Snapshot(), key)
    {
      DeletedKeepsFiles(store.Snapshot(), key, disk.fs, intended);
      var outcome := store.CompleteDelete(key, now);
    }

    method AnnounceDelete(key: SegmentKey, now: Timestamp) returns (ok: bool)
      requires Valid()
      modifies store
      ensures Valid()
      ensures ok <==> CanBeginDelete(old(store.Snapshot()), key)
      ensures ok ==> key in store.segments && Row(key) == old(Row(key)).(artifact := Deleting)
      ensures !ok ==> store.Snapshot() == old(store.Snapshot())
      ensures NamesKept(old(store.Snapshot()), store.Snapshot())
      ensures OthersSame(old(store.Snapshot()), store.Snapshot(), key)
    {
      hide FilesOk, PathsApart;
      ghost var before := store.Snapshot();
      var begun := store.BeginDelete(key, now);
      if begun.Failure? {
        return false;
      }
      BeginDeleteKeeps(before, key);
      assert SegmentOk(before, key);
      RowStepKeepsRows(before, store.Snapshot(), disk.fs, intended, intended, key);
      return true;
    }

    method DeleteAnnounced(key: SegmentKey, now: Timestamp) returns (e: Ending)
      requires Valid() && key in store.segments && Row(key).artifact.Deleting?
      modifies store, disk
      ensures Valid() && NamesKept(old(store.Snapshot()), store.Snapshot())
      ensures OthersSame(old(store.Snapshot()), store.Snapshot(), key)
      ensures e.Done? ==>
                && Row(key) == old(Row(key)).(artifact := Deleted)
                && disk.fs.pending == [] && Row(key).finalPath !in disk.fs.durable
      ensures !e.Done? ==> Row(key) == old(Row(key))
      ensures disk.dependable && KindIn(old(disk.fs).Visible(), old(Row(key)).finalPath) != Irregular ==> e.Done?
      ensures Spared(old(disk.fs), disk.fs, Names(old(Row(key))))
    {
      hide Valid, RowSafe, RowDurable, Stable;
      var crashed := CrashPoint();
      if crashed {
        return Crashed;
      }
      e := CommitDelete(key, now);
    }

    /** Remove a submitted recording: on success its final file is durably gone. */
    method Delete(key: SegmentKey, now: Timestamp) returns (e: Ending)
      requires Valid()
      modifies store, disk
      ensures Valid()
      ensures e.Done? ==>
                && key in old(store.segments) && key in store.segments
                && CanBeginDelete(old(store.Snapshot()), key)
                && Row(key) == old(Row(key)).(artifact := Deleted)
                && disk.fs.pending == [] && Row(key).finalPath !in disk.fs.durable
      ensures !e.Done? && CanBeginDelete(old(store.Snapshot()), key) ==>
                key in store.segments && Row(key) == old(Row(key)).(artifact := Deleting)
      ensures disk.dependable && CanBeginDelete(old(store.Snapshot()), key) ==>
                KindIn(old(disk.fs).Visible(), old(Row(key)).finalPath) != Irregular ==> e.Done?
      ensures NamesKept(old(store.Snapshot()), store.Snapshot())
      ensures FinalsKept(old(store.Snapshot()), old(disk.fs), store.Snapshot(), disk.fs, {key})
    {
      hide FilesOk, OthersKept, Valid, Stable, Spared;
      ghost var db, fs := store.Snapshot(), disk.fs;
      NamesApartNow();
      SameRowsKeepFinals(db, fs, db, fs);
      var begun := AnnounceDelete(key, now);
      if !begun {
        return Errored;
      }
      e := DeleteAnnounced(key, now);
      RowWorkKeepsFinals(db, fs, store.Snapshot(), disk.fs, key, {key});
    }

    // ----- Conflicts between part and final -----

    /** The decision is stored before any file is touched. */
    method BeginDecision(key: SegmentKey, decision: ArtifactDecision, note: Option<string>, now: Timestamp)
      returns (ok: bool)
      requires Valid()
      modifies this`intended, store
      ensures Valid()
      ensures ok <==> CanBeginConflict(old(store.Snapshot()), key)
      ensures ok ==> key in old(store.segments) && key in store.segments
                     && Row(key).artifact == ResolvingConflict(old(Row(key)).artifact.closeReason, decision)
                     && Row(key).partPath == old(Row(key)).partPath && Row(key).finalPath == old(Row(key)).finalPath
                     && intended == Intend(old(intended), Row(key), old(disk.fs))
      ensures !ok ==> store.Snapshot() == old(store.Snapshot()) && intended == old(intended)
      ensures NamesKept(old(store.Snapshot()), store.Snapshot())
      ensures IntentOnly(old(intended), intended, key)
      ensures OthersSame(old(store.Snapshot()), store.Snapshot(), key)
      ensures ok ==> Row(key) == old(Row(key)).(artifactResolutions := Row(key).artifactResolutions,
                  artifact := ResolvingConflict(old(Row(key)).artifact.closeReason, decision))
    {
      ghost var before := store.Snapshot();
      var begun := store.BeginConflict(key, decision, note, now);
      if begun.Failure? {
        return false;
      }
      DecisionKeepsFiles(before, key, decision, note, now, disk.fs, intended);
      intended := Intend(intended, Row(key), disk.fs);
      return true;
    }

    method KeepPartFiles(key: SegmentKey) returns (e: Ending)
      requires Valid() && key in store.segments
      requires Row(key).artifact.ResolvingConflict? && Row(key).artifact.decision.KeepPart?
      requires KindIn(disk.fs.Visible(), Row(key).partPath).RegularFile?
               && !KindIn(disk.fs.Visible(), Row(key).finalPath).Irregular?
      modifies disk
      ensures Valid()
      ensures disk.dependable ==> e.Done?
      ensures e.Done? ==>
                && disk.fs.pending == []
                && Row(key).finalPath in disk.fs.Visible()
                && disk.fs.Visible()[Row(key).finalPath] == old(disk.fs).Visible()[Row(key).partPath]
                && Row(key).partPath !in disk.fs.Visible()
      ensures disk.dependable ==> OnlyPaths(old(disk.fs).Visible(), disk.fs.Visible(), old(Row(key)))
      ensures Spared(old(disk.fs), disk.fs, Names(Row(key)))
    {
      e := ClearFinal(key);
      if e.Done? {
        e := CommitRename(key);
      }
    }

    /** The old final file gives way to the kept part, durably, before the part takes its name. */
    method ClearFinal(key: SegmentKey) returns (e: Ending)
      requires Valid() && key in store.segments
      requires Row(key).artifact.ResolvingConflict? && Row(key).artifact.decision.KeepPart?
      requires KindIn(disk.fs.Visible(), Row(key).partPath).RegularFile?
               && !KindIn(disk.fs.Visible(), Row(key).finalPath).Irregular?
      modifies disk
      ensures Valid()
      ensures disk.dependable ==> e.Done?
      ensures e.Done? ==> disk.fs.Visible() == old(disk.fs).Visible() - {Row(key).finalPath}
      ensures Row(key).partPath != Row(key).finalPath
      ensures Spared(old(disk.fs), disk.fs, Names(Row(key)))
    {
      RowSafeNow(key);
      e := RemoveDurably(key, Row(key).finalPath);
    }

    lemma NamesApartNow()
      requires Valid()
      ensures PathsApart(store.Snapshot())
    {
    }

    lemma RowSafeNow(key: SegmentKey)
      requires Valid() && key in store.segments
      ensures RowSafe(Row(key), IntendedFor(intended, key), disk.fs.Visible())
      ensures Row(key).partPath != Row(key).finalPath
    {
      VisibleIsLastView(disk.fs);
      assert Apart(store.Snapshot(), key, key);
      assert RowDurable(Row(key), IntendedFor(intended, key), disk.fs);
      assert RowSafe(Row(key), IntendedFor(intended, key), disk.fs.View(|disk.fs.pending|));
    }

    method ReplayKeepPart(key: SegmentKey, now: Timestamp) returns (e: Ending)
      requires Valid() && key in store.segments
      requires Row(key).artifact.ResolvingConflict? && Row(key).artifact.decision.KeepPart?
      modifies store, disk
      ensures Valid() && key in store.segments
      ensures disk.dependable && Replayable(KeepPart, old(disk.fs).Visible(), old(Row(key))) ==> e.Done?
      ensures e.Done? ==> Resolved(KeepPart, old(disk.fs).Visible(), old(Row(key)), Row(key), disk.fs)
      ensures !e.Done? ==> store.Snapshot() == old(store.Snapshot())
      ensures e.Done? && Row(key).artifact.Ready? ==> store.Snapshot() == old(store.Snapshot()).PutSegment(Row(key))
      ensures disk.dependable ==> OnlyPaths(old(disk.fs).Visible(), disk.fs.Visible(), old(Row(key)))
      ensures disk.dependable ==> !e.Crashed?
      ensures OthersKept(old(store.Snapshot()), store.Snapshot(), key)
      ensures disk.dependable && !e.Done? ==> disk.fs == old(disk.fs)
      ensures !Replayable(KeepPart, old(disk.fs).Visible(), old(Row(key))) ==> e.Errored? && disk.fs == old(disk.fs)
      ensures disk.dependable && !Row(key).artifact.Ready? ==> disk.fs == old(disk.fs)
      ensures Spared(old(disk.fs), disk.fs, Names(old(Row(key))))
    {
      var row := Row(key);
      var part, final := disk.Inspect(row.partPath), disk.Inspect(row.finalPath);
      if part.RegularFile? && !final.Irregular? {
        e := KeepPartFiles(key);
      } else if part.Missing? && final.RegularFile? {
        e := Sync();
      } else if part.Missing? && final.Missing? {
        var failed := FailReplay(key, now);
        return Done;
      } else {
        return Errored;
      }
      if e.Done? {
        CompletionEnabled(store.Snapshot(), key, KeepResolved);
        ReadyIsDurable(key, MoveArtifact(row, KeepResolved).value);
        var done := Move(key, KeepResolved, now);
      }
    }

    method KeepFinalFiles(key: SegmentKey) returns (e: Ending)
      requires Valid() && key in store.segments
      requires Row(key).artifact.ResolvingConflict? && Row(key).artifact.decision.KeepFinal?
      requires KindIn(disk.fs.Visible(), Row(key).finalPath).RegularFile?
               && !KindIn(disk.fs.Visible(), Row(key).partPath).Irregular?
      modifies disk
      ensures Valid()
      ensures disk.dependable ==> e.Done?
      ensures e.Done? ==> disk.fs.pending == [] && disk.fs.Visible() == old(disk.fs).Visible() - {Row(key).partPath}
      ensures Row(key).partPath != Row(key).finalPath
      ensures StableKept(old(disk.fs), disk.fs, Row(key).finalPath)
      ensures Spared(old(disk.fs), disk.fs, Names(Row(key)))
    {
      RowSafeNow(key);
      e := RemoveDurably(key, Row(key).partPath);
    }

    method ReplayKeepFinal(key: SegmentKey, now: Timestamp) returns (e: Ending)
      requires Valid() && key in store.segments
      requires Row(key).artifact.ResolvingConflict? && Row(key).artifact.decision.KeepFinal?
      modifies store, disk
      ensures Valid() && key in store.segments
      ensures disk.dependable && Replayable(KeepFinal, old(disk.fs).Visible(), old(Row(key))) ==> e.Done?
      ensures e.Done? ==> Resolved(KeepFinal, old(disk.fs).Visible(), old(Row(key)), Row(key), disk.fs)
      ensures !e.Done? ==> store.Snapshot() == old(store.Snapshot())
      ensures e.Done? && Row(key).artifact.Ready? ==> store.Snapshot() == old(store.Snapshot()).PutSegment(Row(key))
      ensures disk.dependable ==> OnlyPaths(old(disk.fs).Visible(), disk.fs.Visible(), old(Row(key)))
      ensures disk.dependable ==> !e.Crashed?
      ensures OthersKept(old(store.Snapshot()), store.Snapshot(), key)
      ensures disk.dependable && !e.Done? ==> disk.fs == old(disk.fs)
      ensures !Replayable(KeepFinal, old(disk.fs).Visible(), old(Row(key))) ==> e.Errored? && disk.fs == old(disk.fs)
      ensures StableKept(old(disk.fs), disk.fs, old(Row(key)).finalPath)
      ensures disk.dependable && !Row(key).artifact.Ready? ==> disk.fs == old(disk.fs)
      ensures Spared(old(disk.fs), disk.fs, Names(old(Row(key))))
    {
      var row := Row(key);
      var part, final := disk.Inspect(row.partPath), disk.Inspect(row.finalPath);
      if !part.Irregular? && final.RegularFile? {
        e := KeepFinalFiles(key);
      } else if part.Missing? && final.Missing? {
        var failed := FailReplay(key, now);
        return Done;
      } else {
        return Errored;
      }
      if e.Done? {
        CompletionEnabled(store.Snapshot(), key, KeepResolved);
        ReadyIsDurable(key, MoveArtifact(row, KeepResolved).value);
        var done := Move(key, KeepResolved, now);
      }
    }

    /** Neither file is left: the recording has failed. */
    method FailReplay(key: SegmentKey, now: Timestamp) returns (ok: bool)
      requires Valid() && key in store.segments && Row(key).artifact.ResolvingConflict?
      modifies store
      ensures Valid() && ok && key in store.segments && Row(key).artifact.Failed?
      ensures Row(key) == old(Row(key)).(artifact := Row(key).artifact)
      ensures Row(key).artifact.failedClose == old(Row(key)).artifact.CloseReason()
      ensures OthersKept(old(store.Snapshot()), store.Snapshot(), key)
    {
      var reason := ArtifactStopped(key.sid, key.index, "conflict resolution has no file to keep");
      FailEnabled(store.Snapshot(), key, reason);
      FailIsLocal(store.Snapshot(), key, reason, Row(key).artifact.CloseReason(), now);
      ok := Fail(key, reason, Row(key).artifact.CloseReason(), now);
    }

    lemma FailEnabled(db: Db, key: SegmentKey, reason: Reason)
      requires Inv(db) && key in db.segments && !reason.Blank()
      requires db.segments[key].artifact.Unresolved() && !db.segments[key].artifact.Deleting?
      ensures CanFailArtifact(db, key, reason)
      ensures db.segments[key].Key() == key && db.sessions[key.sid].id == key.sid
    {
      assert SegmentOk(db, key) && SessionOk(db, key.sid);
      ClaimIsExact(db, key.sid, 0);
    }

    /** Carry out the stored decision; it may have been interrupted anywhere. */
    method ReplayConflict(key: SegmentKey, now: Timestamp) returns (e: Ending)
      requires Valid() && key in store.segments && Row(key).artifact.ResolvingConflict?
      modifies store, disk
      ensures Valid() && key in store.segments
      ensures disk.dependable && Replayable(old(Row(key)).artifact.decision, old(disk.fs).Visible(), old(Row(key))) ==>
                e.Done?
      ensures e.Done? ==>
                Resolved(old(Row(key)).artifact.decision, old(disk.fs).Visible(), old(Row(key)), Row(key), disk.fs)
      ensures !e.Done? ==> store.Snapshot() == old(store.Snapshot())
      ensures disk.dependable ==> OnlyPaths(old(disk.fs).Visible(), disk.fs.Visible(), old(Row(key)))
      ensures disk.dependable ==> !e.Crashed?
      ensures OthersKept(old(store.Snapshot()), store.Snapshot(), key)
      ensures disk.dependable && !e.Done? ==> disk.fs == old(disk.fs)
      ensures !Replayable(old(Row(key)).artifact.decision, old(disk.fs).Visible(), old(Row(key))) ==>
                e.Errored? && disk.fs == old(disk.fs)
      ensures old(Row(key)).artifact.decision.KeepPart? || StableKept(old(disk.fs), disk.fs, old(Row(key)).finalPath)
      ensures disk.dependable && !Row(key).artifact.Ready? ==> disk.fs == old(disk.fs)
      ensures Spared(old(disk.fs), disk.fs, Names(old(Row(key))))
      ensures OthersSame(old(store.Snapshot()), store.Snapshot(), key)
    {
      match Row(key).artifact.decision
      case KeepPart => e := ReplayKeepPart(key, now);
      case KeepFinal => e := ReplayKeepFinal(key, now);
      case Exclude =>
        CompletionEnabled(store.Snapshot(), key, ExcludeResolved);
        var done := Move(key, ExcludeResolved, now);
        e := Done;
    }

    /** Only a real conflict is open to a decision, and `KeepPart` needs a part to keep. */
    predicate Decidable(key: SegmentKey, decision: ArtifactDecision)
      requires key in store.segments
      reads this, store, disk
    {
      var (part, final) := (disk.Inspect(Row(key).partPath), disk.Inspect(Row(key).finalPath));
      match Row(key).artifact
      case Finalizing(_) => part.RegularFile? && final.RegularFile?
      case Discarding(_) => !part.Irregular? && final.RegularFile? && !(decision.KeepPart? && part.Missing?)
      case _ => false
    }

    /** The decision would be stored. */
    ghost predicate Decides(key: SegmentKey, decision: ArtifactDecision)
      reads this, store, disk
    {
      key in store.segments && Decidable(key, decision) && CanBeginConflict(store.Snapshot(), key)
    }

    /** The row once the decision is stored. */
    ghost function DecidedRow(key: SegmentKey, decision: ArtifactDecision): Segment
      requires Decides(key, decision)
      reads this, store, disk
    {
      Row(key).(artifact := ResolvingConflict(Row(key).artifact.closeReason, decision))
    }

    /** What is promised from then on. */
    ghost function Decided(key: SegmentKey, decision: ArtifactDecision): Intended
      requires Decides(key, decision)
      reads this, store, disk
    {
      Intend(intended, DecidedRow(key, decision), disk.fs)
    }

    /** Only a decidable conflict gets a stored decision. */
    method DecideConflict(key: SegmentKey, decision: ArtifactDecision, note: Option<string>, now: Timestamp)
      returns (ok: bool)
      requires Valid()
      modifies this`intended, store
      ensures Valid()
      ensures ok <==> old(Decides(key, decision))
      ensures ok ==> key in store.segments
                     && Row(key).artifact == ResolvingConflict(old(Row(key)).artifact.closeReason, decision)
                     && Row(key).partPath == old(Row(key)).partPath && Row(key).finalPath == old(Row(key)).finalPath
      ensures intended == if ok then old(Decided(key, decision)) else old(intended)
      ensures !ok ==> store.Snapshot() == old(store.Snapshot())
      ensures PromisesKept(old(intended), intended) && NamesKept(old(store.Snapshot()), store.Snapshot())
      ensures IntentOnly(old(intended), intended, key)
      ensures OthersSame(old(store.Snapshot()), store.Snapshot(), key)
    {
      if key !in store.segments || !Decidable(key, decision) {
        return false;
      }
      RowSafeNow(key);
      ghost var fs, promised := disk.fs, intended;
      ok := BeginDecision(key, decision, note, now);
      if ok {
        IntendOfSame(promised, Row(key), old(DecidedRow(key, decision)), fs);
      }
    }

    lemma IntendOfSame(intended: Intended, row: Segment, row': Segment, fs: Fs)
      requires row'.artifact == row.artifact && row'.Key() == row.Key() && SamePaths(row, row')
      ensures Intend(intended, row, fs) == Intend(intended, row', fs)
    {
      var bytes := DecidedBytes(row, fs.Visible());
      assert Sheltered(row, bytes, fs) <==> Sheltered(row', bytes, fs) by {
        forall n | 0 <= n <= |fs.pending| ensures Chosen(row, fs.View(n)) == Chosen(row', fs.View(n)) {
        }
      }
    }

    method ReplayDecided(key: SegmentKey, now: Timestamp) returns (e: Ending)
      requires Valid() && key in store.segments && Row(key).artifact.ResolvingConflict?
      modifies store, disk
      ensures Valid() && NamesKept(old(store.Snapshot()), store.Snapshot())
      ensures OthersSame(old(store.Snapshot()), store.Snapshot(), key)
      ensures e.Done? ==>
                Resolved(old(Row(key)).artifact.decision, old(disk.fs).Visible(), old(Row(key)), Row(key), disk.fs)
      ensures !e.Done? ==> Row(key) == old(Row(key))
      ensures disk.dependable && Replayable(old(Row(key)).artifact.decision, old(disk.fs).Visible(), old(Row(key))) ==>
                e.Done?
      ensures Spared(old(disk.fs), disk.fs, Names(old(Row(key))))
      ensures old(Row(key)).artifact.decision.KeepPart? || StableKept(old(disk.fs), disk.fs, old(Row(key)).finalPath)
    {
      hide Valid, RowSafe, RowDurable, Stable;
      var crashed := CrashPoint();
      if crashed {
        return Crashed;
      }
      e := ReplayConflict(key, now);
    }

    /** The operator's choice, carried out: the kept file is final and durable, or the segment is excluded. */
    method ResolveConflict(key: SegmentKey, decision: ArtifactDecision, note: Option<string>, now: Timestamp)
      returns (e: Ending)
      requires Valid()
      modifies this`intended, store, disk
      ensures Valid()
      ensures e.Done? ==>
                && key in old(store.segments) && key in store.segments
                && match decision
                   case KeepPart => Row(key).artifact.Ready?
                       && Holds(disk.fs.durable, Row(key).finalPath, BytesAt(old(disk.fs).Visible(), Row(key).partPath))
                   case KeepFinal => Row(key).artifact.Ready?
                       && Holds(disk.fs.durable, Row(key).finalPath,
                       BytesAt(old(disk.fs).Visible(), Row(key).finalPath))
                   case Exclude => Row(key).artifact.Excluded?
      ensures disk.dependable ==> (e.Done? <==> old(Decides(key, decision)))
      ensures !e.Done? && old(Decides(key, decision)) ==>
                && key in store.segments
                && Row(key).artifact == ResolvingConflict(old(Row(key)).artifact.closeReason, decision)
      ensures key in old(store.segments) && !decision.KeepPart? ==>
                StableKept(old(disk.fs), disk.fs, old(Row(key)).finalPath)
      ensures PromisesKept(old(intended), intended) && NamesKept(old(store.Snapshot()), store.Snapshot())
      ensures IntentOnly(old(intended), intended, key)
      ensures intended == if old(Decides(key, decision)) then old(Decided(key, decision)) else old(intended)
      ensures FinalsKept(old(store.Snapshot()), old(disk.fs), store.Snapshot(), disk.fs,
                if decision.KeepPart? then {key} else {})
      ensures old(Decides(key, decision)) ==> key in store.segments && !Row(key).artifact.Writing?
    {
      hide FilesOk, PathsApart, Inv, Intend, OnlyPaths, SessionKept, Valid, Stable, Spared, OthersKept,
        CanBeginConflict;
      ghost var db, fs := store.Snapshot(), disk.fs;
      NamesApartNow();
      SameRowsKeepFinals(db, fs, db, fs);
      var begun := DecideConflict(key, decision, note, now);
      if !begun {
        return Errored;
      }
      e := ReplayDecided(key, now);
      RowWorkKeepsFinals(db, fs, store.Snapshot(), disk.fs, key, if decision.KeepPart? then {key} else {});
    }

    // ----- Startup -----

    /** The rename was done before the interruption: sync it and record the end. */
    method ConfirmFinal(key: SegmentKey, now: Timestamp) returns (e: Ending)
      requires Valid() && key in store.segments && Row(key).artifact.Finalizing?
      requires KindIn(disk.fs.Visible(), Row(key).partPath).Missing?
               && KindIn(disk.fs.Visible(), Row(key).finalPath).RegularFile?
      modifies store, disk
      ensures Valid() && key in store.segments
      ensures disk.dependable ==> e.Done?
      ensures e.Done? ==>
                Row(key) == old(Row(key)).(artifact := ArtifactState.Ready(old(Row(key)).artifact.closeReason))
      ensures e.Done? ==> disk.fs.durable == old(disk.fs).Visible() && disk.fs.Visible() == old(disk.fs).Visible()
      ensures e.Done? ==> disk.fs.pending == []
      ensures store.Snapshot() == if e.Done? then old(store.Snapshot()).PutSegment(Row(key)) else old(store.Snapshot())
      ensures StableKept(old(disk.fs), disk.fs, old(Row(key)).finalPath)
      ensures OthersKept(old(store.Snapshot()), store.Snapshot(), key)
      ensures Spared(old(disk.fs), disk.fs, Names(old(Row(key))))
    {
      e := Sync();
      if e.Done? {
        CompletionEnabled(store.Snapshot(), key, CompleteFinalization);
        ReadyIsDurable(key, MoveArtifact(Row(key), CompleteFinalization).value);
        var done := Move(key, CompleteFinalization, now);
      }
    }

    method FailMissing(key: SegmentKey, now: Timestamp)
      requires Valid() && key in store.segments && Row(key).artifact.Unresolved() && !Row(key).artifact.Deleting?
      modifies store
      ensures Valid() && key in store.segments && Row(key).artifact.Failed?
      ensures Row(key) == old(Row(key)).(artifact := Row(key).artifact)
      ensures Row(key).artifact.failedClose == old(Row(key)).artifact.CloseReason()
      ensures OthersKept(old(store.Snapshot()), store.Snapshot(), key)
    {
      var reason := ArtifactStopped(key.sid, key.index,
          "the recording was interrupted or has neither part nor final file");
      FailEnabled(store.Snapshot(), key, reason);
      FailIsLocal(store.Snapshot(), key, reason, Row(key).artifact.CloseReason(), now);
      var failed := Fail(key, reason, Row(key).artifact.CloseReason(), now);
    }

    method RetryRename(key: SegmentKey, now: Timestamp) returns (e: Ending)
      requires Valid() && key in store.segments && Row(key).artifact.Finalizing?
      requires KindIn(disk.fs.Visible(), Row(key).partPath).RegularFile?
               && KindIn(disk.fs.Visible(), Row(key).finalPath).Missing?
      modifies store, disk
      ensures Valid() && key in store.segments
      ensures !e.Errored? && (disk.dependable ==> e.Done? && Row(key).artifact.Ready?)
      ensures e.Done? ==> RowReconciled(store.Snapshot(), key)
      ensures disk.dependable ==> OnlyPaths(old(disk.fs).Visible(), disk.fs.Visible(), old(Row(key)))
      ensures OthersKept(old(store.Snapshot()), store.Snapshot(), key)
      ensures StableKept(old(disk.fs), disk.fs, old(Row(key)).finalPath)
      ensures disk.dependable ==>
                Row(key).finalPath in disk.fs.durable
                && disk.fs.durable[Row(key).finalPath] == old(disk.fs).Visible()[old(Row(key)).partPath]
      ensures Row(key).finalPath == old(Row(key)).finalPath
      ensures disk.dependable ==> Recovered(old(Row(key)), old(disk.fs), Row(key), disk.fs)
      ensures disk.dependable ==> SyncedOrSame(old(disk.fs), disk.fs)
      ensures Spared(old(disk.fs), disk.fs, Names(old(Row(key))))
      ensures !MayTouchFinal(Row(key).artifact)
    {
      hide AtRest;
      e := CommitPart(key, now);
      if e.Done? {
        RestNow(disk.fs, Row(key).partPath);
        RestNow(disk.fs, Row(key).finalPath);
      }
      if e.Errored? {
        LeaveForOperator(key, OPERATION_FAILED, now);
        e := Done;
      }
      assert SegmentOk(store.Snapshot(), key);
    }

    method RetryConfirm(key: SegmentKey, now: Timestamp) returns (e: Ending)
      requires Valid() && key in store.segments && Row(key).artifact.Finalizing?
      requires KindIn(disk.fs.Visible(), Row(key).partPath).Missing?
               && KindIn(disk.fs.Visible(), Row(key).finalPath).RegularFile?
      modifies store, disk
      ensures Valid() && key in store.segments
      ensures !e.Errored?
              && (disk.dependable ==> e.Done? && Row(key).artifact.Ready? && disk.fs.durable == old(disk.fs).Visible())
      ensures e.Done? ==> RowReconciled(store.Snapshot(), key)
      ensures disk.dependable ==> disk.fs.Visible() == old(disk.fs).Visible()
      ensures OthersKept(old(store.Snapshot()), store.Snapshot(), key)
      ensures StableKept(old(disk.fs), disk.fs, old(Row(key)).finalPath)
      ensures Row(key).finalPath == old(Row(key)).finalPath
      ensures disk.dependable ==> Recovered(old(Row(key)), old(disk.fs), Row(key), disk.fs)
      ensures disk.dependable ==> SyncedOrSame(old(disk.fs), disk.fs)
      ensures Spared(old(disk.fs), disk.fs, Names(old(Row(key))))
      ensures !MayTouchFinal(Row(key).artifact)
    {
      hide AtRest;
      e := ConfirmFinal(key, now);
      if e.Done? {
        RestNow(disk.fs, Row(key).partPath);
        RestNow(disk.fs, Row(key).finalPath);
      }
      if e.Errored? {
        LeaveForOperator(key, OPERATION_FAILED, now);
        e := Done;
      }
      assert SegmentOk(store.Snapshot(), key);
    }

    method ReconcileFinalizing(key: SegmentKey, now: Timestamp) returns (e: Ending)
      requires Valid() && key in store.segments && Row(key).artifact.Finalizing?
      modifies store, disk
      ensures Valid() && key in store.segments
      ensures !e.Errored? && (disk.dependable ==> e.Done?)
      ensures e.Done? ==> RowReconciled(store.Snapshot(), key)
      ensures disk.dependable ==>
                && RowSettled(store.Snapshot(), key, disk.fs.Visible())
                && OnlyPaths(old(disk.fs).Visible(), disk.fs.Visible(), old(Row(key)))
                && (RowSettled(old(store.Snapshot()), key, old(disk.fs).Visible()) ==>
                      SameButTimes(old(store.Snapshot()), store.Snapshot()) && disk.fs == old(disk.fs))
      ensures OthersKept(old(store.Snapshot()), store.Snapshot(), key)
      ensures StableKept(old(disk.fs), disk.fs, old(Row(key)).finalPath)
      ensures disk.dependable && Chosen(old(Row(key)), old(disk.fs).Visible()).Some? ==>
                && Row(key).artifact.Ready? && Row(key).finalPath in disk.fs.durable
                && Some(disk.fs.durable[Row(key).finalPath]) == Chosen(old(Row(key)), old(disk.fs).Visible())
      ensures disk.dependable ==> Recovered(old(Row(key)), old(disk.fs), Row(key), disk.fs)
      ensures disk.dependable ==> SyncedOrSame(old(disk.fs), disk.fs)
      ensures Spared(old(disk.fs), disk.fs, Names(old(Row(key))))
      ensures !MayTouchFinal(Row(key).artifact)
    {
      hide FilesOk, PathsApart, Told, StopDetail, SessionKept, Stable, AtRest;
      var part, final := disk.Inspect(Row(key).partPath), disk.Inspect(Row(key).finalPath);
      if part.RegularFile? && final.Missing? {
        e := RetryRename(key, now);
      } else if part.Missing? && final.RegularFile? {
        e := RetryConfirm(key, now);
      } else if part.Missing? && final.Missing? {
        FailMissing(key, now);
        assert SegmentOk(store.Snapshot(), key);
        e := Done;
      } else {
        LeaveForOperator(key, StopDetail(Row(key), disk.fs.Visible()), now);
        e := Done;
      }
    }

    /** The row stays as it is and its session waits for the operator. */
    method LeaveForOperator(key: SegmentKey, detail: string, now: Timestamp)
      requires Valid() && key in store.segments && Waits(Row(key).artifact)
      modifies store
      ensures Valid() && store.segments == old(store.segments)
      ensures RowReconciled(store.Snapshot(), key)
      ensures Row(key).Key() == key && Told(store.Snapshot(), key.sid, ArtifactStopped(key.sid, key.index, detail))
      ensures OthersKept(old(store.Snapshot()), store.Snapshot(), key)
      ensures old(Told(store.Snapshot(), key.sid, ArtifactStopped(key.sid, key.index, detail))) ==>
                SameButTimes(old(store.Snapshot()), store.Snapshot())
    {
      ghost var db := store.Snapshot();
      var reason := ArtifactStopped(key.sid, key.index, detail);
      FailEnabled(db, key, reason);
      ToldAfter(db, key.sid, reason, now);
      RequestIsLocal(db, key.sid, reason, now, key);
      if Told(db, key.sid, reason) {
        ToldAgain(db, key.sid, reason, now);
      }
      var recorded := DemandRecovery(key.sid, reason, now);
      assert SegmentOk(store.Snapshot(), key);
    }

    method ReconcileDiscarding(key: SegmentKey, now: Timestamp) returns (e: Ending)
      requires Valid() && key in store.segments && Row(key).artifact.Discarding?
      modifies store, disk
      ensures Valid() && key in store.segments
      ensures !e.Errored? && (disk.dependable ==> e.Done?)
      ensures e.Done? ==> RowReconciled(store.Snapshot(), key)
      ensures disk.dependable ==>
                && RowSettled(store.Snapshot(), key, disk.fs.Visible())
                && OnlyPaths(old(disk.fs).Visible(), disk.fs.Visible(), old(Row(key)))
                && (RowSettled(old(store.Snapshot()), key, old(disk.fs).Visible()) ==>
                      SameButTimes(old(store.Snapshot()), store.Snapshot()) && disk.fs == old(disk.fs))
      ensures OthersKept(old(store.Snapshot()), store.Snapshot(), key)
      ensures StableKept(old(disk.fs), disk.fs, old(Row(key)).finalPath)
      ensures !Settling(Row(key).artifact)
      ensures disk.dependable ==> Recovered(old(Row(key)), old(disk.fs), Row(key), disk.fs)
      ensures disk.dependable ==> SyncedOrSame(old(disk.fs), disk.fs)
      ensures Spared(old(disk.fs), disk.fs, Names(old(Row(key))))
      ensures !MayTouchFinal(Row(key).artifact)
    {
      hide AtRest, Told, FilesOk, PathsApart;
      if !Discardable(disk.fs.Visible(), Row(key)) {
        LeaveForOperator(key, StopDetail(Row(key), disk.fs.Visible()), now);
        return Done;
      }
      e := CommitDiscard(key, now);
      if e.Done? {
        RestNow(disk.fs, Row(key).partPath);
        RestNow(disk.fs, Row(key).finalPath);
      }
      if e.Errored? {
        LeaveForOperator(key, OPERATION_FAILED, now);
        e := Done;
      }
      assert SegmentOk(store.Snapshot(), key);
    }

    method ReconcileConflict(key: SegmentKey, now: Timestamp) returns (e: Ending)
      requires Valid() && key in store.segments && Row(key).artifact.ResolvingConflict?
      modifies store, disk
      ensures Valid() && key in store.segments
      ensures !e.Errored? && (disk.dependable ==> e.Done?)
      ensures e.Done? ==> RowReconciled(store.Snapshot(), key)
      ensures disk.dependable ==>
                && RowSettled(store.Snapshot(), key, disk.fs.Visible())
                && OnlyPaths(old(disk.fs).Visible(), disk.fs.Visible(), old(Row(key)))
                && (RowSettled(old(store.Snapshot()), key, old(disk.fs).Visible()) ==>
                      SameButTimes(old(store.Snapshot()), store.Snapshot()) && disk.fs == old(disk.fs))
      ensures OthersKept(old(store.Snapshot()), store.Snapshot(), key)
      ensures old(Row(key)).artifact.decision.KeepPart? || StableKept(old(disk.fs), disk.fs, old(Row(key)).finalPath)
      ensures disk.dependable ==> Recovered(old(Row(key)), old(disk.fs), Row(key), disk.fs)
      ensures disk.dependable ==> SyncedOrSame(old(disk.fs), disk.fs)
      ensures Spared(old(disk.fs), disk.fs, Names(old(Row(key))))
      ensures MayTouchFinal(old(Row(key)).artifact) || !MayTouchFinal(Row(key).artifact)
    {
      hide Told, FilesOk, PathsApart, Recovered;
      var replayable := Replayable(Row(key).artifact.decision, disk.fs.Visible(), Row(key));
      ghost var row, fs := Row(key), disk.fs;
      e := ReplayConflict(key, now);
      if e.Done? && disk.dependable {
        ResolvedIsRecovered(row, fs, Row(key), disk.fs);
      }
      if e.Errored? {
        LeaveForOperator(key, if replayable then OPERATION_FAILED else StopDetail(Row(key), disk.fs.Visible()), now);
        if disk.dependable {
          UnreplayableIsRecovered(row, fs);
        }
        e := Done;
      }
      assert SegmentOk(store.Snapshot(), key);
    }

    method ReconcileDeleting(key: SegmentKey, now: Timestamp) returns (e: Ending)
      requires Valid() && key in store.segments && Row(key).artifact.Deleting?
      modifies store, disk
      ensures Valid() && key in store.segments
      ensures !e.Errored? && (disk.dependable ==> e.Done?)
      ensures e.Done? ==> RowReconciled(store.Snapshot(), key)
      ensures disk.dependable ==>
                && RowSettled(store.Snapshot(), key, disk.fs.Visible())
                && OnlyPaths(old(disk.fs).Visible(), disk.fs.Visible(), old(Row(key)))
                && (RowSettled(old(store.Snapshot()), key, old(disk.fs).Visible()) ==>
                      SameButTimes(old(store.Snapshot()), store.Snapshot()) && disk.fs == old(disk.fs))
      ensures OthersKept(old(store.Snapshot()), store.Snapshot(), key)
      ensures !Settling(Row(key).artifact)
      ensures disk.dependable ==> Recovered(old(Row(key)), old(disk.fs), Row(key), disk.fs)
      ensures disk.dependable ==> SyncedOrSame(old(disk.fs), disk.fs)
      ensures Spared(old(disk.fs), disk.fs, Names(old(Row(key))))
    {
      if disk.Inspect(Row(key).finalPath).Irregular? {
        e := Done;
      } else {
        e := CommitDelete(key, now);
        if e.Errored? {
          e := Done;
        }
      }
      assert SegmentOk(store.Snapshot(), key);
    }

    /** One row's startup recovery. */
    method ReconcileRow(key: SegmentKey, now: Timestamp) returns (e: Ending)
      requires Valid() && key in store.segments
      modifies store, disk
      ensures Valid() && key in store.segments
      ensures !e.Errored? && (disk.dependable ==> e.Done?)
      ensures e.Done? ==> RowReconciled(store.Snapshot(), key)
      ensures disk.dependable ==>
                && RowSettled(store.Snapshot(), key, disk.fs.Visible())
                && OnlyPaths(old(disk.fs).Visible(), disk.fs.Visible(), old(Row(key)))
                && (RowSettled(old(store.Snapshot()), key, old(disk.fs).Visible()) ==>
                      SameButTimes(old(store.Snapshot()), store.Snapshot()) && disk.fs == old(disk.fs))
      ensures OthersKept(old(store.Snapshot()), store.Snapshot(), key)
      ensures MayTouchFinal(old(Row(key)).artifact) || StableKept(old(disk.fs), disk.fs, old(Row(key)).finalPath)
      ensures Settling(Row(key).artifact) ==> Settling(old(Row(key)).artifact)
      ensures disk.dependable ==> Recovered(old(Row(key)), old(disk.fs), Row(key), disk.fs)
      ensures disk.dependable ==> SyncedOrSame(old(disk.fs), disk.fs)
      ensures Spared(old(disk.fs), disk.fs, Names(old(Row(key))))
      ensures MayTouchFinal(old(Row(key)).artifact) || !MayTouchFinal(Row(key).artifact)
      ensures OthersSame(old(store.Snapshot()), store.Snapshot(), key)
    {
      match Row(key).artifact
      case Writing =>
        FailMissing(key, now);
        assert SegmentOk(store.Snapshot(), key);
        e := Done;
      case Finalizing(_) => e := ReconcileFinalizing(key, now);
      case Discarding(_) => e := ReconcileDiscarding(key, now);
      case ResolvingConflict(_, _) => e := ReconcileConflict(key, now);
      case Deleting => e := ReconcileDeleting(key, now);
      case _ =>
        assert SegmentOk(store.Snapshot(), key);
        e := Done;
    }

    /** Every row is dealt with; on a dependable disk there is nothing more to do or to say. */
    ghost predicate AllReconciled(keys: set<SegmentKey>)
      reads this, store, disk
    {
      && (forall k {:trigger RowReconciled(store.Snapshot(), k)} | k in keys :: RowReconciled(store.Snapshot(), k))
      && (disk.dependable ==> AllSettled(store.Snapshot(), keys, disk.fs.Visible()))
    }

    method ReconcileNext(key: SegmentKey, ghost done: set<SegmentKey>, now: Timestamp) returns (e: Ending)
      requires Valid() && key in store.segments && key !in done && done <= store.segments.Keys && AllReconciled(done)
      modifies store, disk
      ensures Valid() && store.segments.Keys == old(store.segments).Keys
      ensures !e.Errored? && (disk.dependable ==> e.Done?)
      ensures e.Done? ==> AllReconciled(done + {key})
      ensures store.submissions == old(store.submissions) && store.gates == old(store.gates)
      ensures disk.dependable && RowSettled(old(store.Snapshot()), key, old(disk.fs).Visible()) ==>
                SameButTimes(old(store.Snapshot()), store.Snapshot()) && disk.fs == old(disk.fs)
      ensures NamesKept(old(store.Snapshot()), store.Snapshot())
      ensures NoneRevived(old(store.Snapshot()), store.Snapshot())
      ensures FinalsKept(old(store.Snapshot()), old(disk.fs), store.Snapshot(), disk.fs, {})
      ensures disk.dependable ==>
                && Recovered(old(Row(key)), old(disk.fs), Row(key), disk.fs) && SyncedOrSame(old(disk.fs), disk.fs)
                && OnlyPaths(old(disk.fs).Visible(), disk.fs.Visible(), old(Row(key)))
      ensures OthersSame(old(store.Snapshot()), store.Snapshot(), key)
    {
      hide Recovered, SyncedOrSame;
      ghost var db, d := store.Snapshot(), disk.fs.Visible();
      e := ReconcileRow(key, now);
      RowWorkKeepsFinals(db, old(disk.fs), store.Snapshot(), disk.fs, key, {});
      StillReconciled(db, store.Snapshot(), key, done);
      if disk.dependable {
        StillSettled(db, store.Snapshot(), d, disk.fs.Visible(), key, done);
      }
    }

    /**
      Startup recovery. It never fails while the store works; when it ends, every segment is
      settled, or waits in its intent for the operator with its session in recovery, or waits to
      be deleted. It never touches submissions or gates. On a dependable disk it always ends, every
      row has what recovery owes it, given the row and its files as they were before, and a second
      run changes nothing but the times at which rooms were last written.
     */
    method Reconcile(now: Timestamp) returns (e: Ending)
      requires Valid()
      modifies store, disk
      ensures Valid()
      ensures !e.Errored? && (disk.dependable ==> e.Done?)
      ensures e.Done? ==> AllReconciled(store.segments.Keys)
      ensures store.submissions == old(store.submissions) && store.gates == old(store.gates)
      ensures disk.dependable && old(AllReconciled(store.segments.Keys)) ==>
                SameButTimes(old(store.Snapshot()), store.Snapshot()) && disk.fs == old(disk.fs)
      ensures NamesKept(old(store.Snapshot()), store.Snapshot())
      ensures NoneRevived(old(store.Snapshot()), store.Snapshot())
      ensures FinalsKept(old(store.Snapshot()), old(disk.fs), store.Snapshot(), disk.fs, {})
      ensures disk.dependable ==> forall k | k in old(store.segments) ::
                k in store.segments && Recovered(old(store.segments)[k], old(disk.fs), Row(k), disk.fs)
    {
      hide Recovered, FilesUntouched, SyncedOrSame, Valid, FinalsKept, Midway, RowSettled, RowReconciled,
        SameButTimes, FilesOk, PathsApart, Inv, OthersKept, SessionKept, Spared, Stable;
      var left := store.segments.Keys;
      MidwayStart(store.Snapshot(), disk.fs);
      SameButTimesSelf(store.Snapshot());
      SameRowsKeepFinals(store.Snapshot(), disk.fs, store.Snapshot(), disk.fs);
      ghost var again := disk.dependable && AllReconciled(store.segments.Keys);
      while left != {}
        invariant Valid() && store.segments.Keys == old(store.segments).Keys && left <= store.segments.Keys
        invariant NamesKept(old(store.Snapshot()), store.Snapshot())
                  && NoneRevived(old(store.Snapshot()), store.Snapshot())
        invariant FinalsKept(old(store.Snapshot()), old(disk.fs), store.Snapshot(), disk.fs, {})
        invariant disk.dependable ==> Midway(old(store.Snapshot()), old(disk.fs), store.Snapshot(), disk.fs, left)
        invariant AllReconciled(store.segments.Keys - left)
        invariant store.submissions == old(store.submissions) && store.gates == old(store.gates)
        invariant again ==> SameButTimes(old(store.Snapshot()), store.Snapshot()) && disk.fs == old(disk.fs)
        decreases left
      {
        var key :| key in left;
        ghost var done, db, fs := store.segments.Keys - left, store.Snapshot(), disk.fs;
        if again {
          SettledUnderSame(old(store.Snapshot()), db, key, disk.fs.Visible());
        }
        NamesApartNow();
        e := ReconcileNext(key, done, now);
        if disk.dependable {
          MidwayNext(old(store.Snapshot()), old(disk.fs), db, fs, store.Snapshot(), disk.fs, key, left);
        }
        FinalsKeptTransitive(old(store.Snapshot()), old(disk.fs), db, fs, store.Snapshot(), disk.fs, {}, {});
        assert FinalsKept(old(store.Snapshot()), old(disk.fs), store.Snapshot(), disk.fs, {}) by {
          var none: set<SegmentKey> := {};
          assert none + none == none;
        }
        if e.Crashed? {
          return e;
        }
        if again {
          SameButTimesTransitive(old(store.Snapshot()), db, store.Snapshot());
        }
        left := left - {key};
        assert store.segments.Keys - left == done + {key};
      }
      if disk.dependable {
        MidwayDone(old(store.Snapshot()), old(disk.fs), store.Snapshot(), disk.fs);
      }
      assert store.segments.Keys - {} == store.segments.Keys;
      return Done;
    }
  }

  ghost predicate AllSettled(db: Db, keys: set<SegmentKey>, d: Directory) {
    forall k {:trigger RowSettled(db, k, d)} | k in keys :: RowSettled(db, k, d)
  }

  lemma StillReconciled(db: Db, db': Db, key: SegmentKey, done: set<SegmentKey>)
    requires OthersKept(db, db', key) && key in db.segments && key !in done && done <= db.segments.Keys
    requires forall k {:trigger RowReconciled(db, k)} | k in done :: RowReconciled(db, k)
    ensures forall k {:trigger RowReconciled(db', k)} | k in done :: RowReconciled(db', k)
  {
    forall k | k in done ensures RowReconciled(db', k) {
      assert RowReconciled(db, k) && SessionKept(db, db', k.sid) && db'.segments[k] == db.segments[k];
    }
  }

  /** What one row's recovery leaves alone stays settled. */
  lemma StillSettled(db: Db, db': Db, d: Directory, d': Directory, key: SegmentKey, done: set<SegmentKey>)
    requires PathsApart(db) && OthersKept(db, db', key) && key in db.segments && key !in done
             && done <= db.segments.Keys
    requires OnlyPaths(d, d', db.segments[key]) && AllSettled(db, done, d) && RowSettled(db', key, d')
    ensures AllSettled(db', done + {key}, d')
  {
    hide RowSettled;
    forall k | k in done ensures RowSettled(db', k, d') {
      assert Apart(db, k, key) && RowSettled(db, k, d);
      assert db'.segments[k] == db.segments[k];
      SettledElsewhere(db, db', d, d', k);
    }
  }

  lemma SettledElsewhere(db: Db, db': Db, d: Directory, d': Directory, key: SegmentKey)
    requires RowSettled(db, key, d) && key in db'.segments && db'.segments[key] == db.segments[key]
    requires forall id {:trigger SessionKept(db, db', id)} | id in db.sessions :: SessionKept(db, db', id)
    requires SameAt(d, d', db.segments[key].partPath) && SameAt(d, d', db.segments[key].finalPath)
    ensures RowSettled(db', key, d')
  {
    hide Told, StopDetail;
    var row := db.segments[key];
    SameStop(row, d, d');
    if Waits(row.artifact) {
      KeptSession(db, db', key.sid, StopReason(row, d));
    }
  }

  lemma KeptSession(db: Db, db': Db, sid: Uuid, reason: Reason)
    requires Told(db, sid, reason)
    requires forall id {:trigger SessionKept(db, db', id)} | id in db.sessions :: SessionKept(db, db', id)
    ensures Told(db', sid, reason)
  {
    assert SessionKept(db, db', sid);
    ToldStays(db, db', sid, reason);
  }

  lemma SameStop(row: Segment, d: Directory, d': Directory)
    requires SameAt(d, d', row.partPath) && SameAt(d, d', row.finalPath)
    ensures StopDetail(row, d) == StopDetail(row, d') && (RowQuiet(row, d) <==> RowQuiet(row, d'))
  {
    hide KindIn, KindText, DecisionText;
    SameKind(d, d', row.partPath);
    SameKind(d, d', row.finalPath);
    assert Matrix(d, row) == Matrix(d', row);
    hide Matrix;
  }

  lemma SameKind(d: Directory, d': Directory, path: Path)
    requires SameAt(d, d', path)
    ensures KindIn(d, path) == KindIn(d', path)
  {
  }

  lemma SettledUnderSame(db: Db, db': Db, key: SegmentKey, d: Directory)
    requires SameButTimes(db, db') && RowSettled(db, key, d)
    ensures RowSettled(db', key, d)
  {
  }

  // ----- The other store transitions between protocol steps -----

  /** Any of them, as the store performs it. */
  method Transition(c: Committer, command: Command, now: Timestamp)
    requires c.Valid() && FileFree(command)
    modifies c.store
    ensures c.Valid() && c.store.Snapshot() == Apply(old(c.store.Snapshot()), command, now)
    ensures NamesKept(old(c.store.Snapshot()), c.store.Snapshot())
    ensures FinalsKept(old(c.store.Snapshot()), c.disk.fs, c.store.Snapshot(), c.disk.fs, Doomed(command))
  {
    hide FilesOk, PathsApart, Inv, Enabled, Effect;
    ghost var db := c.store.Snapshot();
    PerformCommand(c.store, command, now);
    if Enabled(db, command) {
      EffectKeeps(db, command, now);
      OtherCommandsKeepFiles(db, command, now, c.disk.fs, c.intended);
    }
  }

  method PerformCommand(store: Store, command: Command, now: Timestamp)
    requires store.Valid() && FileFree(command)
    modifies store
    ensures store.Valid() && store.Snapshot() == Apply(old(store.Snapshot()), command, now)
  {
    hide Enabled, Effect;
    match command
    case CreateSession(session) => var r := store.CreateSession(session, now);
    case UpdateArtifact(key, move) => var r := store.UpdateArtifact(key, move, now);
    case FailArtifact(key, reason, close) => var r := store.FailArtifact(key, reason, close, now);
    case BeginDelete(key) => var r := store.BeginDelete(key, now);
    case RequireRecovery(sid, reason) => var r := store.RequireRecovery(sid, reason, now);
    case CloseSession(sid, request) => var r := store.CloseSession(sid, request, now);
    case BeginUpload(key, attempt) => var r := store.BeginUpload(key, attempt, now);
    case ReportUpload(key, id, report) => var r := store.ReportUpload(key, id, report, now);
    case ResolveUpload(key, decision, note) => var r := store.ResolveUpload(key, decision, note, now);
    case BeginSubmission(sid, attempt) => var r := store.BeginSubmission(sid, attempt, now);
    case ReportSubmission(sid, id, report) => var r := store.ReportSubmission(sid, id, report, now);
    case ResolveSubmission(sid, decision, note) => var r := store.ResolveSubmission(sid, decision, note, now);
  }

  /** The row's files are no longer spoken for: recording failed or was given up, or they are to go. */
  predicate Unbound(before: ArtifactState, after: ArtifactState, doomed: bool) {
    after.Failed? || after.Excluded? || (after.Deleting? && doomed) || (before.Writing? && after.Discarding?)
  }

  /** Whose deletion a command announces. */
  function Doomed(command: Command): set<SegmentKey> {
    if command.BeginDelete? then {command.key} else {}
  }

  ghost predicate RowKeptOrUnbound(db: Db, db': Db, k: SegmentKey, doomed: set<SegmentKey>)
    requires k in db.segments && k in db'.segments
  {
    && Follows(db.segments[k], db'.segments[k])
    && (db'.segments[k].artifact == db.segments[k].artifact
        || Unbound(db.segments[k].artifact, db'.segments[k].artifact, k in doomed))
  }

  ghost predicate RowsKeptOrUnbound(db: Db, db': Db, doomed: set<SegmentKey>) {
    && db'.segments.Keys == db.segments.Keys
    && forall k {:trigger RowKeptOrUnbound(db, db', k, doomed)} |
         k in db.segments :: RowKeptOrUnbound(db, db', k, doomed)
  }

  lemma KeptRowsKeepNames(db: Db, db': Db, doomed: set<SegmentKey>)
    requires RowsKeptOrUnbound(db, db', doomed)
    ensures NamesKept(db, db')
  {
    forall k | k in db.segments ensures Follows(db.segments[k], db'.segments[k]) {
      assert RowKeptOrUnbound(db, db', k, doomed);
    }
  }

  lemma KeptRowsKeepFinals(db: Db, db': Db, doomed: set<SegmentKey>, fs: Fs)
    requires RowsKeptOrUnbound(db, db', doomed)
    ensures FinalsKept(db, fs, db', fs, doomed)
  {
    forall k | k in db.segments && k !in doomed && !MayTouchFinal(db.segments[k].artifact)
      ensures FinalKept(db, fs, db', fs, k)
    {
      assert RowKeptOrUnbound(db, db', k, doomed);
    }
  }

  lemma KeptRowsKeepFiles(db: Db, db': Db, doomed: set<SegmentKey>, fs: Fs, intended: Intended)
    requires PathsApart(db) && FilesOk(db, fs, intended) && RowsKeptOrUnbound(db, db', doomed)
    ensures PathsApart(db') && FilesOk(db', fs, intended)
  {
    forall k, k' | k in db'.segments && k' in db'.segments ensures Apart(db', k, k') {
      assert Apart(db, k, k') && RowKeptOrUnbound(db, db', k, doomed) && RowKeptOrUnbound(db, db', k', doomed);
    }
    forall k | k in db'.segments ensures RowDurable(db'.segments[k], IntendedFor(intended, k), fs) {
      assert RowKeptOrUnbound(db, db', k, doomed);
      assert RowDurable(db.segments[k], IntendedFor(intended, k), fs);
      forall n | 0 <= n <= |fs.pending| ensures RowSafe(db'.segments[k], IntendedFor(intended, k), fs.View(n)) {
        assert RowSafe(db.segments[k], IntendedFor(intended, k), fs.View(n));
      }
    }
  }

  /** The steps that end or redirect file work belong to the protocol; every other command leaves the promise intact. */
  predicate FileFree(command: Command) {
    match command
    case UpdateArtifact(_, move) => move.BeginDiscard?
    case BeginConflict(_, _, _) => false
    case CompleteDelete(_) => false
    case OpenSegment(_) => false
    case _ => true
  }

  lemma OtherCommandsKeepFiles(db: Db, command: Command, now: Timestamp, fs: Fs, intended: Intended)
    requires Inv(db) && PathsApart(db) && FilesOk(db, fs, intended)
    requires Enabled(db, command) && FileFree(command)
    ensures PathsApart(Effect(db, command, now)) && FilesOk(Effect(db, command, now), fs, intended)
    ensures NamesKept(db, Effect(db, command, now))
    ensures FinalsKept(db, fs, Effect(db, command, now), fs, Doomed(command))
  {
    OtherCommandsKeepRows(db, command, now);
    KeptRowsKeepNames(db, Effect(db, command, now), Doomed(command));
    KeptRowsKeepFinals(db, Effect(db, command, now), Doomed(command), fs);
    KeptRowsKeepFiles(db, Effect(db, command, now), Doomed(command), fs, intended);
  }

  lemma OtherCommandsKeepRows(db: Db, command: Command, now: Timestamp)
    requires Inv(db) && Enabled(db, command) && FileFree(command)
    ensures RowsKeptOrUnbound(db, Effect(db, command, now), Doomed(command))
  {
    RowsKeyed(db);
    match command
    case BeginUpload(key, attempt) => UploadBeginKeepsRows(db, key, attempt);
    case ReportUpload(key, id, report) => UploadReportKeepsRows(db, key, id, report, now);
    case ResolveUpload(key, decision, note) => UploadResolveKeepsRows(db, key, decision, note, now);
    case UpdateArtifact(key, move) => DiscardKeepsRows(db, key, move, now);
    case FailArtifact(key, reason, close) => FailureKeepsRows(db, key, reason, close, now);
    case BeginDelete(key) => DeletingKeepsRows(db, key);
    case CloseSession(sid, request) => CloseKeepsRows(db, sid, request, now);
    case _ => OtherTablesKeepRows(db, command, now);
  }

  lemma OtherTablesKeepRows(db: Db, command: Command, now: Timestamp)
    requires Enabled(db, command)
    requires command.CreateSession? || command.RequireRecovery? || command.BeginSubmission? || command.ReportSubmission?
             || command.ResolveSubmission?
    ensures RowsKeptOrUnbound(db, Effect(db, command, now), Doomed(command))
  {
    assert Effect(db, command, now).segments == db.segments;
  }

  lemma UploadBeginKeepsRows(db: Db, key: SegmentKey, attempt: RemoteAttempt)
    requires db.Keyed() && CanBeginUpload(db, key, attempt)
    ensures RowsKeptOrUnbound(db, UploadBegun(db, key, attempt), {})
  {
  }

  lemma UploadReportKeepsRows(db: Db, key: SegmentKey, id: Uuid, report: RemoteReport<UploadedPart>, now: Timestamp)
    requires db.Keyed() && CanReportUpload(db, key, id, report)
    ensures RowsKeptOrUnbound(db, UploadReported(db, key, id, report, now), {})
  {
  }

  lemma UploadResolveKeepsRows(db: Db, key: SegmentKey, decision: OperatorDecision<UploadedPart>, note: Option<string>,
      now: Timestamp)
    requires db.Keyed() && CanResolveUpload(db, key, decision)
    ensures RowsKeptOrUnbound(db, UploadResolved(db, key, decision, note, now), {})
  {
  }

  lemma DiscardKeepsRows(db: Db, key: SegmentKey, move: ArtifactMove, now: Timestamp)
    requires db.Keyed() && CanMoveArtifact(db, key, move) && move.BeginDiscard?
    ensures RowsKeptOrUnbound(db, ArtifactMoved(db, key, move, now), {})
  {
  }

  lemma FailureKeepsRows(db: Db, key: SegmentKey, reason: Reason, close: Option<SegmentCloseReason>, now: Timestamp)
    requires db.Keyed() && CanFailArtifact(db, key, reason)
    ensures RowsKeptOrUnbound(db, ArtifactFailed(db, key, reason, close, now), {})
  {
  }

  lemma DeletingKeepsRows(db: Db, key: SegmentKey)
    requires db.Keyed() && CanBeginDelete(db, key)
    ensures RowsKeptOrUnbound(db, WithArtifact(db, key, Deleting), {key})
  {
  }

  lemma CloseKeepsRows(db: Db, sid: Uuid, request: CloseRequest, now: Timestamp)
    requires db.Keyed() && CanClose(db, sid, request)
    ensures RowsKeptOrUnbound(db, SessionClosed(db, sid, request, now), {})
  {
  }

  /** What the invariant promises of settled rows in every state a crash can leave. */
  lemma SettledRowsAreDurable(c: Committer, key: SegmentKey, n: nat)
    requires c.Valid() && key in c.store.segments && n <= |c.disk.fs.pending|
    ensures var row, d := c.Row(key), c.disk.fs.View(n);
            && (row.artifact.Ready? ==> row.finalPath in d && d[row.finalPath].File?)
            && (row.artifact.Ready? && !IntendedFor(c.intended, key).NoPromise? ==>
                  d[row.finalPath] == File(IntendedFor(c.intended, key).bytes))
            && (row.artifact.Filtered? ==> row.partPath !in d && row.finalPath !in d)
            && (row.artifact.Deleted? ==> row.finalPath !in d)
  {
    assert RowDurable(c.Row(key), IntendedFor(c.intended, key), c.disk.fs);
  }

  /**
    The promise cannot be widened: if some crash leaves an announced finalization, or a decision
    for the part or the final file, with other bytes to choose, that crash followed by recovery
    makes those bytes the recording.
   */
  method UnshelteredLoses(c: Committer, key: SegmentKey, bytes: Bytes, n: nat, now: Timestamp) returns (e: Ending)
    requires c.Valid() && c.disk.dependable && key in c.store.segments
    requires c.Row(key).artifact.Finalizing? || c.Row(key).artifact.ResolvingConflict?
    requires n <= |c.disk.fs.pending| && Intruded(c.Row(key), bytes, c.disk.fs.View(n))
    modifies c.store, c.disk
    ensures e.Done? && key in c.store.segments && c.Row(key).artifact.Ready?
    ensures !Holds(c.disk.fs.durable, c.Row(key).finalPath, bytes)
    ensures c.Row(key).finalPath == old(c.Row(key)).finalPath && c.Row(key).finalPath in c.disk.fs.durable
    ensures Some(c.disk.fs.durable[c.Row(key).finalPath]) == old(Chosen(c.Row(key), c.disk.fs.View(n)))
  {
    ghost var before := c.disk.fs;
    c.disk.CrashTo(n);
    CrashWitness(before, n);
    CrashKeepsRows(c.store.Snapshot(), before, c.intended, c.disk.fs);
    VisibleIsLastView(c.disk.fs);
    IntrudedMeansChosen(c.Row(key), bytes, before.View(n));
    if c.Row(key).artifact.Finalizing? {
      e := c.ReconcileFinalizing(key, now);
    } else {
      e := c.ReplayConflict(key, now);
    }
  }

  /**
    Such a state is easily reached. A segment is recorded beside a stray final file, finalization is
    announced, the machine stops before the part's name was ever synced, and startup recovery makes
    the stray file the recording.
   */
  method StrayFinalTakesOver(c: Committer, segment: Segment, bytes: Bytes, stray: Bytes, reason: SegmentCloseReason,
                             now: Timestamp)
    returns (e: Ending)
    requires c.Valid() && c.disk.dependable && NamesApart(c.store.Snapshot(), segment)
    requires CanOpenSegment(c.store.Snapshot(), segment)
    requires c.disk.fs.pending == [] && segment.partPath !in c.disk.fs.durable
    requires Holds(c.disk.fs.durable, segment.finalPath, stray) && stray != bytes
    modifies c`intended, c.store, c.disk
    ensures segment.Key() in c.store.segments && c.Row(segment.Key()).artifact.Ready?
    ensures c.Row(segment.Key()).finalPath == segment.finalPath && Holds(c.disk.fs.durable, segment.finalPath, stray)
  {
    hide c.Valid, CanOpenSegment, NamesApart, FinalsKept;
    var key := segment.Key();
    ghost var durable := c.disk.fs.durable;
    VisibleIsLastView(c.disk.fs);
    e := c.Record(segment, bytes, now);
    var begun := c.BeginFinalizing(key, reason, now);
    assert c.disk.fs.pending[..0] == [];
    assert c.disk.fs.View(0) == durable;
    e := UnshelteredLoses(c, key, bytes, 0, now);
  }
}
