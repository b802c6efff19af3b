/**
  Whole runs: recording, the commit protocol, stops, recovery and the other transitions, in any
  order; and what becomes of the files that a recorder finishes.
 */
module ArtifactRuns {
  import opened Wrappers
  import opened Model
  import opened Database
  import opened Transitions
  import opened ByteStrings
  import opened FileLayout
  import opened FileSystem
  import opened ArtifactCommit
  import R = Recorder
  import F = SegmentFile
  import StreamLedger
  import Epochs

  // ----- Runs of the protocol -----

  /** One thing that may happen between two others. */
  datatype Deed =
    | RecordSegment(segment: Segment, bytes: Bytes)
    | FinalizeSegment(key: SegmentKey, reason: SegmentCloseReason)
    | DiscardSegment(key: SegmentKey, reason: SegmentCloseReason)
    | DeleteSegment(key: SegmentKey)
    | ResolveSegment(key: SegmentKey, decision: ArtifactDecision, note: Option<string>)
    | Recover
    | Stop(kept: nat)
    | Transit(command: Command)

  datatype Act = Act(deed: Deed, now: Timestamp)

  ghost predicate AllLaidOut(db: Db) {
    forall k {:trigger db.segments[k]} | k in db.segments :: LaidOut(db.segments[k]) && db.segments[k].Key() == k
  }

  /** Segments are recorded under the names of their keys, and file work goes through the protocol. */
  ghost predicate InOrder(deed: Deed) {
    match deed
    case RecordSegment(segment, _) => LaidOut(segment)
    case Transit(command) => FileFree(command) && !command.OpenSegment?
    case _ => true
  }

  /** Whose final files a deed may take away: announced deletions, and decisions for the part. */
  function Dooms(deed: Deed): set<SegmentKey> {
    match deed
    case DeleteSegment(key) => {key}
    case ResolveSegment(key, KeepPart, _) => {key}
    case Transit(command) => Doomed(command)
    case _ => {}
  }

  function DoomedBy(acts: seq<Act>): set<SegmentKey> {
    if acts == [] then {} else DoomedBy(acts[..|acts| - 1]) + Dooms(acts[|acts| - 1].deed)
  }

  /** Which recordings a deed decides about anew. */
  predicate DecidesAbout(deed: Deed, key: SegmentKey) {
    deed.ResolveSegment? && deed.key == key
  }

  /** What is promised about a recording stays promised once its bytes are settled, until it is decided about anew. */
  ghost predicate PromiseStays(db: Db, intended: Intended, db': Db, intended': Intended, key: SegmentKey)
    requires key in db.segments
  {
    && key in db'.segments && Follows(db.segments[key], db'.segments[key])
    && (!db.segments[key].artifact.Writing? ==> IntendedFor(intended', key) == IntendedFor(intended, key))
  }

  ghost predicate PromisesStay(db: Db, intended: Intended, db': Db, intended': Intended, acts: seq<Act>) {
    forall k {:trigger PromiseStays(db, intended, db', intended', k)} |
      k in db.segments && forall i | 0 <= i < |acts| :: !DecidesAbout(acts[i].deed, k) ::
      PromiseStays(db, intended, db', intended', k)
  }

  lemma PromisesStayTransitive(a: Db, p: Intended, b: Db, q: Intended, c: Db, r: Intended, acts: seq<Act>, act: Act)
    requires PromisesStay(a, p, b, q, acts) && PromisesStay(b, q, c, r, [act])
    ensures PromisesStay(a, p, c, r, acts + [act])
  {
    forall k | k in a.segments && forall i | 0 <= i < |acts + [act]| :: !DecidesAbout((acts + [act])[i].deed, k)
      ensures PromiseStays(a, p, c, r, k)
    {
      assert (acts + [act])[|acts|] == act;
      assert forall i | 0 <= i < |acts| :: (acts + [act])[i] == acts[i];
      assert PromiseStays(a, p, b, q, k) && PromiseStays(b, q, c, r, k);
    }
  }

  lemma LayoutKeepsApart(db: Db, segment: Segment)
    requires AllLaidOut(db) && LaidOut(segment)
    ensures NamesApart(db, segment)
  {
    hide LaidOut;
    forall k | k in db.segments && k != segment.Key()
      ensures {db.segments[k].partPath, db.segments[k].finalPath} !! {segment.partPath, segment.finalPath}
    {
      NamesNeverMeet(db.segments[k], segment);
    }
  }

  lemma KeptNamesLaidOut(db: Db, db': Db)
    requires AllLaidOut(db) && NamesKept(db, db') && db'.Keyed()
    ensures AllLaidOut(db')
  {
    forall k | k in db'.segments ensures LaidOut(db'.segments[k]) && db'.segments[k].Key() == k {
      SameNamesLaidOut(db.segments[k], db'.segments[k]);
    }
  }

  lemma SameNamesLaidOut(row: Segment, row': Segment)
    requires LaidOut(row) && SamePaths(row, row') && row'.Key() == row.Key()
    ensures LaidOut(row')
  {
    var dir :| row.partPath == PartPath(dir, row.Key()) && row.finalPath == FinalPath(dir, row.Key());
    assert row'.partPath == PartPath(dir, row'.Key()) && row'.finalPath == FinalPath(dir, row'.Key());
  }

  /** Recording a segment leaves every row under the names of its key. */
  method RecordLaidOut(c: Committer, segment: Segment, bytes: Bytes, now: Timestamp) returns (e: Ending)
    requires c.Valid() && AllLaidOut(c.store.Snapshot()) && LaidOut(segment)
    modifies c`intended, c.store, c.disk
    ensures c.Valid() && AllLaidOut(c.store.Snapshot())
    ensures PromisesKept(old(c.intended), c.intended)
    ensures CanOpenSegment(old(c.store.Snapshot()), segment) ==>
              c.intended == PromiseToWrite(old(c.intended), segment, bytes, old(c.disk.fs))
    ensures FinalsKept(old(c.store.Snapshot()), old(c.disk.fs), c.store.Snapshot(), c.disk.fs, {})
    ensures forall k | k in old(c.store.segments) ::
              PromiseStays(old(c.store.Snapshot()), old(c.intended), c.store.Snapshot(), c.intended, k)
  {
    hide c.Valid, LaidOut, FinalsKept;
    ghost var db, promised := c.store.Snapshot(), c.intended;
    LayoutKeepsApart(db, segment);
    e := c.Record(segment, bytes, now);
    ghost var db' := c.store.Snapshot();
    ValidIsKeyed(c);
    forall k | k in db'.segments ensures LaidOut(db'.segments[k]) && db'.segments[k].Key() == k {
      SameNamesLaidOut(if k in db.segments then db.segments[k] else segment, c.Row(k));
    }
    forall k | k in db.segments ensures PromiseStays(db, promised, db', c.intended, k) {
      assert k in db'.segments;
      assert Follows(db.segments[k], c.Row(k));
    }
  }

  lemma ValidIsKeyed(c: Committer)
    requires c.Valid()
    ensures c.store.Snapshot().Keyed()
  {
  }

  method Perform(c: Committer, act: Act)
    requires c.Valid() && AllLaidOut(c.store.Snapshot()) && InOrder(act.deed)
    modifies c`intended, c.store, c.disk
    ensures c.Valid() && AllLaidOut(c.store.Snapshot())
    ensures PromisesKept(old(c.intended), c.intended)
    ensures FinalsKept(old(c.store.Snapshot()), old(c.disk.fs), c.store.Snapshot(), c.disk.fs, Dooms(act.deed))
    ensures PromisesStay(old(c.store.Snapshot()), old(c.intended), c.store.Snapshot(), c.intended, [act])
  {
    hide c.Valid, LaidOut, AllLaidOut, Effect, Enabled, FinalsKept, PromiseStays;
    ghost var db, promised := c.store.Snapshot(), c.intended;
    if act.deed.RecordSegment? {
      var e := RecordLaidOut(c, act.deed.segment, act.deed.bytes, act.now);
      return;
    }
    PerformOnRows(c, act);
    ValidIsKeyed(c);
    KeptNamesLaidOut(db, c.store.Snapshot());
    forall k | k in db.segments && !DecidesAbout([act][0].deed, k)
      ensures PromiseStays(db, promised, c.store.Snapshot(), c.intended, k)
    {
    }
  }

  method PerformOnRows(c: Committer, act: Act)
    requires c.Valid() && !act.deed.RecordSegment? && InOrder(act.deed)
    modifies c`intended, c.store, c.disk
    ensures c.Valid() && NamesKept(old(c.store.Snapshot()), c.store.Snapshot())
    ensures PromisesKept(old(c.intended), c.intended)
    ensures FinalsKept(old(c.store.Snapshot()), old(c.disk.fs), c.store.Snapshot(), c.disk.fs, Dooms(act.deed))
    ensures forall k | k in old(c.store.segments) && !DecidesAbout(act.deed, k) ::
              PromiseStays(old(c.store.Snapshot()), old(c.intended), c.store.Snapshot(), c.intended, k)
  {
    hide c.Valid, Effect, Enabled, FinalsKept, c.Decides, c.Decided;
    match act.deed
    case FinalizeSegment(key, reason) => var e := c.Finalize(key, reason, act.now);
    case DiscardSegment(key, reason) => var e := c.Discard(key, reason, act.now);
    case DeleteSegment(key) => var e := c.Delete(key, act.now);
    case ResolveSegment(key, decision, note) => var e := c.ResolveConflict(key, decision, note, act.now);
    case Recover => var e := c.Reconcile(act.now);
    case Stop(kept) => StopAt(c, kept);
    case Transit(command) => Transition(c, command, act.now);
  }

  /** The machine stops, and keeps some of the unsynced changes. */
  method StopAt(c: Committer, kept: nat)
    requires c.Valid()
    modifies c.disk
    ensures c.Valid()
    ensures FinalsKept(c.store.Snapshot(), old(c.disk.fs), c.store.Snapshot(), c.disk.fs, {})
  {
    var n := if kept <= |c.disk.fs.pending| then kept else |c.disk.fs.pending|;
    CrashWitness(c.disk.fs, n);
    ghost var before := c.disk.fs;
    c.disk.CrashTo(n);
    CrashKeepsRows(c.store.Snapshot(), before, c.intended, c.disk.fs);
    CrashSpares(before, c.disk.fs);
    SameRowsKeepFinals(c.store.Snapshot(), before, c.store.Snapshot(), c.disk.fs);
  }

  /**
    Every run keeps what is promised about written bytes, and what was decided until it is decided
    anew; and a final file that was there to stay stays there, unless the run announces its deletion
    or decides for the part in its place.
   */
  method PerformAll(c: Committer, acts: seq<Act>)
    requires c.Valid() && AllLaidOut(c.store.Snapshot())
    requires forall i | 0 <= i < |acts| :: InOrder(acts[i].deed)
    modifies c`intended, c.store, c.disk
    ensures c.Valid() && AllLaidOut(c.store.Snapshot())
    ensures PromisesKept(old(c.intended), c.intended)
    ensures FinalsKept(old(c.store.Snapshot()), old(c.disk.fs), c.store.Snapshot(), c.disk.fs, DoomedBy(acts))
    ensures PromisesStay(old(c.store.Snapshot()), old(c.intended), c.store.Snapshot(), c.intended, acts)
  {
    hide c.Valid, AllLaidOut, InOrder, FinalsKept, PromisesStay, Dooms;
    ghost var db, fs, promised := c.store.Snapshot(), c.disk.fs, c.intended;
    NothingHappened(db, fs, promised);
    for i := 0 to |acts|
      invariant c.Valid() && AllLaidOut(c.store.Snapshot())
      invariant PromisesKept(promised, c.intended)
      invariant FinalsKept(db, fs, c.store.Snapshot(), c.disk.fs, DoomedBy(acts[..i]))
      invariant PromisesStay(db, promised, c.store.Snapshot(), c.intended, acts[..i])
    {
      ghost var midDb, midFs, mid := c.store.Snapshot(), c.disk.fs, c.intended;
      Perform(c, acts[i]);
      assert acts[..i + 1] == acts[..i] + [acts[i]] && acts[..i + 1][..i] == acts[..i];
      FinalsKeptTransitive(db, fs, midDb, midFs, c.store.Snapshot(), c.disk.fs, DoomedBy(acts[..i]),
          Dooms(acts[i].deed));
      PromisesStayTransitive(db, promised, midDb, mid, c.store.Snapshot(), c.intended, acts[..i], acts[i]);
    }
    assert acts[..|acts|] == acts;
  }

  lemma NothingHappened(db: Db, fs: Fs, intended: Intended)
    ensures FinalsKept(db, fs, db, fs, {}) && PromisesStay(db, intended, db, intended, [])
  {
  }

  /** In every state a crash can leave, the row's final file has these bytes. */
  ghost predicate DurablyHolds(c: Committer, key: SegmentKey, bytes: Bytes)
    requires key in c.store.segments
    reads c, c.store, c.disk
  {
    forall n | 0 <= n <= |c.disk.fs.pending| :: Holds(c.disk.fs.View(n), c.Row(key).finalPath, bytes)
  }

  lemma PromisedIsDurable(c: Committer, key: SegmentKey, bytes: Bytes)
    requires c.Valid() && IntendedFor(c.intended, key) in {Wrote(bytes), Keeps(bytes)}
    ensures key in c.store.segments && (c.Row(key).artifact.Ready? ==> DurablyHolds(c, key, bytes))
  {
    assert RowDurable(c.store.Snapshot().segments[key], IntendedFor(c.intended, key), c.disk.fs);
  }

  /**
    A segment recorded where no crash state had its names: whatever happens afterwards, in whatever
    order, with whatever stops, if it is ever Ready its final file durably has the bytes written.
   */
  method RecordedBytesSurvive(c: Committer, segment: Segment, bytes: Bytes, now: Timestamp, acts: seq<Act>)
    requires c.Valid() && AllLaidOut(c.store.Snapshot()) && LaidOut(segment)
    requires CanOpenSegment(c.store.Snapshot(), segment) && NamesFree(segment, c.disk.fs)
    requires forall i | 0 <= i < |acts| :: InOrder(acts[i].deed)
    modifies c`intended, c.store, c.disk
    ensures c.Valid() && segment.Key() in c.store.segments
    ensures c.Row(segment.Key()).artifact.Ready? ==> DurablyHolds(c, segment.Key(), bytes)
  {
    hide c.Valid, AllLaidOut, InOrder, LaidOut, CanOpenSegment;
    var e := RecordLaidOut(c, segment, bytes, now);
    PerformAll(c, acts);
    PromisedIsDurable(c, segment.Key(), bytes);
  }

  /** The bytes a decision is about. */
  ghost function BytesDecided(c: Committer, key: SegmentKey, decision: ArtifactDecision): Bytes
    requires key in c.store.segments
    reads c, c.store, c.disk
  {
    BytesAt(c.disk.fs.Visible(), if decision.KeepFinal? then c.Row(key).finalPath else c.Row(key).partPath)
  }

  /** No crash leaves files that offer recovery other bytes than these. */
  ghost predicate NeverIntruded(row: Segment, bytes: Bytes, fs: Fs) {
    forall n | 0 <= n <= |fs.pending| :: !Intruded(row, bytes, fs.View(n))
  }

  /**
    A decision for the part or for the final file, with no crash leaving files that offer others:
    wherever the machine stops while it is carried out, and whatever happens afterwards until the
    segment is decided about anew, if its row is ever Ready its final file durably has the bytes
    that were decided for.
   */
  method DecidedBytesSurvive(c: Committer, key: SegmentKey, decision: ArtifactDecision, note: Option<string>,
                             now: Timestamp, acts: seq<Act>)
    requires c.Valid() && AllLaidOut(c.store.Snapshot()) && !decision.Exclude? && c.Decides(key, decision)
    requires NeverIntruded(c.DecidedRow(key, decision), BytesDecided(c, key, decision), c.disk.fs)
    requires forall i | 0 <= i < |acts| :: InOrder(acts[i].deed) && !DecidesAbout(acts[i].deed, key)
    modifies c`intended, c.store, c.disk
    ensures c.Valid() && key in c.store.segments
    ensures c.Row(key).artifact.Ready? ==> DurablyHolds(c, key, old(BytesDecided(c, key, decision)))
  {
    hide c.Valid, AllLaidOut, InOrder, FinalsKept;
    ghost var bytes, db := BytesDecided(c, key, decision), c.store.Snapshot();
    ShelteredIff(c.DecidedRow(key, decision), bytes, c.disk.fs);
    DecidedIsPromised(c, key, decision);
    var e := c.ResolveConflict(key, decision, note, now);
    ValidIsKeyed(c);
    KeptNamesLaidOut(db, c.store.Snapshot());
    ghost var decided, promised := c.store.Snapshot(), c.intended;
    PerformAll(c, acts);
    assert PromiseStays(decided, promised, c.store.Snapshot(), c.intended, key);
    PromisedIsDurable(c, key, bytes);
  }

  lemma DecidedIsPromised(c: Committer, key: SegmentKey, decision: ArtifactDecision)
    requires c.Valid() && !decision.Exclude? && c.Decides(key, decision)
    requires Sheltered(c.DecidedRow(key, decision), BytesDecided(c, key, decision), c.disk.fs)
    ensures IntendedFor(c.Decided(key, decision), key) == Keeps(BytesDecided(c, key, decision))
    ensures !c.Row(key).artifact.Writing?
  {
    KeyOfRow(c, key);
  }

  lemma KeyOfRow(c: Committer, key: SegmentKey)
    requires c.Valid() && key in c.store.segments
    ensures c.Row(key).Key() == key
  {
    ValidIsKeyed(c);
  }

  /**
    A finalization, whatever else has its names, with no crash leaving files that offer recovery
    other bytes than the part's: whatever happens afterwards until the segment is decided about,
    if its row is ever Ready its final file durably has the part's bytes.
   */
  method FinalizedBytesSurvive(c: Committer, key: SegmentKey, reason: SegmentCloseReason, now: Timestamp,
                               acts: seq<Act>)
    requires c.Valid() && AllLaidOut(c.store.Snapshot())
    requires CanMoveArtifact(c.store.Snapshot(), key, BeginFinalization(reason))
    requires KindIn(c.disk.fs.Visible(), c.Row(key).partPath).RegularFile?
    requires NeverIntruded(c.Row(key).(artifact := Finalizing(reason)), BytesDecided(c, key, KeepPart), c.disk.fs)
    requires forall i | 0 <= i < |acts| :: InOrder(acts[i].deed) && !DecidesAbout(acts[i].deed, key)
    modifies c`intended, c.store, c.disk
    ensures c.Valid() && key in c.store.segments
    ensures c.Row(key).artifact.Ready? ==> DurablyHolds(c, key, old(BytesDecided(c, key, KeepPart)))
  {
    hide c.Valid, AllLaidOut, InOrder, FinalsKept;
    ghost var bytes, db := BytesDecided(c, key, KeepPart), c.store.Snapshot();
    ShelteredIff(c.Row(key).(artifact := Finalizing(reason)), bytes, c.disk.fs);
    AnnouncedIsPromised(c, key, reason);
    var e := c.Finalize(key, reason, now);
    ValidIsKeyed(c);
    KeptNamesLaidOut(db, c.store.Snapshot());
    ghost var announced, promised := c.store.Snapshot(), c.intended;
    PerformAll(c, acts);
    assert PromiseStays(announced, promised, c.store.Snapshot(), c.intended, key);
    PromisedIsDurable(c, key, bytes);
  }

  lemma AnnouncedIsPromised(c: Committer, key: SegmentKey, reason: SegmentCloseReason)
    requires c.Valid() && CanMoveArtifact(c.store.Snapshot(), key, BeginFinalization(reason))
    requires KindIn(c.disk.fs.Visible(), c.Row(key).partPath).RegularFile?
    requires Sheltered(c.Row(key).(artifact := Finalizing(reason)), BytesDecided(c, key, KeepPart), c.disk.fs)
    ensures var bytes := BytesDecided(c, key, KeepPart);
            IntendedFor(Intend(c.intended, c.Row(key).(artifact := Finalizing(reason)), c.disk.fs), key)
              in {Wrote(bytes), Keeps(bytes)}
  {
    KeyOfRow(c, key);
    c.RowSafeNow(key);
  }

  // ----- The recorder's files -----

  /** What is in the part of a file that is no longer written to. */
  function PartBytes(f: R.Finished): Bytes {
    if f.Finalized? then f.file else F.FileOf(f.segment)
  }

  /** A file that a recorder finished after some stream. */
  ghost predicate FileOfRun(cfg: R.Config, startIndex: nat, chunks: seq<Bytes>, f: R.Finished) {
    f in R.End(cfg, StreamLedger.Pushed(cfg, startIndex, chunks)).finished
  }

  lemma FileOfRunIsSound(cfg: R.Config, startIndex: nat, chunks: seq<Bytes>, f: R.Finished)
    requires FileOfRun(cfg, startIndex, chunks, f)
    ensures f.Finalized? ==> Epochs.Sound(cfg, f.segment, f.file)
  {
    hide R.End, R.PushAll, Epochs.Sound;
    var finished := R.End(cfg, StreamLedger.Pushed(cfg, startIndex, chunks)).finished;
    var i :| 0 <= i < |finished| && finished[i] == f;
    Epochs.EveryFileIsSound(cfg, startIndex, chunks, finished, i);
  }

  /** What is done with a finished file's part: dropped, committed or given up. */
  method SettlePart(c: Committer, f: R.Finished, key: SegmentKey, reason: SegmentCloseReason, now: Timestamp)
    requires c.Valid() && key in c.store.segments && !Settling(c.Row(key).artifact)
    modifies c`intended, c.store, c.disk
    ensures c.Valid() && PromisesKept(old(c.intended), c.intended)
    ensures key in c.store.segments && (Settling(c.Row(key).artifact) ==> f.Finalized?)
    ensures c.disk.dependable && f.Finalized? && old(c.Committable(key, reason)) ==> c.Row(key).artifact.Ready?
  {
    hide c.Valid, c.Committable;
    match f
    case Filtered(_) => var e := c.Discard(key, reason, now);
    case Finalized(_, _) => var e := c.Finalize(key, reason, now);
    case Failed(_) => var failed := c.Fail(key, ArtifactStopped(key.sid, key.index, OPERATION_FAILED), None, now);
  }

  /** A finished file is recorded under its row, and then settled. */
  method CommitFile(c: Committer, f: R.Finished, segment: Segment, reason: SegmentCloseReason, now: Timestamp)
    requires c.Valid() && NamesApart(c.store.Snapshot(), segment)
    requires CanOpenSegment(c.store.Snapshot(), segment) && NamesFree(segment, c.disk.fs)
    modifies c`intended, c.store, c.disk
    ensures c.Valid() && IntendedFor(c.intended, segment.Key()) == Wrote(PartBytes(f))
    ensures segment.Key() in c.store.segments && (Settling(c.Row(segment.Key()).artifact) ==> f.Finalized?)
    ensures c.disk.dependable && f.Finalized? ==> c.Row(segment.Key()).artifact.Ready?
  {
    hide c.Valid, PartBytes, CanOpenSegment, NamesApart;
    NamesAreFree(segment, c.disk.fs);
    var e := c.Record(segment, PartBytes(f), now);
    if e.Done? {
      SettlePart(c, f, segment.Key(), reason, now);
    }
  }

  lemma NamesAreFree(segment: Segment, fs: Fs)
    requires NamesFree(segment, fs)
    ensures segment.partPath !in fs.Visible() && segment.finalPath !in fs.Visible()
  {
    VisibleIsLastView(fs);
  }

  /**
    From the stream to the disk: a file of any run, committed under names no crash state has, and
    then any number of stops and recoveries. Its row is Ready only if the recorder completed the
    file, and then every state a crash can leave has that file, which parses back in full with a
    correct index.
   */
  method CommittedFileIsSound(c: Committer, cfg: R.Config, startIndex: nat, chunks: seq<Bytes>, f: R.Finished,
                              segment: Segment, reason: SegmentCloseReason, now: Timestamp, stops: seq<nat>)
    requires FileOfRun(cfg, startIndex, chunks, f)
    requires c.Valid() && NamesApart(c.store.Snapshot(), segment)
    requires CanOpenSegment(c.store.Snapshot(), segment) && NamesFree(segment, c.disk.fs)
    modifies c`intended, c.store, c.disk
    ensures c.Valid() && segment.Key() in c.store.segments
    ensures c.Row(segment.Key()).artifact.Ready? ==>
              f.Finalized? && Epochs.Sound(cfg, f.segment, f.file) && DurablyHolds(c, segment.Key(), f.file)
    ensures c.disk.dependable && f.Finalized? && stops == [] ==> c.Row(segment.Key()).artifact.Ready?
  {
    hide c.Valid, CanOpenSegment, Epochs.Sound, FileOfRun, F.FileOf;
    var key := segment.Key();
    CommitFile(c, f, segment, reason, now);
    for i := 0 to |stops|
      invariant c.Valid() && IntendedFor(c.intended, key) == Wrote(PartBytes(f))
      invariant key in c.store.segments && (Settling(c.Row(key).artifact) ==> f.Finalized?)
      invariant i == 0 && c.disk.dependable && f.Finalized? ==> c.Row(key).artifact.Ready?
    {
      StopAt(c, stops[i]);
      var e := c.Reconcile(now);
    }
    PromisedIsDurable(c, key, PartBytes(f));
    FileOfRunIsSound(cfg, startIndex, chunks, f);
  }
}
