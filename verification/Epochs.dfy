/**
  What every run of the recorder keeps: the media of a file belongs with the headers at its
  front, and everything that is written fits its container.
 */
module Epochs {
  import opened Wrappers
  import opened ByteStrings
  import opened Amf
  import opened FlvFormat
  import opened AvcPayload
  import opened FlvPipeline
  import opened Metadata
  import opened SegmentFile
  import opened Recorder

  /**
    Tags observed under headers `h` can be decoded with the headers of a file: the same audio
    configuration, the same NAL length size, and the same AVC header unless in-band parameter
    sets had been confirmed.
   */
  ghost predicate Decodes(seg: Segment, h: Headers) {
    && h.aac.Some? && h.aac.value.data == seg.aac.data
    && h.avc.Some? && h.lengthSize.Some? && NaluLengthSize(seg.avc.data) == Good(h.lengthSize.value)
    && (h.avc.value.data == seg.avc.data || h.inBand)
  }

  /** And nothing but a keyframe was observed while a new file was due. */
  ghost predicate Belongs(seg: Segment, q: Queued) {
    Decodes(seg, q.seen) && (q.isKeyframe || !q.seen.pendingChange)
  }

  ghost predicate AllBelong(seg: Segment, queue: seq<Queued>) {
    forall i {:trigger queue[i]} | 0 <= i < |queue| :: Belongs(seg, queue[i])
  }

  ghost predicate SegmentOk(fl: Floats, seg: Segment) {
    SegmentFits(fl, seg) && AllBelong(seg, seg.log)
  }

  /** What is queued was observed under the headers cached now. */
  ghost predicate Current(h: Headers, q: Queued) {
    && q.seen.aac == h.aac && q.seen.avc == h.avc && q.seen.lengthSize == h.lengthSize
    && (q.isKeyframe || !q.seen.pendingChange)
  }

  ghost predicate AllCurrent(h: Headers, queue: seq<Queued>) {
    forall i {:trigger queue[i]} | 0 <= i < |queue| :: Current(h, queue[i])
  }

  ghost predicate RecordingOk(fl: Floats, r: Recorder, seg: Segment) {
    && r.header.Some? && r.headers.Synced()
    && SegmentOk(fl, seg)
    && AllBelong(seg, r.queue)
    && (if r.headers.pendingChange then r.queue == [] else Decodes(seg, r.headers))
  }

  ghost predicate FinishedOk(cfg: Config, finished: seq<Finished>) {
    forall i {:trigger finished[i]} | 0 <= i < |finished| ::
      SegmentOk(cfg.floats, finished[i].segment) && finished[i] == Finish(cfg, finished[i].segment)
  }

  ghost predicate RecOk(cfg: Config, r: Recorder) {
    && HeadersOk(r.headers)
    && LogFits(r.queue)
    && AllCurrent(r.headers, r.queue)
    && (r.phase.Recording? ==> RecordingOk(cfg.floats, r, r.phase.segment))
    && FinishedOk(cfg, r.finished)
  }

  lemma NewIsOk(cfg: Config, startIndex: nat)
    ensures RecOk(cfg, New(startIndex))
  {
  }

  // ----- Each step keeps it -----

  lemma FlushKeeps(cfg: Config, r: Recorder, duringStream: bool)
    requires RecOk(cfg, r)
    ensures var s := FlushPending(cfg, r, duringStream);
            && RecOk(cfg, s.rec) && s.rec.queue == []
            && s.rec.headers == r.headers && s.rec.header == r.header && s.rec.phase.Recording? == r.phase.Recording?
            && (s.error.Some? ==> s.error.value.StreamRepeatedData?)
  {
    if r.phase.Recording? {
      LogGrows(cfg.floats, r.phase.segment, r.queue);
    }
  }

  lemma LogGrows(fl: Floats, seg: Segment, queue: seq<Queued>)
    requires SegmentOk(fl, seg) && LogFits(queue) && AllBelong(seg, queue)
    ensures SegmentOk(fl, seg.(log := seg.log + queue))
  {
  }

  lemma FirstSegmentIsOk(cfg: Config, r: Recorder)
    requires HeadersOk(r.headers) && r.header.Some? && r.headers.Synced()
    ensures SegmentOk(cfg.floats, FirstSegment(cfg.floats, r))
    ensures Decodes(FirstSegment(cfg.floats, r), r.headers)
  {
    BodyFitsTag(cfg.floats, r.headers.metadata.value.data, 0, []);
  }

  /** A new file's headers are those cached, so whatever is pending belongs to it. */
  lemma OpenKeeps(cfg: Config, r: Recorder)
    requires RecOk(cfg, r) && r.header.Some? && r.headers.Synced()
    ensures var s := OpenNext(cfg, r);
            && s.error.None? && RecOk(cfg, s.rec) && s.rec.phase.Recording? && s.rec.queue == r.queue
            && s.rec.header == r.header && s.rec.headers == r.headers.(pendingChange := false)
            && Decodes(s.rec.phase.segment, r.headers)
  {
    FirstSegmentIsOk(cfg, r);
    PendingBelongs(FirstSegment(cfg.floats, r), r.headers, r.queue);
  }

  lemma PendingBelongs(seg: Segment, h: Headers, queue: seq<Queued>)
    requires HeadersOk(h) && h.Synced() && AllCurrent(h, queue)
    requires seg.aac.data == h.aac.value.data && seg.avc.data == h.avc.value.data
    ensures AllBelong(seg, queue)
  {
  }

  lemma FinalizeKeeps(cfg: Config, r: Recorder)
    requires RecOk(cfg, r)
    ensures var s := FinalizeCurrent(cfg, r);
            && RecOk(cfg, s.rec) && s.rec.phase.WaitSync? && s.rec.queue == r.queue
            && s.rec.headers == r.headers && s.rec.header == r.header
            && (s.error.Some? ==> s.error.value.StreamProtocol?)
  {
  }

  lemma RotateKeeps(cfg: Config, r: Recorder)
    requires RecOk(cfg, r) && r.phase.Recording?
    ensures var s := Rotate(cfg, r);
            && RecOk(cfg, s.rec) && s.rec.header == r.header && s.rec.queue == r.queue
            && s.rec.headers in {r.headers, r.headers.(pendingChange := false)}
            && (s.error.Some? ==> s.error.value.StreamProtocol?)
            && (s.error.None? ==>
                  && s.rec.phase.Recording? && !s.rec.headers.pendingChange
                  && (s.rec == r || HeadsWith(s.rec.phase.segment, r.headers)))
  {
    if RotationDue(cfg, r) {
      FinalizeKeeps(cfg, r);
      var closed := FinalizeCurrent(cfg, r);
      if closed.error.None? {
        OpenKeeps(cfg, if r.headers.pendingChange then closed.rec.(history := [], duplicateRun := 0) else closed.rec);
      }
    }
  }

  /** A file that starts with these headers. */
  ghost predicate HeadsWith(seg: Segment, h: Headers) {
    && h.aac.Some? && seg.aac.data == h.aac.value.data
    && h.avc.Some? && seg.avc.data == h.avc.value.data
  }

  lemma EnqueueKeeps(cfg: Config, r: Recorder, q: Queued)
    requires RecOk(cfg, r) && r.phase.Recording? && !r.headers.pendingChange
    requires q.tag.Fits() && Current(r.headers, q) && Belongs(r.phase.segment, q)
    ensures RecOk(cfg, r.(queue := r.queue + [q], taken := r.taken + [q]))
  {
  }

  lemma NewHeadsDecode(seg: Segment, h: Headers, q: Queued)
    requires HeadersOk(h) && HeadsWith(seg, h) && Current(h, q)
    ensures Belongs(seg, q)
  {
  }

  /** Errors that no bug of the recorder's own causes. */
  predicate StreamFault(e: StreamError) {
    !e.State?
  }

  /** A tag that arrives while a change is pending is a keyframe, and brings the new file with it. */
  ghost predicate MayQueue(r: Recorder, q: Queued, mayRotate: bool) {
    && r.phase.Recording? && q.tag.Fits() && Current(r.headers, q)
    && (if r.headers.pendingChange then mayRotate && q.isKeyframe else Belongs(r.phase.segment, q))
  }

  lemma QueueKeeps(cfg: Config, r: Recorder, q: Queued, mayRotate: bool)
    requires RecOk(cfg, r) && MayQueue(r, q, mayRotate)
    ensures var s := QueueMedia(cfg, r, q, mayRotate);
            RecOk(cfg, s.rec) && (s.error.Some? ==> StreamFault(s.error.value))
  {
    FlushKeeps(cfg, r, true);
    var flushed := if StartsNewGroup(Tags(r.queue), q.tag, q.isKeyframe) then FlushPending(cfg, r, true)
        else Step(r, None);
    if flushed.error.None? {
      if q.isKeyframe && mayRotate {
        RotateKeeps(cfg, flushed.rec);
        var rotated := Rotate(cfg, flushed.rec);
        if rotated.error.None? {
          if rotated.rec != flushed.rec {
            NewHeadsDecode(rotated.rec.phase.segment, flushed.rec.headers, q);
          }
          EnqueueKeeps(cfg, rotated.rec, q);
        }
      } else {
        EnqueueKeeps(cfg, flushed.rec, q);
      }
    }
  }

  lemma MediaKeeps(cfg: Config, r: Recorder, q: Queued)
    requires RecOk(cfg, r) && r.header.Some? && q.tag.Fits()
    requires q.seen.aac == r.headers.aac && q.seen.avc == r.headers.avc && q.seen.lengthSize == r.headers.lengthSize
    requires q.seen.pendingChange == r.headers.pendingChange
    requires r.phase.Recording? && !r.headers.pendingChange ==> Decodes(r.phase.segment, q.seen)
    ensures var s := HandleMedia(cfg, r, q);
            RecOk(cfg, s.rec) && (s.error.Some? ==> StreamFault(s.error.value))
  {
    if r.phase.WaitSync? {
      if r.headers.Synced() && q.isKeyframe {
        OpenKeeps(cfg, r);
        var started := OpenNext(cfg, r).rec;
        NewHeadsDecode(started.phase.segment, r.headers, q);
        QueueKeeps(cfg, started, q, false);
      }
    } else if !r.headers.pendingChange || q.isKeyframe {
      QueueKeeps(cfg, r, q, true);
    }
  }

  /** A header tag meets an empty queue, so nothing queued outlives the headers it was observed under. */
  lemma CacheKeeps(cfg: Config, r: Recorder, tag: Tag)
    requires RecOk(cfg, r) && r.queue == [] && tag.Fits() && IsCacheTag(tag)
    requires Observe(r.headers, tag, r.phase.Recording?).Seen?
    ensures var o := Observe(r.headers, tag, r.phase.Recording?);
            o.action == Drop && RecOk(cfg, r.(headers := o.headers))
  {
    CacheTagIsKept(r.headers, tag, r.phase.Recording?);
  }

  lemma ObserveFaults(h: Headers, tag: Tag, recording: bool)
    ensures Observe(h, tag, recording).Refused? ==> StreamFault(Observe(h, tag, recording).error)
  {
  }

  lemma MediaHeadersKeep(cfg: Config, r: Recorder, h: Headers)
    requires RecOk(cfg, r) && HeadersOk(h) && SameDecoding(r.headers, h) && (r.headers.inBand ==> h.inBand)
    ensures RecOk(cfg, r.(headers := h))
  {
  }

  lemma ObservedMediaKeeps(cfg: Config, r: Recorder, tag: Tag, o: Observed)
    requires RecOk(cfg, r) && r.header.Some? && KeepsHeaders(r.headers, tag, o)
    requires o.Refused? ==> StreamFault(o.error)
    ensures var s := HandleObserved(cfg, r, o);
            RecOk(cfg, s.rec) && (s.error.Some? ==> StreamFault(s.error.value))
  {
    if o.Seen? {
      MediaHeadersKeep(cfg, r, o.headers);
      if o.action.Write? {
        MediaKeeps(cfg, r.(headers := o.headers), Queued(o.action.tag, r.headers, o.action.isKeyframe, r.handled));
      }
    }
  }

  lemma ObservedCacheKeeps(cfg: Config, r: Recorder, tag: Tag, o: Observed)
    requires RecOk(cfg, r) && r.queue == [] && tag.Fits() && IsCacheTag(tag)
    requires o == Observe(r.headers, tag, r.phase.Recording?)
    ensures var s := HandleObserved(cfg, r, o);
            RecOk(cfg, s.rec) && (s.error.Some? ==> StreamFault(s.error.value))
  {
    ObserveFaults(r.headers, tag, r.phase.Recording?);
    if o.Seen? {
      CacheKeeps(cfg, r, tag);
    }
  }

  /** Handling a tag keeps every promise, and never finds a header missing. */
  lemma HandleKeeps(cfg: Config, r0: Recorder, tag: Tag)
    requires RecOk(cfg, r0) && r0.header.Some? && tag.Fits()
    ensures var s := HandleTag(cfg, r0, tag);
            RecOk(cfg, s.rec) && (s.error.Some? ==> StreamFault(s.error.value))
  {
    hide FlushPending, HandleFlushed;
    var r := r0.(handled := r0.handled + 1);
    if IsCacheTag(tag) {
      FlushKeeps(cfg, r, true);
      FlushedKeeps(cfg, FlushPending(cfg, r, true).rec, tag);
    } else {
      FlushedKeeps(cfg, r, tag);
    }
  }

  lemma FlushedKeeps(cfg: Config, r: Recorder, tag: Tag)
    requires RecOk(cfg, r) && r.header.Some? && tag.Fits() && (IsCacheTag(tag) ==> r.queue == [])
    ensures var s := HandleFlushed(cfg, r, tag);
            RecOk(cfg, s.rec) && (s.error.Some? ==> StreamFault(s.error.value))
  {
    var o := Observe(r.headers, tag, r.phase.Recording?);
    if IsCacheTag(tag) {
      ObservedCacheKeeps(cfg, r, tag, o);
    } else {
      ObserveFaults(r.headers, tag, r.phase.Recording?);
      MediaKeepsHeaders(r.headers, tag, r.phase.Recording?);
      ObservedMediaKeeps(cfg, r, tag, o);
    }
  }

  // ----- Whole runs -----

  lemma {:induction false} DrainTagsKeeps(cfg: Config, r: Recorder, buffer: Bytes)
    requires RecOk(cfg, r) && r.header.Some?
    ensures var p := DrainTags(cfg, r, buffer);
            RecOk(cfg, p.rec) && (p.error.Some? ==> StreamFault(p.error.value))
    decreases |buffer|
  {
    if ReadTagHeader(buffer).Success? && |buffer| >= TagSpan(ReadTagHeader(buffer).value) && ReadTag(buffer).Success? {
      TagRewrites(buffer);
      var tag := ReadTag(buffer).value;
      HandleKeeps(cfg, r, tag);
      HandleKeepsHeader(cfg, r, tag);
      var step := HandleTag(cfg, r, tag);
      if step.error.None? {
        DrainTagsKeeps(cfg, step.rec, buffer[TagSpan(tag.header)..]);
      }
    }
  }

  lemma DrainKeeps(cfg: Config, r: Recorder, buffer: Bytes)
    requires RecOk(cfg, r)
    ensures var p := Drain(cfg, r, buffer);
            RecOk(cfg, p.rec) && (p.error.Some? ==> StreamFault(p.error.value))
  {
    if r.header.Some? {
      DrainTagsKeeps(cfg, r, buffer);
    } else if |buffer| >= FILE_HEADER_SIZE && ReadHeader(buffer).Success? {
      DrainTagsKeeps(cfg, r.(header := Some(ReadHeader(buffer).value)), buffer[FILE_HEADER_SIZE..]);
    }
  }

  /** The state after any stream, in whatever chunks it came. */
  ghost predicate Reached(cfg: Config, startIndex: nat, chunks: seq<Bytes>, r: Recorder) {
    r == PushAll(cfg, Progress(New(startIndex), [], None), chunks).rec
  }

  /** The files of a recorder: those finished and the one being written. */
  ghost predicate IsFile(r: Recorder, seg: Segment) {
    || (r.phase.Recording? && r.phase.segment == seg)
    || exists i :: 0 <= i < |r.finished| && r.finished[i].segment == seg
  }

  /**
    In every file of every run, each media tag was observed under headers it can be decoded with
    from the headers at the front of the file, and while a new file was due only if it was a
    keyframe; no stream makes the recorder miss a header of its own.
   */
  lemma EveryFileIsOneEpoch(cfg: Config, startIndex: nat, chunks: seq<Bytes>, r: Recorder, seg: Segment)
    requires Reached(cfg, startIndex, chunks, r) && IsFile(r, seg)
    ensures AllBelong(seg, seg.log) && SegmentFits(cfg.floats, seg)
  {
    NewIsOk(cfg, startIndex);
    ChunkIndependence(cfg, New(startIndex), chunks);
    DrainKeeps(cfg, New(startIndex), Flat(chunks));
  }

  lemma EndKeeps(cfg: Config, r: Recorder)
    requires RecOk(cfg, r)
    ensures RecOk(cfg, FinalizeAll(cfg, r).rec) && FinalizeAll(cfg, r).rec.phase.WaitSync?
  {
    FlushKeeps(cfg, r, false);
    FinalizeKeeps(cfg, FlushPending(cfg, r, false).rec);
  }

  /** The files after a stream has ended. */
  ghost predicate FilesOf(cfg: Config, startIndex: nat, chunks: seq<Bytes>, finished: seq<Finished>) {
    finished == End(cfg, PushAll(cfg, Progress(New(startIndex), [], None), chunks)).finished
  }

  /**
    What a completed file of a run holds: its headers and its media in order, behind metadata with
    what the stream sent, the longest time, and a table of times and positions to seek by.
   */
  ghost predicate Sound(cfg: Config, seg: Segment, file: Bytes) {
    var index, parsed := Index(seg), ParseFile(file);
    && parsed.Parsed? && parsed.header == seg.header && parsed.rest == []
    && |parsed.tags| >= 3 && parsed.tags[1..3] == [seg.avc, seg.aac] && parsed.tags[3..] == Media(seg.log)
    && ReadsAs(cfg.floats, seg.source, Duration(seg.log), index, parsed.tags[0].data)
    && Rising(index) && (forall k | 0 <= k < |index| :: PointsAtKeyframe(file, index[k]))
    && SeeksInto(cfg.floats, file, ParseProperties(parsed.tags[0].data).value)
  }

  /** An item of the two tables: the offset of a keyframe in the file, and its time. */
  ghost predicate Seeks(fl: Floats, file: Bytes, time: Value, position: Value) {
    exists at: nat, t: Tag ::
      && TagAt(file, at) == Some(t) && [0x17, 0x01] <= t.data
      && time == Number(fl.seconds(t.header.timestamp)) && position == Number(fl.offset(at))
  }

  ghost predicate AllSeek(fl: Floats, file: Bytes, times: seq<Value>, positions: seq<Value>) {
    |times| == |positions| && forall i | 0 <= i < |times| :: Seeks(fl, file, times[i], positions[i])
  }

  /** Item for item, `filepositions` has the offset of a keyframe whose time is in `times`. */
  ghost predicate SeeksInto(fl: Floats, file: Bytes, properties: seq<Entry>) {
    exists parts, times, positions ::
      && Under(properties, "keyframes", Object(parts))
      && Under(parts, "times", StrictArray(times)) && Under(parts, "filepositions", StrictArray(positions))
      && AllSeek(fl, file, times, positions)
  }

  lemma IndexSeeks(fl: Floats, file: Bytes, properties: seq<Entry>, durationMs: U32, index: seq<KeyframeIndex>)
    requires Describes(fl, properties, durationMs, index)
    requires forall k | 0 <= k < |index| :: PointsAtKeyframe(file, index[k])
    ensures SeeksInto(fl, file, properties)
  {
    hide Under, TagAt;
    var v :| Under(properties, "keyframes", v) && IsTables(fl, index, v);
    var parts := v.entries;
    var times, positions, spacer :| HoldsTables(fl, index, parts, times, positions, spacer);
    assert v == Object(parts);
    forall i | 0 <= i < |times| ensures Seeks(fl, file, times[i], positions[i]) {
      assert PointsAtKeyframe(file, index[i]);
      var t := TagAt(file, index[i].filePosition).value;
      assert TagAt(file, index[i].filePosition) == Some(t);
    }
    assert AllSeek(fl, file, times, positions);
  }

  ghost predicate PointsAtKeyframe(file: Bytes, e: KeyframeIndex) {
    && TagAt(file, e.filePosition).Some?
    && [0x17, 0x01] <= TagAt(file, e.filePosition).value.data
    && TagAt(file, e.filePosition).value.header.timestamp == e.timeMs
  }

  /** The finished file is the one the final metadata would have started. */
  lemma FinalFileIndex(fl: Floats, seg: Segment, body: Bytes, k: nat)
    requires SegmentFits(fl, seg) && |body| == |seg.meta.data| && k < |Index(seg)|
    ensures PointsAtKeyframe(FileOf(seg.(meta := seg.meta.(data := body))), Index(seg)[k])
  {
    var final := seg.(meta := seg.meta.(data := body));
    assert Index(final) == Index(seg);
    var t := IndexPointsIntoFile(final, k);
  }

  lemma TagsInOrder(a: Tag, b: Tag, c: Tag, media: seq<Tag>)
    ensures var tags := [a, b, c] + media; tags[0] == a && tags[1..3] == [b, c] && tags[3..] == media
  {
  }

  lemma FinalizedIsSound(cfg: Config, seg: Segment)
    requires SegmentFits(cfg.floats, seg) && Finish(cfg, seg).Finalized?
    ensures Sound(cfg, seg, Finish(cfg, seg).file)
  {
    var body := FinalBody(cfg.floats, seg);
    BodyStaysIff(cfg.floats, seg);
    FinishedFileParses(cfg.floats, seg);
    RewrittenFile(seg, body);
    MediaFits(seg.log);
    IndexRises(HeadSize(seg), Media(seg.log));
    forall k | 0 <= k < |Index(seg)| ensures PointsAtKeyframe(Finish(cfg, seg).file, Index(seg)[k]) {
      FinalFileIndex(cfg.floats, seg, body, k);
    }
    IndexSeeks(cfg.floats, Finish(cfg, seg).file, ParseProperties(body).value, Duration(seg.log), Index(seg));
    TagsInOrder(seg.meta.(data := body), seg.avc, seg.aac, Media(seg.log));
  }

  lemma FinishOutcome(cfg: Config, seg: Segment)
    requires SegmentFits(cfg.floats, seg)
    ensures var f := Finish(cfg, seg);
            && (f.Filtered? <==> |FileOf(seg)| < cfg.minSize)
            && (f.Failed? <==> |FileOf(seg)| >= cfg.minSize && !RewriteFits(cfg.floats, seg.source))
  {
    var body := FinalBody(cfg.floats, seg);
    BodyStaysIff(cfg.floats, seg);
    if |body| == |seg.meta.data| {
      RewrittenFile(seg, body);
    }
  }

  /**
    The files of every stream: each is dropped exactly when it is too small, given up exactly when
    the stream's metadata leaves no room to be rewritten, and otherwise parses back in full, with
    tables in which each position is the offset of a keyframe and has its time beside it.
   */
  lemma EveryFileIsSound(cfg: Config, startIndex: nat, chunks: seq<Bytes>, finished: seq<Finished>, i: nat)
    requires FilesOf(cfg, startIndex, chunks, finished) && i < |finished|
    ensures var seg := finished[i].segment;
            && AllBelong(seg, seg.log)
            && (finished[i].Filtered? <==> |FileOf(seg)| < cfg.minSize)
            && (finished[i].Failed? <==> |FileOf(seg)| >= cfg.minSize && !RewriteFits(cfg.floats, seg.source))
            && (finished[i].Finalized? ==> Sound(cfg, seg, finished[i].file))
  {
    NewIsOk(cfg, startIndex);
    ChunkIndependence(cfg, New(startIndex), chunks);
    DrainKeeps(cfg, New(startIndex), Flat(chunks));
    EndKeeps(cfg, Drain(cfg, New(startIndex), Flat(chunks)).rec);
    var seg := finished[i].segment;
    FinishOutcome(cfg, seg);
    if finished[i].Finalized? {
      FinalizedIsSound(cfg, seg);
    }
  }
}
