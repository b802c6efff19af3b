/** The recorder itself: its buffers and counters, kept in step with the state machine of `Recorder`. */
module FlvRecorder {
  import opened Wrappers
  import opened ByteStrings
  import opened Sequences
  import opened FlvFormat
  import opened AvcPayload
  import opened Timestamps
  import opened FlvPipeline
  import opened Metadata
  import opened SegmentFile
  import opened Recorder
  import opened Epochs

  /** The file being written. The counters are kept up tag by tag; `segment` is what they stand for. */
  class ActiveSegment {
    const index: nat
    const metadataSource: Bytes
    const metadataLen: nat
    var file: Bytes
    var size: nat
    var durationMs: U32
    var keyframes: seq<KeyframeIndex>
    ghost var segment: Segment

    ghost predicate Valid(fl: Floats)
      reads this
    {
      && SegmentFits(fl, segment)
      && index == segment.index
      && metadataSource == segment.meta.data && metadataLen == |metadataSource|
      && file == FileOf(segment) && size == |file|
      && durationMs == Duration(segment.log)
      && keyframes == Index(segment)
    }

    constructor (fl: Floats, file: Bytes, metadataSource: Bytes, index: nat, ghost segment: Segment)
      requires SegmentFits(fl, segment) && segment.log == [] && segment.index == index
      requires file == FileOf(segment) && metadataSource == segment.meta.data
      ensures Valid(fl) && this.segment == segment
    {
      this.index, this.metadataSource, this.metadataLen := index, metadataSource, |metadataSource|;
      this.file, this.size, this.durationMs, this.keyframes := file, |file|, 0, [];
      this.segment := segment;
    }

    /** Writes a retimed tag, which cannot fail; the size, the duration and the index follow. */
    method Append(fl: Floats, tag: Tag, ghost q: Queued)
      requires Valid(fl) && q.tag.Fits() && RetimedFor(segment, q, tag)
      modifies this
      ensures Valid(fl)
      ensures segment == old(segment).(log := old(segment).log + [q])
      ensures WriteTag(tag).Success? && file == old(file) + WriteTag(tag).value && size == |file|
      ensures durationMs == if tag.header.timestamp > old(durationMs) then tag.header.timestamp else old(durationMs)
      ensures keyframes ==
              if && [0x17, 0x01] <= tag.data
                 && (old(keyframes) == []
                     || tag.header.timestamp > old(keyframes)[|old(keyframes)| - 1].timeMs + 1900)
              then old(keyframes) + [KeyframeIndex(tag.header.timestamp, old(size))] else old(keyframes)
    {
      hide FileOf, Index, Duration, WriteTag;
      ghost var next := segment.(log := segment.log + [q]);
      AppendedSegment(segment, q, tag);
      TagWrites(tag);
      var bytes := WriteTag(tag).value;
      var filePosition, timestamp := size, tag.header.timestamp;
      file := file + bytes;
      size := size + |bytes|;
      if timestamp > durationMs {
        durationMs := timestamp;
      }
      if IsAvcKeyframe(tag.data)
         && (|keyframes| == 0
             || (if timestamp >= keyframes[|keyframes| - 1].timeMs then timestamp - keyframes[|keyframes| - 1].timeMs
                 else 0) > KEYFRAME_INDEX_MIN_INTERVAL_MS) {
        keyframes := keyframes + [KeyframeIndex(timestamp, filePosition)];
      }
      segment := next;
    }

    /** Puts the final metadata over the first, unless its size has changed. */
    method RewriteMetadata(fl: Floats) returns (r: Outcome)
      requires Valid(fl)
      modifies this`file
      ensures var body := FinalBody(fl, segment);
              if |body| == |segment.meta.data| then
                && r.Pass? && METADATA_BODY_OFFSET + |body| <= |old(file)|
                && file == Overwritten(old(file), METADATA_BODY_OFFSET, body)
              else r == Outcome.Fail("FLV metadata rewrite size changed") && file == old(file)
    {
      var body := BuildMetadataBody(fl, metadataSource, durationMs, keyframes);
      if |body| != metadataLen {
        return Outcome.Fail("FLV metadata rewrite size changed");
      }
      RewrittenFile(segment, body);
      file := file[..METADATA_BODY_OFFSET] + body + file[METADATA_BODY_OFFSET + |body|..];
      return Pass;
    }
  }

  lemma TagWrites(tag: Tag)
    requires tag.Fits()
    ensures WriteTag(tag) == Success(TagBytes(tag))
  {
  }

  /** The time a tag gets in this file. */
  ghost predicate RetimedFor(seg: Segment, q: Queued, tag: Tag) {
    tag == Retimed(q.tag, After(FRESH, Stamps(seg.log)).Output(q.tag.header.tagType, q.tag.header.timestamp))
  }

  /** What one more tag adds to the file, the duration and the index. */
  ghost predicate Appends(seg: Segment, next: Segment, tag: Tag) {
    && FileOf(next) == FileOf(seg) + TagBytes(tag)
    && Duration(next.log) ==
          (if tag.header.timestamp > Duration(seg.log) then tag.header.timestamp else Duration(seg.log))
    && Index(next) == if IsAvcKeyframe(tag.data) && ExtendsIndex(Index(seg), tag.header.timestamp)
                      then Index(seg) + [KeyframeIndex(tag.header.timestamp, |FileOf(seg)|)] else Index(seg)
  }

  lemma AppendedSegment(seg: Segment, q: Queued, tag: Tag)
    requires seg.meta.Fits() && seg.avc.Fits() && seg.aac.Fits() && RetimedFor(seg, q, tag)
    ensures Appends(seg, seg.(log := seg.log + [q]), tag)
  {
    hide FileOf, Index, Duration, Media;
    var next := seg.(log := seg.log + [q]);
    MediaGrows(seg.log, q);
    AppendedFile(seg, next, tag);
    AppendedDuration(seg, next, tag);
    AppendedIndex(seg, next, tag);
  }

  lemma AppendedFile(seg: Segment, next: Segment, tag: Tag)
    requires next == seg.(log := next.log) && Media(next.log) == Media(seg.log) + [tag]
    ensures FileOf(next) == FileOf(seg) + TagBytes(tag)
  {
    var head := [seg.meta, seg.avc, seg.aac];
    Assoc(head, Media(seg.log), [tag]);
    TagsBytesOfConcat(TagsOf(seg), [tag]);
    OneTagBytes(tag);
    Assoc(FrontBytes(seg.header), TagsBytes(TagsOf(seg)), TagBytes(tag));
  }

  lemma AppendedDuration(seg: Segment, next: Segment, tag: Tag)
    requires Outputs(FRESH, Stamps(next.log)) == Outputs(FRESH, Stamps(seg.log)) + [tag.header.timestamp]
    ensures Duration(next.log) == if tag.header.timestamp > Duration(seg.log) then tag.header.timestamp
            else Duration(seg.log)
  {
    MaxGrows(Outputs(FRESH, Stamps(seg.log)), tag.header.timestamp);
  }

  lemma MaxGrows(outputs: seq<U32>, output: U32)
    ensures Max(outputs + [output]) == if output > Max(outputs) then output else Max(outputs)
  {
    assert (outputs + [output])[..|outputs|] == outputs;
  }

  lemma AppendedIndex(seg: Segment, next: Segment, tag: Tag)
    requires seg.meta.Fits() && seg.avc.Fits() && seg.aac.Fits()
    requires next == seg.(log := next.log) && Media(next.log) == Media(seg.log) + [tag]
    ensures Index(next) == if IsAvcKeyframe(tag.data) && ExtendsIndex(Index(seg), tag.header.timestamp)
                           then Index(seg) + [KeyframeIndex(tag.header.timestamp, |FileOf(seg)|)] else Index(seg)
  {
    hide FileOf, HeadBytes, Media;
    HeadIsHead(seg);
    IndexOfMore(HeadSize(seg), Media(seg.log), tag);
  }

  lemma IndexOfMore(base: nat, tags: seq<Tag>, t: Tag)
    ensures IndexOf(base, tags + [t]) ==
            if IsAvcKeyframe(t.data) && ExtendsIndex(IndexOf(base, tags), t.header.timestamp)
            then IndexOf(base, tags) + [KeyframeIndex(t.header.timestamp, base + |TagsBytes(tags)|)]
                else IndexOf(base, tags)
  {
    Parts(tags, [t]);
    IndexStep(base, tags + [t]);
  }

  class FlvRecorder {
    const cfg: Config
    var buffer: Bytes
    /** How much of the buffer has been parsed; the rest is moved to the front once per chunk. */
    var readPos: nat
    var header: Option<FlvHeader>
    const normalizer: FlvNormalizer
    const mediaGroup: MediaGroupBuffer
    var nextIndex: nat
    /** The file being written; none while waiting for a keyframe with all headers at hand. */
    var active: ActiveSegment?
    var handled: nat
    ghost var queue: seq<Queued>
    ghost var finished: seq<Finished>
    ghost var taken: seq<Queued>
    ghost var groups: seq<PastGroup>

    ghost predicate Valid()
      reads this, normalizer, normalizer.timestamp, mediaGroup, active
    {
      && readPos <= |buffer|
      && Tags(queue) == mediaGroup.pending
      && |mediaGroup.history| <= DUPLICATE_HISTORY_LIMIT
      && mediaGroup.fingerprint == cfg.fingerprint
      && (active != null ==>
            && active.Valid(cfg.floats)
            && normalizer.timestamp.State() == After(FRESH, Stamps(active.segment.log)))
    }

    ghost function PhaseNow(): Phase
      reads this, active
    {
      if active == null then WaitSync else Recording(active.segment)
    }

    ghost function Rec(): Recorder
      reads this, normalizer, mediaGroup, active
    {
      Recorder(header, normalizer.State(), queue, mediaGroup.history, mediaGroup.duplicateRun, PhaseNow(), nextIndex,
               finished, handled, taken, groups)
    }

    ghost function Rest(): Bytes
      reads this
      requires readPos <= |buffer|
    {
      buffer[readPos..]
    }

    constructor (cfg: Config, startIndex: nat)
      ensures Valid() && Rec() == New(startIndex) && Rest() == []
      ensures fresh(normalizer) && fresh(normalizer.timestamp) && fresh(mediaGroup) && active == null
      ensures this.cfg == cfg
    {
      this.cfg := cfg;
      buffer, readPos, header, nextIndex, active, handled := [], 0, None, startIndex, null, 0;
      queue, finished, taken, groups := [], [], [], [];
      normalizer := new FlvNormalizer();
      mediaGroup := new MediaGroupBuffer(cfg.fingerprint);
    }

    // ----- Files -----

    method WriteInitialHeaders(source: Tag, avc: Tag, aac: Tag)
      returns (file: Bytes, metadataSource: Bytes, ghost seg: Segment)
      requires header.Some? && source.Fits() && avc.Fits() && aac.Fits()
      ensures seg == Segment(nextIndex, header.value, source.data,
              MetaTag(source, MetadataBody(cfg.floats, source.data, 0, [])), Retimed(avc, 0), Retimed(aac, 0), [])
      ensures SegmentFits(cfg.floats, seg)
      ensures file == FileOf(seg) && metadataSource == seg.meta.data
    {
      hide ReadsAs, MetadataBody;
      var body := BuildMetadataBody(cfg.floats, source.data, 0, []);
      BodyFitsTag(cfg.floats, source.data, 0, []);
      var meta := MetaTag(source, body);
      seg := Segment(nextIndex, header.value, source.data, meta, Retimed(avc, 0), Retimed(aac, 0), []);
      TagWrites(meta);
      TagWrites(Retimed(avc, 0));
      TagWrites(Retimed(aac, 0));
      file := WriteHeader(header.value) + BigEndian(0, 4);
      file := file + (WriteTag(meta).value + WriteTag(Retimed(avc, 0)).value + WriteTag(Retimed(aac, 0)).value);
      metadataSource := body;
      HeadTagsSize(meta, Retimed(avc, 0), Retimed(aac, 0));
      NoneAdded([meta, Retimed(avc, 0), Retimed(aac, 0)]);
      assert Media(seg.log) == [];
    }

    /** The buffers of incoming bytes are no concern of the steps on media. */
    twostate predicate SameInput()
      reads this
    {
      buffer == old(buffer) && readPos == old(readPos)
    }

    method OpenNewSegment() returns (error: Option<StreamError>)
      requires Valid() && HeadersOk(normalizer.State()) && active == null
      modifies this, normalizer, normalizer.timestamp
      ensures Valid() && SameInput() && (active == null || fresh(active))
      ensures var s := OpenNext(cfg, old(Rec()));
              Rec() == s.rec && error == s.error
    {
      hide FileOf, Media, Index, Duration, MetadataBody, MetaTag, Retimed;
      if header.None? {
        return Some(State("FLV header missing when opening segment"));
      }
      if normalizer.metadataTag.None? {
        return Some(State("Metadata missing when opening segment"));
      }
      if normalizer.avcSeqTag.None? {
        return Some(State("AVC sequence header missing when opening segment"));
      }
      if normalizer.aacSeqTag.None? {
        return Some(State("AAC sequence header missing when opening segment"));
      }
      var file, metadataSource,
          seg := WriteInitialHeaders(normalizer.metadataTag.value, normalizer.avcSeqTag.value,
          normalizer.aacSeqTag.value);
      active := new ActiveSegment(cfg.floats, file, metadataSource, nextIndex, seg);
      nextIndex := nextIndex + 1;
      normalizer.StartNewFile();
      return None;
    }

    method FinalizeCurrentSegment() returns (error: Option<StreamError>)
      requires Valid()
      modifies this, active
      ensures Valid() && SameInput() && active == null
      ensures var s := FinalizeCurrent(cfg, old(Rec()));
              Rec() == s.rec && error == s.error
    {
      hide FileOf, Index, Duration, FinalBody, Overwritten, SegmentFits;
      if active == null {
        return None;
      }
      var seg := active;
      active := null;
      if seg.size < cfg.minSize {
        finished := finished + [Filtered(seg.segment)];
        return None;
      }
      var rewritten := seg.RewriteMetadata(cfg.floats);
      if rewritten.Fail? {
        finished := finished + [Failed(seg.segment)];
        return Some(StreamProtocol(rewritten.error));
      }
      finished := finished + [Finalized(seg.segment, seg.file)];
      return None;
    }

    // ----- Media -----

    /** Outside a file there is nothing to write to. */
    method WriteMediaTag(tag: Tag, ghost q: Queued)
      requires Valid() && q.tag == tag && tag.Fits()
      modifies normalizer.timestamp, active
      ensures Valid()
      ensures active != null ==> active.segment == old(active.segment).(log := old(active.segment).log + [q])
    {
      if active == null {
        return;
      }
      var retimed := normalizer.timestamp.Normalize(tag);
      MediaGrows(active.segment.log, q);
      active.Append(cfg.floats, retimed, q);
    }

    method WriteGroup(group: seq<Tag>, ghost queued: seq<Queued>)
      requires Valid() && group == Tags(queued) && LogFits(queued)
      modifies normalizer.timestamp, active
      ensures Valid() && PhaseNow() == Logged(old(PhaseNow()), queued)
    {
      for i := 0 to |group|
        invariant Valid()
        invariant PhaseNow() == Logged(old(PhaseNow()), queued[..i])
      {
        WriteMediaTag(group[i], queued[i]);
        MoreLogged(old(PhaseNow()), queued, i);
      }
      assert queued[..|group|] == queued;
    }

    static lemma MoreLogged(phase: Phase, queued: seq<Queued>, i: nat)
      requires i < |queued|
      ensures phase.Recording? ==>
                Logged(phase, queued[..i + 1]).segment ==
                      Logged(phase, queued[..i]).segment.(log := Logged(phase, queued[..i]).segment.log + [queued[i]])
    {
      assert queued[..i + 1] == queued[..i] + [queued[i]];
    }

    method FlushPendingMediaGroup(duringStream: bool) returns (error: Option<StreamError>)
      requires Valid() && LogFits(queue)
      modifies this, normalizer.timestamp, mediaGroup, active
      ensures Valid() && SameInput() && active == old(active)
      ensures var s := FlushPending(cfg, old(Rec()), duringStream);
              Rec() == s.rec && error == s.error
    {
      hide FileOf, Index, Duration, SegmentFits;
      ghost var queued := queue;
      var outcome := mediaGroup.Flush();
      if outcome.Empty? {
        return None;
      }
      queue, groups := [], groups + [PastGroup(queued, outcome.Unique?)];
      match outcome
      case Empty =>
      case Unique(group) =>
        WriteGroup(group, queued);
        return None;
      case Duplicate(exceeded) =>
        if exceeded && duringStream {
          return Some(StreamRepeatedData);
        }
        return None;
    }

    // ----- Tags -----

    /** The recorder's footprint may take in a new file's segment, and nothing else that was there before. */
    twostate predicate OwnFootprint()
      reads this
    {
      active == old(active) || active == null || fresh(active)
    }

    method RotateBeforeKeyframeIfNeeded() returns (error: Option<StreamError>)
      requires Valid() && HeadersOk(normalizer.State())
      modifies this, normalizer, normalizer.timestamp, mediaGroup, active
      ensures Valid() && SameInput() && OwnFootprint()
      ensures var s := Rotate(cfg, old(Rec()));
              Rec() == s.rec && error == s.error
    {
      hide FileOf, Index, Duration, SegmentFits, FinalizeCurrent, OpenNext;
      if active == null {
        return None;
      }
      var headerChanged := normalizer.pendingHeaderChange;
      var tooLarge := cfg.sizeLimit.Some? && active.size >= cfg.sizeLimit.value;
      if !headerChanged && !tooLarge && !cfg.timeIsUp(handled) {
        return None;
      }
      error := FinalizeCurrentSegment();
      if error.Some? {
        return;
      }
      if headerChanged {
        mediaGroup.ResetDeduplicator();
      }
      error := OpenNewSegment();
    }

    method QueueMediaTag(tag: Tag, isKeyframe: bool, mayRotate: bool, ghost q: Queued)
      returns (error: Option<StreamError>)
      requires Valid() && LogFits(queue) && HeadersOk(normalizer.State())
      requires q.tag == tag && q.isKeyframe == isKeyframe
      modifies this, normalizer, normalizer.timestamp, mediaGroup, active
      ensures Valid() && SameInput() && OwnFootprint()
      ensures var s := QueueMedia(cfg, old(Rec()), q, mayRotate);
              Rec() == s.rec && error == s.error
    {
      hide FileOf, Index, Duration, SegmentFits, FlushPending, Rotate;
      var starts := mediaGroup.ShouldStartNewGroup(tag, isKeyframe);
      if starts {
        error := FlushPendingMediaGroup(true);
        if error.Some? {
          return;
        }
      }
      if isKeyframe && mayRotate {
        error := RotateBeforeKeyframeIfNeeded();
        if error.Some? {
          return;
        }
      }
      mediaGroup.Push(tag);
      queue, taken := queue + [q], taken + [q];
      return None;
    }

    /** What is done with a media tag once it has been observed. */
    method AcceptMediaTag(tag: Tag, isKeyframe: bool, ghost q: Queued) returns (error: Option<StreamError>)
      requires Valid() && LogFits(queue) && HeadersOk(normalizer.State())
      requires q.tag == tag && q.isKeyframe == isKeyframe
      modifies this, normalizer, normalizer.timestamp, mediaGroup, active
      ensures Valid() && SameInput() && OwnFootprint()
      ensures var s := HandleMedia(cfg, old(Rec()), q);
              Rec() == s.rec && error == s.error
    {
      hide FileOf, Index, Duration, SegmentFits, QueueMedia, OpenNext;
      var mayRotate := true;
      if active == null {
        if normalizer.metadataTag.None? || normalizer.avcSeqTag.None? || normalizer.aacSeqTag.None? || !isKeyframe {
          return None;
        }
        OpenKeepsQueue(cfg, Rec());
        error := OpenNewSegment();
        if error.Some? {
          return;
        }
        mayRotate := false;
      } else if normalizer.pendingHeaderChange && !isKeyframe {
        return None;
      }
      error := QueueMediaTag(tag, isKeyframe, mayRotate, q);
    }

    static lemma OpenKeepsQueue(cfg: Config, r: Recorder)
      requires HeadersOk(r.headers)
      ensures OpenNext(cfg, r).rec.queue == r.queue && HeadersOk(OpenNext(cfg, r).rec.headers)
    {
    }

    /** One tag off the stream. */
    method ProcessTag(tag: Tag) returns (error: Option<StreamError>)
      requires Valid() && RecOk(cfg, Rec()) && tag.Fits()
      modifies this, normalizer, normalizer.timestamp, mediaGroup, active
      ensures Valid() && SameInput() && OwnFootprint()
      ensures var s := HandleTag(cfg, old(Rec()), tag);
              Rec() == s.rec && error == s.error
    {
      hide FileOf, Index, Duration, SegmentFits, HandleFlushed, FlushPending;
      handled := handled + 1;
      if IsCacheTag(tag) {
        FlushKeeps(cfg, Rec(), true);
        error := FlushPendingMediaGroup(true);
        if error.Some? {
          return;
        }
      }
      error := ObserveAndAccept(tag);
    }

    method ObserveAndAccept(tag: Tag) returns (error: Option<StreamError>)
      requires Valid() && LogFits(queue) && HeadersOk(normalizer.State()) && tag.Fits()
      modifies this, normalizer, normalizer.timestamp, mediaGroup, active
      ensures Valid() && SameInput() && OwnFootprint()
      ensures var s := HandleFlushed(cfg, old(Rec()), tag);
              Rec() == s.rec && error == s.error
    {
      hide FileOf, Index, Duration, SegmentFits, HandleMedia, Observe;
      ghost var before, o := normalizer.State(), Observe(normalizer.State(), tag, active != null);
      ObserveKeepsHeadersOk(before, tag, active != null);
      var verdict := normalizer.ObserveTag(tag, active != null);
      match verdict
      case Rejected(e) => return Some(e);
      case Accepted(Drop) => return None;
      case Accepted(Write(t, isKeyframe)) =>
        error := AcceptMediaTag(t, isKeyframe, Queued(t, before, isKeyframe, handled));
    }

    static lemma ObserveKeepsHeadersOk(h: Headers, tag: Tag, recording: bool)
      requires HeadersOk(h) && tag.Fits()
      ensures Observe(h, tag, recording).Seen? ==> HeadersOk(Observe(h, tag, recording).headers)
    {
      if Observe(h, tag, recording).Seen? {
        if IsCacheTag(tag) {
          CacheTagIsKept(h, tag, recording);
        } else {
          MediaKeepsHeaders(h, tag, recording);
        }
      }
    }

    // ----- Bytes -----

    method CompactBuffer()
      requires readPos <= |buffer|
      modifies this`buffer, this`readPos
      ensures readPos == 0 && Rest() == old(Rest()) && buffer == Rest()
    {
      if readPos > 0 {
        buffer := buffer[readPos..];
        readPos := 0;
      }
    }

    /** Parses the stream's header once enough of it is there. */
    method ReadStreamHeader() returns (ready: bool, error: Option<StreamError>)
      requires Valid() && RecOk(cfg, Rec()) && header.None?
      modifies this`header, this`readPos
      ensures Valid() && RecOk(cfg, Rec())
      ensures ready ==> Drain(cfg, old(Rec()), old(Rest())) == DrainTags(cfg, Rec(), Rest()) && header.Some?
      ensures !ready ==> Progress(Rec(), Rest(), error) == Drain(cfg, old(Rec()), old(Rest()))
    {
      hide FileOf, Index, Duration, SegmentFits, DrainTags;
      if |buffer| - readPos < FILE_HEADER_SIZE {
        return false, None;
      }
      var s := buffer[readPos..];
      var h := ReadHeader(s);
      if h.Failure? {
        return false, Some(StreamProtocol("FLV header error"));
      }
      if Unsigned(s[9..][..4]) != 0 {
        return false, Some(StreamProtocol("Invalid initial previous tag size"));
      }
      header := Some(h.value);
      DropTwice(buffer, readPos, FILE_HEADER_SIZE);
      readPos := readPos + FILE_HEADER_SIZE;
      return true, None;
    }

    /** One turn of the parsing loop: a tag, an error, or not enough bytes. */
    method ParseOne() returns (more: bool, error: Option<StreamError>)
      requires Valid() && RecOk(cfg, Rec()) && header.Some? && |Rest()| >= TAG_HEADER_SIZE
      modifies this, normalizer, normalizer.timestamp, mediaGroup, active
      ensures Valid() && RecOk(cfg, Rec()) && OwnFootprint() && header.Some?
      ensures more ==>
                && |Rest()| < |old(Rest())|
                && DrainTags(cfg, old(Rec()), old(Rest())) == DrainTags(cfg, Rec(), Rest())
      ensures !more ==> Progress(Rec(), Rest(), error) == DrainTags(cfg, old(Rec()), old(Rest()))
    {
      hide FileOf, Index, Duration, SegmentFits, HandleTag, ReadTag, ReadTagHeader;
      var s := buffer[readPos..];
      var tagHeader := ReadTagHeader(s);
      if tagHeader.Failure? {
        return false, Some(StreamProtocol("FLV tag header error"));
      }
      var totalNeeded := TagSpan(tagHeader.value);
      if |buffer| - readPos < totalNeeded {
        return false, None;
      }
      var tag := ReadTag(s);
      if tag.Failure? {
        return false, Some(StreamProtocol("FLV tag read error"));
      }
      TagRewrites(s);
      HandleKeeps(cfg, Rec(), tag.value);
      HandleKeepsHeader(cfg, Rec(), tag.value);
      DropTwice(buffer, readPos, totalNeeded);
      readPos := readPos + totalNeeded;
      error := ProcessTag(tag.value);
      more := error.None?;
    }

    method ParseTags() returns (error: Option<StreamError>)
      requires Valid() && RecOk(cfg, Rec()) && header.Some?
      modifies this, normalizer, normalizer.timestamp, mediaGroup, active
      ensures Valid() && RecOk(cfg, Rec()) && OwnFootprint()
      ensures Progress(Rec(), Rest(), error) == DrainTags(cfg, old(Rec()), old(Rest()))
    {
      hide FileOf, Index, Duration, SegmentFits, HandleTag, ReadTag, ReadTagHeader;
      while |buffer| - readPos >= TAG_HEADER_SIZE
        invariant Valid() && RecOk(cfg, Rec()) && OwnFootprint() && header.Some?
        invariant DrainTags(cfg, Rec(), Rest()) == DrainTags(cfg, old(Rec()), old(Rest()))
        decreases |Rest()|
      {
        var more;
        more, error := ParseOne();
        if !more {
          return;
        }
      }
      return None;
    }

    /**
      One chunk of the stream: every tag it completes is handled, and what is left waits for the
      next chunk.
     */
    method PushChunk(chunk: Bytes) returns (error: Option<StreamError>)
      requires Valid() && RecOk(cfg, Rec())
      modifies this, normalizer, normalizer.timestamp, mediaGroup, active
      ensures Valid() && RecOk(cfg, Rec()) && OwnFootprint()
      ensures Progress(Rec(), Rest(), error) == Drain(cfg, old(Rec()), old(Rest()) + chunk)
    {
      hide FileOf, Index, Duration, SegmentFits, DrainTags;
      assert (buffer + chunk)[readPos..] == Rest() + chunk;
      buffer := buffer + chunk;
      if header.None? {
        var ready;
        ready, error := ReadStreamHeader();
        if !ready {
          return;
        }
      }
      error := ParseTags();
      if error.None? {
        CompactBuffer();
      }
    }

    /** The end of a recording: an incomplete tag is dropped, what is pending is written, the file is finished. */
    method Finalize() returns (error: Option<StreamError>)
      requires Valid() && RecOk(cfg, Rec())
      modifies this, normalizer.timestamp, mediaGroup, active
      ensures Valid() && active == null && Rest() == []
      ensures var s := FinalizeAll(cfg, old(Rec()));
              Rec() == s.rec && error == s.error
    {
      hide FileOf, Index, Duration, SegmentFits, FlushPending, FinalizeCurrent;
      CompactBuffer();
      buffer := [];
      error := FlushPendingMediaGroup(false);
      error := FinalizeCurrentSegment();
    }

    /** Gives up the file being written; its row is marked failed elsewhere. */
    method MarkFailed()
      requires Valid()
      modifies this`active
      ensures Valid() && Rec() == old(Rec()).(phase := WaitSync)
    {
      active := null;
    }
  }
}
