/** What the keyframe index takes for a keyframe. */
module Lookalikes {
  import opened Wrappers
  import opened ByteStrings
  import opened Sequences
  import opened FlvFormat
  import opened AvcPayload
  import opened Timestamps
  import opened FlvPipeline
  import opened SegmentFile
  import opened Recorder
  import opened StreamLedger

  // ----- When an entry stands for no video -----

  /** The index looks at payloads only, so an audio tag can pass for a keyframe. */
  predicate Lookalike(t: Tag) {
    !t.header.tagType.Video? && [0x17, 0x01] <= t.data
  }

  /** A lookalike that comes when the index is ready for another entry. */
  predicate Misindexed(seg: Segment, i: nat) {
    && i < |seg.log| && Lookalike(seg.log[i].tag)
    && ExtendsIndex(IndexOf(HeadSize(seg), Media(seg.log)[..i]), Media(seg.log)[i].header.timestamp)
  }

  ghost predicate PointsAtVideo(seg: Segment, k: nat)
    requires k < |Index(seg)|
  {
    exists i: nat :: Points(Index(seg)[k], HeadSize(seg), Media(seg.log), i) && Media(seg.log)[i].header.tagType.Video?
  }

  /** Each entry was made by one tag, when the index was ready for it. */
  lemma {:induction false} EntryMaker(base: nat, tags: seq<Tag>, k: nat) returns (i: nat)
    requires k < |IndexOf(base, tags)|
    ensures Points(IndexOf(base, tags)[k], base, tags, i)
    ensures ExtendsIndex(IndexOf(base, tags[..i]), tags[i].header.timestamp)
    decreases |tags|
  {
    var last := |tags| - 1;
    if k < |IndexOf(base, tags[..last])| {
      i := EntryMaker(base, tags[..last], k);
      assert tags[..last][..i] == tags[..i];
    } else {
      i := last;
    }
  }

  /** And every keyframe payload that finds it ready makes one. */
  lemma EntryMade(base: nat, tags: seq<Tag>, i: nat) returns (k: nat)
    requires i < |tags| && [0x17, 0x01] <= tags[i].data
             && ExtendsIndex(IndexOf(base, tags[..i]), tags[i].header.timestamp)
    ensures k < |IndexOf(base, tags)| && Points(IndexOf(base, tags)[k], base, tags, i)
  {
    IndexStep(base, tags[..i + 1]);
    assert tags[..i + 1][..i] == tags[..i];
    IndexGrows(base, tags, i + 1);
    k := |IndexOf(base, tags[..i])|;
    assert IndexOf(base, tags)[k] == IndexOf(base, tags[..i + 1])[k];
  }

  /** Two tags never start at the same byte. */
  lemma OnePosition(tags: seq<Tag>, i: nat, j: nat)
    requires AllFit(tags) && i < |tags| && j < |tags| && |TagsBytes(tags[..i])| == |TagsBytes(tags[..j])|
    ensures i == j
  {
    if i < j {
      LaterPosition(tags, i, j);
    } else if j < i {
      LaterPosition(tags, j, i);
    }
  }

  lemma {:induction false} LaterPosition(tags: seq<Tag>, i: nat, j: nat)
    requires AllFit(tags) && i < j <= |tags|
    ensures |TagsBytes(tags[..i])| < |TagsBytes(tags[..j])|
    decreases j
  {
    TagsGrow(tags[..j]);
    assert tags[..j][..j - 1] == tags[..j - 1];
    if i < j - 1 {
      LaterPosition(tags, i, j - 1);
    }
  }

  /** Every entry stands for a video keyframe exactly when no lookalike finds the index ready for it. */
  lemma IndexIsVideoIff(seg: Segment)
    requires LogFits(seg.log)
    ensures (forall k | 0 <= k < |Index(seg)| :: PointsAtVideo(seg, k)) <==> !exists i: nat :: Misindexed(seg, i)
  {
    var media, base := Media(seg.log), HeadSize(seg);
    forall i: nat | Misindexed(seg, i) ensures exists k | 0 <= k < |Index(seg)| :: !PointsAtVideo(seg, k) {
      MisindexedEntry(seg, i);
    }
    forall k | 0 <= k < |Index(seg)| && !PointsAtVideo(seg, k) ensures exists i: nat :: Misindexed(seg, i) {
      var i := EntryMaker(base, media, k);
      assert Misindexed(seg, i);
    }
  }

  lemma MisindexedEntry(seg: Segment, i: nat)
    requires LogFits(seg.log) && Misindexed(seg, i)
    ensures exists k | 0 <= k < |Index(seg)| :: !PointsAtVideo(seg, k)
  {
    var media, base := Media(seg.log), HeadSize(seg);
    MediaFits(seg.log);
    var k := EntryMade(base, media, i);
    forall j: nat | Points(Index(seg)[k], base, media, j) ensures !media[j].header.tagType.Video? {
      OnePosition(media, i, j);
    }
    assert !PointsAtVideo(seg, k);
  }

  // ----- A stream that gets there -----

  const NO_METADATA := Tag(TagHeader(ScriptData, 0, 0, 0), [])
  const AVC_HEADER := Tag(TagHeader(Video, 10, 0, 0), [0x17, 0, 0, 0, 0, 1, 0, 0, 0, 0xFC])
  const AAC_HEADER := Tag(TagHeader(Audio, 2, 0, 0), [0xAF, 0])
  const KEYFRAME := Tag(TagHeader(Video, 7, 0, 0), [0x17, 1, 0, 0, 0, 1, 0x65])

  const CACHED := Headers(Some(NO_METADATA), Some(AVC_HEADER), Some(AAC_HEADER), Some(1), 0, false, false)

  /** Audio whose payload starts like an AVC keyframe, every half second. */
  function Sound(n: nat): Tag
    requires n <= 4
  {
    Tag(TagHeader(Audio, 2, 500 * n, 0), [0x17, 1])
  }

  const SOUNDS := [Sound(1), Sound(2), Sound(3), Sound(4)]

  const TAGS := [NO_METADATA, AVC_HEADER, AAC_HEADER, KEYFRAME] + SOUNDS

  function Noted(tag: Tag, place: nat): Queued {
    Queued(tag, CACHED, tag.header.tagType.Video?, place)
  }

  const ENTRIES := [Noted(KEYFRAME, 4), Noted(Sound(1), 5), Noted(Sound(2), 6), Noted(Sound(3), 7), Noted(Sound(4), 8)]

  const BOTH := FlvHeader(true, true)

  /** Before a file is open, header tags are only cached. */
  lemma CacheStep(cfg: Config, r: Recorder, tag: Tag)
    requires r.phase.WaitSync? && r.queue == [] && IsCacheTag(tag) && Observe(r.headers, tag, false).Seen?
    ensures HandleTag(cfg, r, tag) ==
              Step(r.(handled := r.handled + 1, headers := Observe(r.headers, tag, false).headers), None)
  {
  }

  lemma KeyframeIsKept(recording: bool)
    ensures Observe(CACHED, KEYFRAME, recording) == Seen(CACHED, Write(KEYFRAME, true))
  {
    var payload: Bytes := [1, 0x65];
    assert KEYFRAME.data[PREFIX..] == payload;
    OneUnit();
    assert Nalus(KEYFRAME.data, 1) == Good([[0x65]]);
    assert Kept([[0x65]]) == [[0x65]];
  }

  lemma OneUnit()
    ensures Split([1, 0x65], 1) == Good([[0x65]])
  {
    var unit: Nalu := [0x65];
    assert BigEndian(1, 1) == BigEndian(0, 0) + [1];
    NoneAdded(Framed(unit, 1));
    assert Join([unit][1..], 1) == [];
    assert Join([unit], 1) == [1, 0x65];
    SplitOfJoin([unit], 1);
  }

  /** The keyframe opens the first file and waits in the queue. */
  lemma KeyframeStep(cfg: Config, r: Recorder)
    requires r.phase.WaitSync? && r.queue == [] && r.header.Some? && r.headers == CACHED
    ensures var begun :=
              r.(handled := r.handled + 1, phase := Recording(FirstSegment(cfg.floats, r)),
              nextIndex := r.nextIndex + 1);
            HandleTag(cfg, r, KEYFRAME) == Step(Queues(begun, Noted(KEYFRAME, begun.handled)), None)
  {
    hide Observe, HandleMedia;
    KeyframeIsKept(false);
    KeyframeOpens(cfg, r.(handled := r.handled + 1), Noted(KEYFRAME, r.handled + 1));
  }

  lemma KeyframeOpens(cfg: Config, r: Recorder, q: Queued)
    requires r.phase.WaitSync? && r.queue == [] && r.header.Some? && r.headers == CACHED && q.isKeyframe
    ensures var begun := r.(phase := Recording(FirstSegment(cfg.floats, r)), nextIndex := r.nextIndex + 1);
            HandleMedia(cfg, r, q) == Step(Queues(begun, q), None)
  {
    hide FirstSegment, FlushPending, Rotate;
  }

  function Queues(r: Recorder, q: Queued): Recorder {
    r.(queue := r.queue + [q], taken := r.taken + [q])
  }

  /** Sound joins the pending group. */
  lemma SoundStep(cfg: Config, r: Recorder, n: nat)
    requires 1 <= n <= 4 && r.phase.Recording? && r.headers == CACHED
    requires r.queue != [] && r.queue[|r.queue| - 1].tag.header.timestamp == 500 * (n - 1)
    ensures HandleTag(cfg, r, Sound(n)) ==
              Step(Queues(r.(handled := r.handled + 1), Noted(Sound(n), r.handled + 1)), None)
  {
  }

  lemma TagsHandled(cfg: Config, startIndex: nat)
    ensures var s := HandleAll(cfg, Started(startIndex, BOTH), TAGS);
            && s.error.None? && s.rec.queue == ENTRIES && s.rec.history == [] && s.rec.finished == []
            && s.rec.phase.Recording? && s.rec.phase.segment.log == []
  {
    hide HandleTag;
    var r0 := Started(startIndex, BOTH);
    CacheStep(cfg, r0, NO_METADATA);
    var r1 := HandleTag(cfg, r0, NO_METADATA).rec;
    CacheStep(cfg, r1, AVC_HEADER);
    var r2 := HandleTag(cfg, r1, AVC_HEADER).rec;
    CacheStep(cfg, r2, AAC_HEADER);
    var r3 := HandleTag(cfg, r2, AAC_HEADER).rec;
    KeyframeStep(cfg, r3);
    var r4 := HandleTag(cfg, r3, KEYFRAME).rec;
    Four(cfg, r0, NO_METADATA, AVC_HEADER, AAC_HEADER, KEYFRAME, SOUNDS);
    SoundsHandled(cfg, r4);
  }

  lemma Four(cfg: Config, r: Recorder, a: Tag, b: Tag, c: Tag, d: Tag, others: seq<Tag>)
    requires HandleTag(cfg, r, a).error.None?
    requires HandleTag(cfg, HandleTag(cfg, r, a).rec, b).error.None?
    requires HandleTag(cfg, HandleTag(cfg, HandleTag(cfg, r, a).rec, b).rec, c).error.None?
    requires HandleTag(cfg, HandleTag(cfg, HandleTag(cfg, HandleTag(cfg, r, a).rec, b).rec, c).rec, d).error.None?
    ensures HandleAll(cfg, r, [a, b, c, d] + others) ==
            HandleAll(cfg, HandleTag(cfg, HandleTag(cfg, HandleTag(cfg, HandleTag(cfg, r, a).rec, b).rec, c).rec,
                d).rec, others)
  {
    hide HandleTag;
    var tags := [a, b, c, d] + others;
    var (r1, t1) := (HandleTag(cfg, r, a).rec, tags[1..]);
    var (r2, t2) := (HandleTag(cfg, r1, b).rec, t1[1..]);
    var (r3, t3) := (HandleTag(cfg, r2, c).rec, t2[1..]);
    assert HandleAll(cfg, r, tags) == HandleAll(cfg, r1, t1);
    assert t1[0] == b && HandleAll(cfg, r1, t1) == HandleAll(cfg, r2, t2);
    assert t2[0] == c && HandleAll(cfg, r2, t2) == HandleAll(cfg, r3, t3);
    assert t3[0] == d && t3[1..] == others;
  }

  lemma SoundsHandled(cfg: Config, r: Recorder)
    requires r.phase.Recording? && r.headers == CACHED && r.handled == 4 && r.queue == [Noted(KEYFRAME, 4)]
    ensures var s := HandleAll(cfg, r, SOUNDS);
            s.error.None? && s.rec == r.(handled := 8, queue := ENTRIES, taken := s.rec.taken)
  {
    hide HandleTag;
    SoundStep(cfg, r, 1);
    var r1 := HandleTag(cfg, r, Sound(1)).rec;
    SoundStep(cfg, r1, 2);
    var r2 := HandleTag(cfg, r1, Sound(2)).rec;
    SoundStep(cfg, r2, 3);
    var r3 := HandleTag(cfg, r2, Sound(3)).rec;
    SoundStep(cfg, r3, 4);
    NoneAdded(SOUNDS);
    Four(cfg, r, Sound(1), Sound(2), Sound(3), Sound(4), []);
  }

  // ----- Its index -----

  ghost predicate EveryHalfSecond(stamps: seq<Stamp>) {
    forall i | 0 <= i < |stamps| :: stamps[i].original == 500 * i
  }

  lemma {:induction false} SteadyClock(stamps: seq<Stamp>)
    requires EveryHalfSecond(stamps) && 0 < |stamps| <= 5
    ensures After(FRESH, stamps) == Clock(true, 0, 500 * (|stamps| - 1), 500 * (|stamps| - 1))
    ensures forall i | 0 <= i < |stamps| :: Outputs(FRESH, stamps)[i] == 500 * i
    decreases |stamps|
  {
    var earlier := stamps[..|stamps| - 1];
    if earlier != [] {
      SteadyClock(earlier);
    }
  }

  /** Five keyframe payloads half a second apart: the first and the last are indexed. */
  lemma {:induction false} SteadyIndex(base: nat, tags: seq<Tag>)
    requires 0 < |tags| <= 4
    requires forall i | 0 <= i < |tags| :: IsAvcKeyframe(tags[i].data) && tags[i].header.timestamp == 500 * i
    ensures |IndexOf(base, tags)| == 1 && IndexOf(base, tags)[0].timeMs == 0
    decreases |tags|
  {
    IndexStep(base, tags);
    if |tags| > 1 {
      SteadyIndex(base, tags[..|tags| - 1]);
    }
  }

  lemma EntriesMisindexed(seg: Segment)
    requires seg.log == ENTRIES
    ensures Misindexed(seg, 4)
  {
    SteadyClock(Stamps(seg.log));
    SteadyIndex(HeadSize(seg), Media(seg.log)[..4]);
  }

  lemma TagsFit()
    ensures AllFit(TAGS)
  {
  }

  /** One stream, as a whole: headers, a keyframe, and sound that looks like one. */
  function LookalikeStream(): Bytes {
    FrontBytes(BOTH) + TagsBytes(TAGS)
  }

  lemma OneChunk(chunk: Bytes)
    ensures Flat([chunk]) == chunk
  {
    var chunks: seq<Bytes> := [chunk];
    assert chunks[..0] == [];
    NoneAdded(chunk);
  }

  lemma StreamParses(cfg: Config, startIndex: nat)
    ensures var (p, s) :=
              (Pushed(cfg, startIndex, [LookalikeStream()]), HandleAll(cfg, Started(startIndex, BOTH), TAGS));
            p.rec == s.rec && (s.error.None? ==> p.error.None?)
  {
    hide HandleAll, TagsBytes, FrontBytes, ReadTags, ReadHeader, DrainTags;
    var stream := LookalikeStream();
    TagsFit();
    ParseOfWritten(BOTH, TAGS);
    ChunkIndependence(cfg, New(startIndex), [stream]);
    NoneAdded(stream);
    OneChunk(stream);
    DrainTagsHandlesAll(cfg, Started(startIndex, BOTH), stream[FILE_HEADER_SIZE..]);
  }

  /**
    Under every configuration that stream ends in one file, whose index holds an entry for sound:
    the fifth media tag finds the index ready and is no video.
   */
  lemma LookalikeIsReached(cfg: Config, startIndex: nat) returns (seg: Segment)
    ensures var finished := End(cfg, Pushed(cfg, startIndex, [LookalikeStream()])).finished;
            |finished| == 1 && seg == finished[0].segment
    ensures Misindexed(seg, 4) && exists k | 0 <= k < |Index(seg)| :: !PointsAtVideo(seg, k)
  {
    hide HandleAll, Misindexed, PointsAtVideo, Index, Pushed, LookalikeStream, End;
    StreamParses(cfg, startIndex);
    TagsHandled(cfg, startIndex);
    var p := Pushed(cfg, startIndex, [LookalikeStream()]);
    seg := p.rec.phase.segment.(log := ENTRIES);
    EntriesEnd(cfg, p);
    EntriesMisindexed(seg);
    MisindexedEntry(seg, 4);
  }

  /** At the end the pending group is new, so it is written, and the file is finished. */
  lemma EntriesEnd(cfg: Config, p: Progress)
    requires p.error.None? && p.rec.queue == ENTRIES && p.rec.history == [] && p.rec.finished == []
    requires p.rec.phase.Recording? && p.rec.phase.segment.log == []
    ensures var finished := End(cfg, p).finished;
            |finished| == 1 && finished[0].segment == p.rec.phase.segment.(log := ENTRIES)
  {
    hide FinalBody, FileOf, Overwritten;
    NoneAdded(ENTRIES);
  }
}
