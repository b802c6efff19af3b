/**
  What one recorded file holds: the FLV header, the recorder's metadata, the cached AVC and AAC
  headers and then the media tags, retimed. Everything about the file follows from the tags
  logged for it.
 */
module SegmentFile {
  import opened Wrappers
  import opened ByteStrings
  import opened Sequences
  import opened FlvFormat
  import opened AvcPayload
  import opened Timestamps
  import opened FlvPipeline
  import opened Metadata

  /**
    A media tag to be written, with the headers that were cached when it was observed and its
    place among the tags of the stream, counted from 1.
   */
  datatype Queued = Queued(tag: Tag, seen: Headers, isKeyframe: bool, place: nat)

  /**
    A file being written. `source` is the stream's metadata the file started from, `meta` the tag
    made of it, `avc` and `aac` the headers at its front, `log` the media tags it was given.
   */
  datatype Segment = Segment(index: nat, header: FlvHeader, source: Bytes, meta: Tag, avc: Tag, aac: Tag,
      log: seq<Queued>)

  const FILE_HEADER_SIZE: nat := 13
  const METADATA_BODY_OFFSET: nat := FILE_HEADER_SIZE + TAG_HEADER_SIZE
  const KEYFRAME_INDEX_MIN_INTERVAL_MS: nat := 1_900

  // ----- Tags in a row -----

  function TagBytes(t: Tag): Bytes {
    if WriteTag(t).Success? then WriteTag(t).value else []
  }

  function TagsBytes(tags: seq<Tag>): Bytes {
    if tags == [] then [] else TagsBytes(tags[..|tags| - 1]) + TagBytes(tags[|tags| - 1])
  }

  predicate AllFit(tags: seq<Tag>) {
    forall i | 0 <= i < |tags| :: tags[i].Fits()
  }

  /** The tags at the front of a stream of bytes, up to the first that is incomplete or malformed. */
  function ReadTags(s: Bytes): (r: (seq<Tag>, Bytes))
    decreases |s|
  {
    if ReadTag(s).Failure? then ([], s)
    else
      TagRewrites(s);
      var t := ReadTag(s).value;
      var (others, rest) := ReadTags(s[TagSpan(t.header)..]);
      ([t] + others, rest)
  }

  lemma {:induction false} TagsBytesOfConcat(a: seq<Tag>, b: seq<Tag>)
    ensures TagsBytes(a + b) == TagsBytes(a) + TagsBytes(b)
    decreases |b|
  {
    if b == [] {
      NoneAdded(a);
      NoneAdded(TagsBytes(a));
    } else {
      var last := |b| - 1;
      TagsBytesOfConcat(a, b[..last]);
      LastOfConcat(a, b);
      Assoc(TagsBytes(a), TagsBytes(b[..last]), TagBytes(b[last]));
    }
  }

  lemma LastOfConcat<T>(a: seq<T>, b: seq<T>)
    requires b != []
    ensures (a + b)[..|a + b| - 1] == a + b[..|b| - 1] && (a + b)[|a + b| - 1] == b[|b| - 1]
  {
  }

  lemma OneTagBytes(t: Tag)
    ensures TagsBytes([t]) == TagBytes(t)
  {
    assert [t][..0] == [];
    NoneAdded(TagBytes(t));
  }

  /** Tags written in a row read back as themselves. */
  lemma {:induction false} ReadTagsOfWritten(tags: seq<Tag>)
    requires AllFit(tags)
    ensures ReadTags(TagsBytes(tags)) == (tags, [])
  {
    if tags != [] {
      var t, others := tags[0], tags[1..];
      ReadTagsOfWritten(others);
      TagsBytesOfConcat([t], others);
      OneTagBytes(t);
      Cons(tags);
      TagRoundTrip(t, TagsBytes(others));
    }
  }

  // ----- The media part -----

  function Stamps(log: seq<Queued>): (s: seq<Stamp>)
    ensures |s| == |log|
  {
    seq(|log|, i requires 0 <= i < |log| => Stamp(log[i].tag.header.tagType, log[i].tag.header.timestamp))
  }

  function Retimed(t: Tag, timestamp: U32): Tag {
    t.(header := t.header.(timestamp := timestamp))
  }

  /** The tags as written: each is the tag that was logged, at its time in this file. */
  function Media(log: seq<Queued>): (tags: seq<Tag>)
    ensures |tags| == |log|
  {
    seq(|log|, i requires 0 <= i < |log| => Retimed(log[i].tag, Outputs(FRESH, Stamps(log))[i]))
  }

  predicate LogFits(log: seq<Queued>) {
    forall i | 0 <= i < |log| :: log[i].tag.Fits()
  }

  /** Logging one more tag leaves the earlier ones where they are. */
  lemma MediaGrows(log: seq<Queued>, q: Queued)
    ensures Stamps(log + [q]) == Stamps(log) + [Stamp(q.tag.header.tagType, q.tag.header.timestamp)]
    ensures Outputs(FRESH, Stamps(log + [q])) ==
            Outputs(FRESH, Stamps(log))
                  + [After(FRESH, Stamps(log)).Output(q.tag.header.tagType, q.tag.header.timestamp)]
    ensures After(FRESH, Stamps(log + [q])) ==
              After(FRESH, Stamps(log)).Next(q.tag.header.tagType, q.tag.header.timestamp)
    ensures Media(log + [q]) ==
            Media(log) + [Retimed(q.tag,
                After(FRESH, Stamps(log)).Output(q.tag.header.tagType, q.tag.header.timestamp))]
  {
    var all := Stamps(log + [q]);
    assert all == Stamps(log) + [Stamp(q.tag.header.tagType, q.tag.header.timestamp)];
    assert all[..|all| - 1] == Stamps(log);
    var outputs := Outputs(FRESH, all);
    assert outputs[..|log|] == Outputs(FRESH, Stamps(log));
    forall i | 0 <= i < |log| ensures outputs[i] == Outputs(FRESH, Stamps(log))[i] {
      assert outputs[..|log|][i] == outputs[i];
    }
  }

  /** The longest time any media tag reaches. */
  function Duration(log: seq<Queued>): (d: U32) {
    MaxIsOutput(Outputs(FRESH, Stamps(log)));
    Max(Outputs(FRESH, Stamps(log)))
  }

  lemma {:induction false} MaxIsOutput(outputs: seq<U32>)
    ensures Max(outputs) < U32_SPAN
  {
    if outputs != [] {
      MaxIsOutput(outputs[..|outputs| - 1]);
    }
  }

  // ----- The keyframe index -----

  predicate ExtendsIndex(index: seq<KeyframeIndex>, timestamp: U32) {
    index == [] || timestamp - index[|index| - 1].timeMs > KEYFRAME_INDEX_MIN_INTERVAL_MS
  }

  /** The index of tags written from offset `base` on. */
  function IndexOf(base: nat, tags: seq<Tag>): seq<KeyframeIndex> {
    if tags == [] then []
    else
      var last := |tags| - 1;
      var earlier, t := IndexOf(base, tags[..last]), tags[last];
      if IsAvcKeyframe(t.data) && ExtendsIndex(earlier, t.header.timestamp) then
        earlier + [KeyframeIndex(t.header.timestamp, base + |TagsBytes(tags[..last])|)]
      else earlier
  }

  /** An index entry stands for the tag at its position, which has a keyframe's first two bytes. */
  ghost predicate Points(e: KeyframeIndex, base: nat, tags: seq<Tag>, i: nat) {
    && i < |tags|
    && [0x17, 0x01] <= tags[i].data
    && e == KeyframeIndex(tags[i].header.timestamp, base + |TagsBytes(tags[..i])|)
  }

  ghost predicate PointsSomewhere(e: KeyframeIndex, base: nat, tags: seq<Tag>) {
    exists i: nat :: Points(e, base, tags, i)
  }

  /** Each entry points at a keyframe. */
  lemma {:induction false} IndexPoints(base: nat, tags: seq<Tag>)
    ensures forall k | 0 <= k < |IndexOf(base, tags)| :: PointsSomewhere(IndexOf(base, tags)[k], base, tags)
  {
    if tags != [] {
      var last := |tags| - 1;
      var earlier, index := IndexOf(base, tags[..last]), IndexOf(base, tags);
      IndexPoints(base, tags[..last]);
      IndexStep(base, tags);
      hide IndexOf;
      forall k | 0 <= k < |index| ensures PointsSomewhere(index[k], base, tags) {
        if k < |earlier| {
          PointsStill(earlier[k], base, tags);
        } else {
          assert Points(index[k], base, tags, last);
        }
      }
    }
  }

  /** An index is in order: times rise by more than 1900 ms from entry to entry, and positions with them. */
  ghost predicate Rising(index: seq<KeyframeIndex>) {
    forall j, k | 0 <= j < k < |index| ::
      && index[k].timeMs > index[j].timeMs + KEYFRAME_INDEX_MIN_INTERVAL_MS
      && index[k].filePosition > index[j].filePosition
  }

  predicate Below(index: seq<KeyframeIndex>, position: nat) {
    index != [] ==> index[|index| - 1].filePosition < position
  }

  lemma {:induction false} IndexRises(base: nat, tags: seq<Tag>)
    requires AllFit(tags)
    ensures Rising(IndexOf(base, tags)) && Below(IndexOf(base, tags), base + |TagsBytes(tags)|)
  {
    hide TagsBytes, IndexOf, Rising, Below, AllFit;
    if tags == [] {
      NothingIndexed(base);
    } else {
      EarlierFit(tags);
      IndexRises(base, tags[..|tags| - 1]);
      TagsGrow(tags);
      NextIndexRises(base, tags, IndexOf(base, tags[..|tags| - 1]), base + |TagsBytes(tags[..|tags| - 1])|);
    }
  }

  lemma NothingIndexed(base: nat)
    ensures Rising(IndexOf(base, [])) && Below(IndexOf(base, []), base + |TagsBytes([])|)
  {
  }

  lemma EarlierFit(tags: seq<Tag>)
    requires tags != [] && AllFit(tags)
    ensures AllFit(tags[..|tags| - 1]) && tags[|tags| - 1].Fits()
  {
  }

  lemma NextIndexRises(base: nat, tags: seq<Tag>, index: seq<KeyframeIndex>, position: nat)
    requires tags != [] && index == IndexOf(base, tags[..|tags| - 1])
             && position == base + |TagsBytes(tags[..|tags| - 1])|
    requires Rising(index) && Below(index, position) && position < base + |TagsBytes(tags)|
    ensures Rising(IndexOf(base, tags)) && Below(IndexOf(base, tags), base + |TagsBytes(tags)|)
  {
    hide TagsBytes, IndexOf;
    RisingStep(index, tags[|tags| - 1].header.timestamp, position, base + |TagsBytes(tags)|);
    IndexStep(base, tags);
  }

  lemma IndexStep(base: nat, tags: seq<Tag>)
    requires tags != []
    ensures var earlier, t := tags[..|tags| - 1], tags[|tags| - 1];
            var index := IndexOf(base, earlier);
            IndexOf(base, tags) ==
              if IsAvcKeyframe(t.data) && ExtendsIndex(index, t.header.timestamp)
              then index + [KeyframeIndex(t.header.timestamp, base + |TagsBytes(earlier)|)] else index
  {
  }

  lemma TagsGrow(tags: seq<Tag>)
    requires tags != [] && tags[|tags| - 1].Fits()
    ensures |TagsBytes(tags)| > |TagsBytes(tags[..|tags| - 1])|
  {
    TagBytesParts(tags[|tags| - 1]);
  }

  lemma RisingStep(index: seq<KeyframeIndex>, timestamp: U32, position: nat, next: nat)
    requires Rising(index) && Below(index, position) && position < next
    ensures Below(index, next)
    ensures ExtendsIndex(index, timestamp) ==>
              Rising(index + [KeyframeIndex(timestamp, position)])
                  && Below(index + [KeyframeIndex(timestamp, position)], next)
  {
  }

  lemma PointsStill(e: KeyframeIndex, base: nat, tags: seq<Tag>)
    requires tags != [] && PointsSomewhere(e, base, tags[..|tags| - 1])
    ensures PointsSomewhere(e, base, tags)
  {
    var i: nat :| Points(e, base, tags[..|tags| - 1], i);
    assert tags[..|tags| - 1][..i] == tags[..i];
    assert Points(e, base, tags, i);
  }

  /** No keyframe is more than 1900 ms later than some index entry at or before it. */
  lemma IndexIsDense(base: nat, tags: seq<Tag>, i: nat)
    requires i < |tags| && [0x17, 0x01] <= tags[i].data
    ensures IndexOf(base, tags[..i + 1]) != []
    ensures tags[i].header.timestamp <= IndexOf(base, tags[..i + 1])[|IndexOf(base, tags[..i + 1])| - 1].timeMs
              + KEYFRAME_INDEX_MIN_INTERVAL_MS
    ensures IndexOf(base, tags[..i + 1]) <= IndexOf(base, tags)
  {
    hide IndexOf;
    var upTo := tags[..i + 1];
    assert upTo[..|upTo| - 1] == tags[..i] && upTo[|upTo| - 1] == tags[i];
    IndexStep(base, upTo);
    IndexGrows(base, tags, i + 1);
  }

  lemma {:induction false} IndexGrows(base: nat, tags: seq<Tag>, n: nat)
    requires n <= |tags|
    ensures IndexOf(base, tags[..n]) <= IndexOf(base, tags)
    decreases |tags|
  {
    if n < |tags| {
      IndexGrows(base, tags[..|tags| - 1], n);
      assert tags[..|tags| - 1][..n] == tags[..n];
    } else {
      assert tags[..n] == tags;
    }
  }

  // ----- The whole file -----

  /** The tags a segment's file holds, metadata first. */
  function TagsOf(seg: Segment): seq<Tag> {
    [seg.meta, seg.avc, seg.aac] + Media(seg.log)
  }

  function FrontBytes(header: FlvHeader): Bytes {
    WriteHeader(header) + BigEndian(0, 4)
  }

  function FileOf(seg: Segment): Bytes {
    FrontBytes(seg.header) + TagsBytes(TagsOf(seg))
  }

  /** The size of the file before any media. */
  function HeadSize(seg: Segment): nat {
    FILE_HEADER_SIZE + TagSpan(seg.meta.header) + TagSpan(seg.avc.header) + TagSpan(seg.aac.header)
  }

  function Index(seg: Segment): seq<KeyframeIndex> {
    IndexOf(HeadSize(seg), Media(seg.log))
  }

  /** The metadata tag a file starts with, and ends up with. */
  function MetaTag(cached: Tag, body: Bytes): Tag {
    Tag(cached.header.(timestamp := 0, dataSize := |body| % U32_SPAN), body)
  }

  ghost predicate SegmentFits(fl: Floats, seg: Segment) {
    && seg.meta.Fits() && seg.avc.Fits() && seg.aac.Fits() && LogFits(seg.log)
    && seg.meta.data == MetadataBody(fl, seg.source, 0, [])
  }

  /** A whole file: its header, its tags and what is left over. */
  datatype Parsed = Parsed(header: FlvHeader, tags: seq<Tag>, rest: Bytes) | Unreadable

  function ParseFile(file: Bytes): Parsed {
    if |file| < FILE_HEADER_SIZE || ReadHeader(file).Failure? || Unsigned(file[9..][..4]) != 0 then Unreadable
    else
      var (tags, rest) := ReadTags(file[FILE_HEADER_SIZE..]);
      Parsed(ReadHeader(file).value, tags, rest)
  }

  lemma ParseOfWritten(header: FlvHeader, tags: seq<Tag>)
    requires AllFit(tags)
    ensures ParseFile(FrontBytes(header) + TagsBytes(tags)) == Parsed(header, tags, [])
  {
    var body := TagsBytes(tags);
    ReadTagsOfWritten(tags);
    Assoc(WriteHeader(header), BigEndian(0, 4), body);
    HeaderRoundTrip(header, BigEndian(0, 4) + body);
    Parts(FrontBytes(header), body);
    Parts(WriteHeader(header), BigEndian(0, 4) + body);
    Parts(BigEndian(0, 4), body);
    Spans();
    UnsignedOfBigEndian(0, 4);
  }

  lemma MediaFits(log: seq<Queued>)
    requires LogFits(log)
    ensures AllFit(Media(log))
  {
  }

  // ----- Finishing a file -----

  /** What is in the metadata when the file is finished. */
  function FinalBody(fl: Floats, seg: Segment): Bytes {
    MetadataBody(fl, seg.meta.data, Duration(seg.log), Index(seg))
  }

  /** The file with other bytes from `offset` on. */
  function Overwritten(file: Bytes, offset: nat, bytes: Bytes): Bytes
    requires offset + |bytes| <= |file|
  {
    file[..offset] + bytes + file[offset + |bytes|..]
  }

  /** A size that can be patched in is one that the metadata's own rules let stay. */
  lemma BodyStaysIff(fl: Floats, seg: Segment)
    requires SegmentFits(fl, seg)
    ensures |FinalBody(fl, seg)| == |seg.meta.data| <==> RewriteFits(fl, seg.source)
  {
    RewriteKeepsLengthIff(fl, seg.source, Duration(seg.log), Index(seg));
  }

  lemma TagBytesParts(t: Tag)
    requires t.Fits()
    ensures TagBytes(t) == WriteTagHeader(t.header).value + t.data + BigEndian(TAG_HEADER_SIZE + t.header.dataSize, 4)
    ensures |WriteTagHeader(t.header).value| == TAG_HEADER_SIZE
    ensures |TagBytes(t)| == TagSpan(t.header)
  {
    WrittenTagHeader(t.header);
    TagRoundTrip(t, []);
  }

  lemma SwapMiddle(before: Bytes, middle: Bytes, after: Bytes, middle': Bytes)
    requires |middle'| == |middle|
    ensures Overwritten(before + middle + after, |before|, middle') == before + middle' + after
  {
    Assoc(before, middle, after);
    Parts(before, middle + after);
    Parts(before + middle, after);
  }

  /** Overwriting the body of the first tag gives the file that tag with the new body would start. */
  lemma PatchedFile(front: Bytes, t: Tag, body: Bytes, others: Bytes)
    requires t.Fits() && |body| == |t.data|
    ensures |front| + TAG_HEADER_SIZE + |body| <= |front + (TagBytes(t) + others)|
    ensures Overwritten(front + (TagBytes(t) + others), |front| + TAG_HEADER_SIZE, body) ==
              front + (TagBytes(t.(data := body)) + others)
  {
    var head, back := WriteTagHeader(t.header).value, BigEndian(TAG_HEADER_SIZE + t.header.dataSize, 4);
    TagBytesParts(t);
    TagBytesParts(t.(data := body));
    AroundMiddle(front, head, t.data, back, others);
    AroundMiddle(front, head, body, back, others);
    SwapMiddle(front + head, t.data, back + others, body);
  }

  lemma AroundMiddle(front: Bytes, head: Bytes, middle: Bytes, back: Bytes, others: Bytes)
    ensures front + ((head + middle + back) + others) == front + head + middle + (back + others)
  {
    Assoc(head + middle, back, others);
    Assoc(head, middle, back + others);
    Assoc(front, head, middle + (back + others));
    Assoc(front + head, middle, back + others);
  }

  lemma TagsOfConcat(seg: Segment)
    ensures TagsBytes(TagsOf(seg)) == TagBytes(seg.meta) + TagsBytes([seg.avc, seg.aac] + Media(seg.log))
  {
    assert [seg.meta, seg.avc, seg.aac] == [seg.meta] + [seg.avc, seg.aac];
    Assoc([seg.meta], [seg.avc, seg.aac], Media(seg.log));
    TagsBytesOfConcat([seg.meta], [seg.avc, seg.aac] + Media(seg.log));
    OneTagBytes(seg.meta);
  }

  /** The metadata body sits where the rewrite puts the new one, and the rewrite changes nothing else. */
  lemma RewrittenFile(seg: Segment, body: Bytes)
    requires seg.meta.Fits() && |body| == |seg.meta.data|
    ensures METADATA_BODY_OFFSET + |body| <= |FileOf(seg)|
    ensures Overwritten(FileOf(seg), METADATA_BODY_OFFSET, body) == FileOf(seg.(meta := seg.meta.(data := body)))
  {
    var others := TagsBytes([seg.avc, seg.aac] + Media(seg.log));
    TagsOfConcat(seg);
    TagsOfConcat(seg.(meta := seg.meta.(data := body)));
    PatchedFile(FrontBytes(seg.header), seg.meta, body, others);
  }

  /**
    A finished file parses back, with nothing left over, as its header, the final metadata, the
    two cached headers and exactly the logged media tags in order.
   */
  lemma FinishedFileParses(fl: Floats, seg: Segment)
    requires SegmentFits(fl, seg) && RewriteFits(fl, seg.source)
    ensures var body := FinalBody(fl, seg);
            && |body| == |seg.meta.data| && METADATA_BODY_OFFSET + |body| <= |FileOf(seg)|
            && ParseFile(Overwritten(FileOf(seg), METADATA_BODY_OFFSET, body)) ==
               Parsed(seg.header, [seg.meta.(data := body), seg.avc, seg.aac] + Media(seg.log), [])
            && ReadsAs(fl, seg.source, Duration(seg.log), Index(seg), body)
  {
    var body := FinalBody(fl, seg);
    BodyStaysIff(fl, seg);
    RewrittenFileParses(seg, body);
    RewrittenBodyReparses(fl, seg.source, Duration(seg.log), Index(seg));
  }

  lemma RewrittenFileParses(seg: Segment, body: Bytes)
    requires seg.meta.Fits() && seg.avc.Fits() && seg.aac.Fits() && LogFits(seg.log) && |body| == |seg.meta.data|
    ensures METADATA_BODY_OFFSET + |body| <= |FileOf(seg)|
    ensures ParseFile(Overwritten(FileOf(seg), METADATA_BODY_OFFSET, body)) ==
            Parsed(seg.header, [seg.meta.(data := body), seg.avc, seg.aac] + Media(seg.log), [])
  {
    RewrittenFile(seg, body);
    MediaFits(seg.log);
    ParseOfWritten(seg.header, [seg.meta.(data := body), seg.avc, seg.aac] + Media(seg.log));
  }

  /** The tag that starts at a position. */
  function TagAt(file: Bytes, position: nat): Option<Tag> {
    if position <= |file| && ReadTag(file[position..]).Success? then Some(ReadTag(file[position..]).value) else None
  }

  lemma TagAtBehind(file: Bytes, front: Bytes, body: Bytes, position: nat, t: Tag, at: nat)
    requires file == front + body && TagAt(body, position) == Some(t) && at == |front| + position
    ensures TagAt(file, at) == Some(t)
  {
    Parts(front, body);
    DropTwice(file, |front|, position);
  }

  lemma TagInRow(tags: seq<Tag>, i: nat)
    requires AllFit(tags) && i < |tags|
    ensures TagAt(TagsBytes(tags), |TagsBytes(tags[..i])|) == Some(tags[i])
  {
    var t, others := tags[i], tags[i + 1..];
    assert tags == tags[..i] + tags[i..] && tags[i..] == [t] + others;
    TagsBytesOfConcat(tags[..i], tags[i..]);
    TagsBytesOfConcat([t], others);
    OneTagBytes(t);
    TagRoundTrip(t, TagsBytes(others));
    TagAtBehind(TagsBytes(tags), TagsBytes(tags[..i]), TagsBytes(tags[i..]), 0, t, |TagsBytes(tags[..i])|);
  }

  lemma IndexEntry(base: nat, tags: seq<Tag>, k: nat) returns (i: nat)
    requires k < |IndexOf(base, tags)|
    ensures Points(IndexOf(base, tags)[k], base, tags, i)
  {
    IndexPoints(base, tags);
    assert PointsSomewhere(IndexOf(base, tags)[k], base, tags);
    i :| Points(IndexOf(base, tags)[k], base, tags, i);
  }

  lemma RowTagAt(file: Bytes, front: Bytes, tags: seq<Tag>, i: nat, at: nat)
    requires AllFit(tags) && i < |tags| && file == front + TagsBytes(tags) && at == |front| + |TagsBytes(tags[..i])|
    ensures TagAt(file, at) == Some(tags[i])
  {
    TagInRow(tags, i);
    TagAtBehind(file, front, TagsBytes(tags), |TagsBytes(tags[..i])|, tags[i], at);
  }

  lemma RowIndexPoints(file: Bytes, front: Bytes, tags: seq<Tag>, k: nat) returns (t: Tag)
    requires AllFit(tags) && file == front + TagsBytes(tags) && k < |IndexOf(|front|, tags)|
    ensures TagAt(file, IndexOf(|front|, tags)[k].filePosition) == Some(t)
    ensures t in tags && [0x17, 0x01] <= t.data && t.header.timestamp == IndexOf(|front|, tags)[k].timeMs
  {
    var i := IndexEntry(|front|, tags, k);
    t := tags[i];
    RowTagAt(file, front, tags, i, IndexOf(|front|, tags)[k].filePosition);
  }

  /** Every entry of a file's index is the offset of a keyframe tag with that time. */
  lemma IndexPointsIntoFile(seg: Segment, k: nat) returns (t: Tag)
    requires seg.meta.Fits() && seg.avc.Fits() && seg.aac.Fits() && LogFits(seg.log) && k < |Index(seg)|
    ensures TagAt(FileOf(seg), Index(seg)[k].filePosition) == Some(t)
    ensures t in Media(seg.log) && [0x17, 0x01] <= t.data && t.header.timestamp == Index(seg)[k].timeMs
  {
    MediaFits(seg.log);
    HeadIsHead(seg);
    t := RowIndexPoints(FileOf(seg), HeadBytes(seg), Media(seg.log), k);
  }

  function HeadBytes(seg: Segment): Bytes {
    FrontBytes(seg.header) + TagsBytes([seg.meta, seg.avc, seg.aac])
  }

  /** The media starts where the head ends. */
  lemma HeadIsHead(seg: Segment)
    requires seg.meta.Fits() && seg.avc.Fits() && seg.aac.Fits()
    ensures |HeadBytes(seg)| == HeadSize(seg)
    ensures FileOf(seg) == HeadBytes(seg) + TagsBytes(Media(seg.log))
  {
    var head, media := [seg.meta, seg.avc, seg.aac], Media(seg.log);
    TagsBytesOfConcat(head, media);
    HeadTagsSize(seg.meta, seg.avc, seg.aac);
    Assoc(FrontBytes(seg.header), TagsBytes(head), TagsBytes(media));
  }

  lemma HeadTagsSize(a: Tag, b: Tag, c: Tag)
    requires a.Fits() && b.Fits() && c.Fits()
    ensures |TagsBytes([a, b, c])| == TagSpan(a.header) + TagSpan(b.header) + TagSpan(c.header)
    ensures TagsBytes([a, b, c]) == TagBytes(a) + TagBytes(b) + TagBytes(c)
  {
    TagBytesParts(a);
    TagBytesParts(b);
    TagBytesParts(c);
    TagsBytesOfConcat([a], [b]);
    TagsBytesOfConcat([a] + [b], [c]);
    OneTagBytes(a);
    OneTagBytes(b);
    OneTagBytes(c);
    assert [a, b, c] == [a] + [b] + [c];
  }
}
