/**
  The recorder as a state machine over parsed tags: waiting for a keyframe with all headers at
  hand, recording into one file after another, and finishing each file.
 */
module Recorder {
  import opened Wrappers
  import opened ByteStrings
  import opened FlvFormat
  import opened FlvPipeline
  import opened Metadata
  import opened SegmentFile

  /** The recorder's policy; `timeIsUp` says of each tag handled whether the time limit has passed by then. */
  datatype Config = Config(
    sizeLimit: Option<nat>,
    timeIsUp: nat -> bool,
    minSize: nat,
    fingerprint: Fingerprint,
    floats: Floats)

  datatype Phase = WaitSync | Recording(segment: Segment)

  /** A file that is no longer written to: dropped for its size, completed, or given up. */
  datatype Finished = Filtered(segment: Segment) | Finalized(segment: Segment, file: Bytes) | Failed(segment: Segment)

  /** A group that is no longer pending: written, or dropped because it repeats a recent one. */
  datatype PastGroup = PastGroup(queue: seq<Queued>, kept: bool)

  /**
    The recorder. `handled` counts the tags of the stream; `taken` and `groups` are its history:
    the media tags that were ever queued, and what became of each group of them.
   */
  datatype Recorder = Recorder(
    header: Option<FlvHeader>,
    headers: Headers,
    queue: seq<Queued>,
    history: seq<nat>,
    duplicateRun: nat,
    phase: Phase,
    nextIndex: nat,
    finished: seq<Finished>,
    handled: nat,
    taken: seq<Queued>,
    groups: seq<PastGroup>)

  /** A step's new state, and the error that ends the run if there is one. */
  datatype Step = Step(rec: Recorder, error: Option<StreamError>)

  function New(startIndex: nat): Recorder {
    Recorder(None, NO_HEADERS, [], [], 0, WaitSync, startIndex, [], 0, [], [])
  }

  function Tags(queue: seq<Queued>): (tags: seq<Tag>)
    ensures |tags| == |queue|
  {
    seq(|queue|, i requires 0 <= i < |queue| => queue[i].tag)
  }

  function GroupOf(r: Recorder): Group {
    Group(Tags(r.queue), r.history, r.duplicateRun)
  }

  // ----- Files -----

  function FirstSegment(fl: Floats, r: Recorder): Segment
    requires r.header.Some? && r.headers.Synced()
  {
    var source := r.headers.metadata.value;
    Segment(
      r.nextIndex,
      r.header.value,
      source.data,
      MetaTag(source, MetadataBody(fl, source.data, 0, [])),
      Retimed(r.headers.avc.value, 0),
      Retimed(r.headers.aac.value, 0),
      [])
  }

  function OpenNext(cfg: Config, r: Recorder): Step {
    if r.header.None? then Step(r, Some(State("FLV header missing when opening segment")))
    else if r.headers.metadata.None? then Step(r, Some(State("Metadata missing when opening segment")))
    else if r.headers.avc.None? then Step(r, Some(State("AVC sequence header missing when opening segment")))
    else if r.headers.aac.None? then Step(r, Some(State("AAC sequence header missing when opening segment")))
    else
      Step(r.(phase := Recording(FirstSegment(cfg.floats, r)),
              nextIndex := r.nextIndex + 1,
              headers := r.headers.(pendingChange := false)), None)
  }

  /** A file too small is dropped; one whose metadata cannot be rewritten in place is given up. */
  function Finish(cfg: Config, seg: Segment): Finished {
    var body := FinalBody(cfg.floats, seg);
    if |FileOf(seg)| < cfg.minSize then Filtered(seg)
    else if |body| != |seg.meta.data| || METADATA_BODY_OFFSET + |body| > |FileOf(seg)| then Failed(seg)
    else Finalized(seg, Overwritten(FileOf(seg), METADATA_BODY_OFFSET, body))
  }

  function FinalizeCurrent(cfg: Config, r: Recorder): Step {
    match r.phase
    case WaitSync => Step(r, None)
    case Recording(seg) =>
      var f := Finish(cfg, seg);
      Step(r.(phase := WaitSync, finished := r.finished + [f]),
           if f.Failed? then Some(StreamProtocol("FLV metadata rewrite size changed")) else None)
  }

  // ----- Media -----

  function Logged(phase: Phase, queue: seq<Queued>): Phase {
    match phase
    case WaitSync => WaitSync
    case Recording(seg) => Recording(seg.(log := seg.log + queue))
  }

  /** Writes the pending group out, unless it repeats a recent one; too many repeats in a row end the stream. */
  function FlushPending(cfg: Config, r: Recorder, duringStream: bool): Step {
    var g := Flushed(GroupOf(r), cfg.fingerprint);
    var r' := r.(queue := [], history := g.history, duplicateRun := g.duplicateRun);
    match FlushOf(GroupOf(r), cfg.fingerprint)
    case Empty => Step(r, None)
    case Unique(_) =>
      Step(r'.(phase := Logged(r.phase, r.queue), groups := r.groups + [PastGroup(r.queue, true)]), None)
    case Duplicate(exceeded) =>
      Step(r'.(groups := r.groups + [PastGroup(r.queue, false)]),
           if exceeded && duringStream then Some(StreamRepeatedData) else None)
  }

  predicate RotationDue(cfg: Config, r: Recorder) {
    && r.phase.Recording?
    && (|| r.headers.pendingChange
        || (cfg.sizeLimit.Some? && |FileOf(r.phase.segment)| >= cfg.sizeLimit.value)
        || cfg.timeIsUp(r.handled))
  }

  function Rotate(cfg: Config, r: Recorder): Step {
    if !RotationDue(cfg, r) then Step(r, None)
    else
      var closed := FinalizeCurrent(cfg, r);
      if closed.error.Some? then closed
      else OpenNext(cfg, if r.headers.pendingChange then closed.rec.(history := [], duplicateRun := 0) else closed.rec)
  }

  function QueueMedia(cfg: Config, r: Recorder, q: Queued, mayRotate: bool): Step {
    var flushed := if StartsNewGroup(Tags(r.queue), q.tag, q.isKeyframe) then FlushPending(cfg, r, true)
        else Step(r, None);
    if flushed.error.Some? then flushed
    else
      var rotated := if q.isKeyframe && mayRotate then Rotate(cfg, flushed.rec) else flushed;
      if rotated.error.Some? then rotated
      else Step(rotated.rec.(queue := rotated.rec.queue + [q], taken := rotated.rec.taken + [q]), None)
  }

  /** A media tag outside a file waits for a keyframe, and inside one whose headers have changed too. */
  function HandleMedia(cfg: Config, r: Recorder, q: Queued): Step {
    if r.phase.WaitSync? then
      if r.headers.Synced() && q.isKeyframe then
        var started := OpenNext(cfg, r);
        if started.error.Some? then started else QueueMedia(cfg, started.rec, q, false)
      else Step(r, None)
    else if r.headers.pendingChange && !q.isKeyframe then Step(r, None)
    else QueueMedia(cfg, r, q, true)
  }

  function HandleObserved(cfg: Config, r: Recorder, o: Observed): Step {
    match o
    case Refused(error) => Step(r, Some(error))
    case Seen(headers, Drop) => Step(r.(headers := headers), None)
    case Seen(headers, Write(t, isKeyframe)) =>
      HandleMedia(cfg, r.(headers := headers), Queued(t, r.headers, isKeyframe, r.handled))
  }

  /** Before a header tag changes what is cached, the media observed under the old headers is written. */
  function HandleTag(cfg: Config, r0: Recorder, tag: Tag): Step {
    var r := r0.(handled := r0.handled + 1);
    var flushed := if IsCacheTag(tag) then FlushPending(cfg, r, true) else Step(r, None);
    if flushed.error.Some? then flushed else HandleFlushed(cfg, flushed.rec, tag)
  }

  function HandleFlushed(cfg: Config, r: Recorder, tag: Tag): Step {
    HandleObserved(cfg, r, Observe(r.headers, tag, r.phase.Recording?))
  }

  /** The end of a recording: what is pending is written and the file is finished. */
  function FinalizeAll(cfg: Config, r: Recorder): Step {
    FinalizeCurrent(cfg, FlushPending(cfg, r, false).rec)
  }

  // ----- Runs over a stream of bytes -----

  /** Where a run stands: the recorder, the bytes not parsed yet, and the error that ended it if any. */
  datatype Progress = Progress(rec: Recorder, rest: Bytes, error: Option<StreamError>)

  /** Parses and handles every complete tag. */
  function DrainTags(cfg: Config, r: Recorder, buffer: Bytes): Progress
    decreases |buffer|
  {
    if |buffer| < TAG_HEADER_SIZE then Progress(r, buffer, None)
    else if ReadTagHeader(buffer).Failure? then Progress(r, buffer, Some(StreamProtocol("FLV tag header error")))
    else
      var span := TagSpan(ReadTagHeader(buffer).value);
      if |buffer| < span then Progress(r, buffer, None)
      else if ReadTag(buffer).Failure? then Progress(r, buffer, Some(StreamProtocol("FLV tag read error")))
      else
        var step := HandleTag(cfg, r, ReadTag(buffer).value);
        if step.error.Some? then Progress(step.rec, buffer[span..], step.error)
        else DrainTags(cfg, step.rec, buffer[span..])
  }

  function Drain(cfg: Config, r: Recorder, buffer: Bytes): Progress {
    if r.header.Some? then DrainTags(cfg, r, buffer)
    else if |buffer| < FILE_HEADER_SIZE then Progress(r, buffer, None)
    else if ReadHeader(buffer).Failure? then Progress(r, buffer, Some(StreamProtocol("FLV header error")))
    else if Unsigned(buffer[9..][..4]) != 0
        then Progress(r, buffer, Some(StreamProtocol("Invalid initial previous tag size")))
    else DrainTags(cfg, r.(header := Some(ReadHeader(buffer).value)), buffer[FILE_HEADER_SIZE..])
  }

  /** One chunk more. After an error nothing more is parsed. */
  function Push(cfg: Config, p: Progress, chunk: Bytes): Progress {
    if p.error.Some? then p.(rest := p.rest + chunk) else Drain(cfg, p.rec, p.rest + chunk)
  }

  function PushAll(cfg: Config, p: Progress, chunks: seq<Bytes>): Progress {
    if chunks == [] then p else Push(cfg, PushAll(cfg, p, chunks[..|chunks| - 1]), chunks[|chunks| - 1])
  }

  function Flat(chunks: seq<Bytes>): Bytes {
    if chunks == [] then [] else Flat(chunks[..|chunks| - 1]) + chunks[|chunks| - 1]
  }

  /**
    How a recording ends: in good order, also after too much repeated data, or with the file being
    written given up.
   */
  function End(cfg: Config, p: Progress): Recorder {
    if p.error.None? || p.error.value.StreamRepeatedData? then FinalizeAll(cfg, p.rec).rec
    else p.rec.(phase := WaitSync)
  }

  // ----- Chunk independence -----

  lemma ReadTagHeaderStable(s: Bytes, more: Bytes)
    requires |s| >= TAG_HEADER_SIZE
    ensures ReadTagHeader(s + more) == ReadTagHeader(s)
  {
    var all := s + more;
    assert all[1..4] == s[1..4] && all[4..7] == s[4..7] && all[8..11] == s[8..11];
  }

  lemma ReadTagStable(s: Bytes, more: Bytes)
    requires ReadTagHeader(s).Success? && |s| >= TagSpan(ReadTagHeader(s).value)
    ensures ReadTag(s + more) == ReadTag(s)
  {
    ReadTagHeaderStable(s, more);
    var n := ReadTagHeader(s).value.dataSize;
    DropOfConcat(s, more, TAG_HEADER_SIZE);
    DropOfConcat(s[TAG_HEADER_SIZE..], more, n);
    TakeOfConcat(s[TAG_HEADER_SIZE..], more, n);
    TakeOfConcat(s[TAG_HEADER_SIZE..][n..], more, 4);
  }

  lemma DropOfConcat(s: Bytes, more: Bytes, n: nat)
    requires n <= |s|
    ensures (s + more)[n..] == s[n..] + more
  {
  }

  lemma TakeOfConcat(s: Bytes, more: Bytes, n: nat)
    requires n <= |s|
    ensures (s + more)[..n] == s[..n]
  {
  }

  /** Bytes that come later do not change what was parsed; they only go on from where it stopped. */
  lemma {:induction false} DrainTagsStable(cfg: Config, r: Recorder, buffer: Bytes, more: Bytes)
    ensures DrainTags(cfg, r, buffer + more) ==
            var p := DrainTags(cfg, r, buffer);
            if p.error.Some? then p.(rest := p.rest + more) else DrainTags(cfg, p.rec, p.rest + more)
    decreases |buffer|
  {
    if |buffer| >= TAG_HEADER_SIZE {
      ReadTagHeaderStable(buffer, more);
      if ReadTagHeader(buffer).Success? {
        var span := TagSpan(ReadTagHeader(buffer).value);
        if |buffer| >= span {
          ReadTagStable(buffer, more);
          DropOfConcat(buffer, more, span);
          if ReadTag(buffer).Success? {
            var step := HandleTag(cfg, r, ReadTag(buffer).value);
            if step.error.None? {
              DrainTagsStable(cfg, step.rec, buffer[span..], more);
            }
          }
        }
      }
    }
  }

  // No step ever loses the stream's header.

  lemma FlushKeepsHeader(cfg: Config, r: Recorder, duringStream: bool)
    ensures FlushPending(cfg, r, duringStream).rec.header == r.header
  {
  }

  lemma CloseKeepsHeader(cfg: Config, r: Recorder)
    ensures FinalizeCurrent(cfg, r).rec.header == r.header
  {
  }

  lemma OpenKeepsHeader(cfg: Config, r: Recorder)
    ensures OpenNext(cfg, r).rec.header == r.header
  {
  }

  lemma RotateKeepsHeader(cfg: Config, r: Recorder)
    ensures Rotate(cfg, r).rec.header == r.header
  {
    CloseKeepsHeader(cfg, r);
    var closed := FinalizeCurrent(cfg, r).rec;
    OpenKeepsHeader(cfg, closed);
    OpenKeepsHeader(cfg, closed.(history := [], duplicateRun := 0));
  }

  lemma QueueKeepsHeader(cfg: Config, r: Recorder, q: Queued, mayRotate: bool)
    ensures QueueMedia(cfg, r, q, mayRotate).rec.header == r.header
  {
    FlushKeepsHeader(cfg, r, true);
    RotateKeepsHeader(cfg, r);
    RotateKeepsHeader(cfg, FlushPending(cfg, r, true).rec);
  }

  lemma MediaKeepsHeader(cfg: Config, r: Recorder, q: Queued)
    ensures HandleMedia(cfg, r, q).rec.header == r.header
  {
    OpenKeepsHeader(cfg, r);
    QueueKeepsHeader(cfg, OpenNext(cfg, r).rec, q, false);
    QueueKeepsHeader(cfg, r, q, true);
  }

  lemma ObservedKeepsHeader(cfg: Config, r: Recorder, o: Observed)
    ensures HandleObserved(cfg, r, o).rec.header == r.header
  {
    if o.Seen? && o.action.Write? {
      MediaKeepsHeader(cfg, r.(headers := o.headers), Queued(o.action.tag, r.headers, o.action.isKeyframe, r.handled));
    }
  }

  lemma HandleKeepsHeader(cfg: Config, r0: Recorder, tag: Tag)
    ensures HandleTag(cfg, r0, tag).rec.header == r0.header
  {
    hide FlushPending, HandleFlushed;
    var r := r0.(handled := r0.handled + 1);
    FlushKeepsHeader(cfg, r, true);
    FlushedKeepsHeader(cfg, FlushPending(cfg, r, true).rec, tag);
    FlushedKeepsHeader(cfg, r, tag);
  }

  lemma FlushedKeepsHeader(cfg: Config, r: Recorder, tag: Tag)
    ensures HandleFlushed(cfg, r, tag).rec.header == r.header
  {
    ObservedKeepsHeader(cfg, r, Observe(r.headers, tag, r.phase.Recording?));
  }

  lemma {:induction false} DrainTagsKeepsHeader(cfg: Config, r: Recorder, buffer: Bytes)
    ensures DrainTags(cfg, r, buffer).rec.header == r.header
    decreases |buffer|
  {
    if ReadTagHeader(buffer).Success? && |buffer| >= TagSpan(ReadTagHeader(buffer).value) && ReadTag(buffer).Success? {
      var step := HandleTag(cfg, r, ReadTag(buffer).value);
      HandleKeepsHeader(cfg, r, ReadTag(buffer).value);
      if step.error.None? {
        DrainTagsKeepsHeader(cfg, step.rec, buffer[TagSpan(ReadTagHeader(buffer).value)..]);
      }
    }
  }

  lemma ReadHeaderStable(buffer: Bytes, more: Bytes)
    requires |buffer| >= FILE_HEADER_SIZE
    ensures ReadHeader(buffer + more) == ReadHeader(buffer)
    ensures (buffer + more)[9..][..4] == buffer[9..][..4]
  {
    var all := buffer + more;
    assert all[..3] == buffer[..3] && all[5..9] == buffer[5..9];
    DropOfConcat(buffer, more, 9);
    TakeOfConcat(buffer[9..], more, 4);
  }

  lemma DrainStable(cfg: Config, r: Recorder, buffer: Bytes, more: Bytes)
    ensures Drain(cfg, r, buffer + more) == Push(cfg, Drain(cfg, r, buffer), more)
  {
    if r.header.Some? {
      DrainTagsStable(cfg, r, buffer, more);
      DrainTagsKeepsHeader(cfg, r, buffer);
    } else if |buffer| >= FILE_HEADER_SIZE {
      ReadHeaderStable(buffer, more);
      DropOfConcat(buffer, more, FILE_HEADER_SIZE);
      if ReadHeader(buffer).Success? {
        var r' := r.(header := Some(ReadHeader(buffer).value));
        DrainTagsStable(cfg, r', buffer[FILE_HEADER_SIZE..], more);
        DrainTagsKeepsHeader(cfg, r', buffer[FILE_HEADER_SIZE..]);
      }
    }
  }

  /**
    However a stream is cut into chunks, the recorder ends in the state of one pass over the whole
    stream: the same tags handled, the same files, the same first error and the same bytes left.
   */
  lemma {:induction false} ChunkIndependence(cfg: Config, r: Recorder, chunks: seq<Bytes>)
    ensures PushAll(cfg, Progress(r, [], None), chunks) == Drain(cfg, r, Flat(chunks))
  {
    if chunks != [] {
      var earlier, last := chunks[..|chunks| - 1], chunks[|chunks| - 1];
      ChunkIndependence(cfg, r, earlier);
      DrainStable(cfg, r, Flat(earlier), last);
    }
  }
}
