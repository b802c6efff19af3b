/**
  What a recording keeps of its stream: which media tags are taken, what becomes of them, and
  which keyframes speak for parameter sets of their own.
 */
module StreamLedger {
  import opened Wrappers
  import opened ByteStrings
  import opened Sequences
  import opened FlvFormat
  import opened AvcPayload
  import opened FlvPipeline
  import opened Metadata
  import opened SegmentFile
  import opened Recorder
  import opened Epochs

  // ----- A run over tags -----

  /** The tags of a stream of bytes. */
  function StreamTags(stream: Bytes): seq<Tag> {
    if |stream| < FILE_HEADER_SIZE then [] else ReadTags(stream[FILE_HEADER_SIZE..]).0
  }

  /** Handles tags one by one; nothing is handled after an error. */
  function HandleAll(cfg: Config, r: Recorder, tags: seq<Tag>): Step
    decreases |tags|
  {
    if tags == [] then Step(r, None)
    else
      var s := HandleTag(cfg, r, tags[0]);
      if s.error.Some? then s else HandleAll(cfg, s.rec, tags[1..])
  }

  function Resume(cfg: Config, s: Step, tag: Tag): Step {
    if s.error.Some? then s else HandleTag(cfg, s.rec, tag)
  }

  lemma {:induction false} HandleAllMore(cfg: Config, r: Recorder, tags: seq<Tag>, tag: Tag)
    ensures HandleAll(cfg, r, tags + [tag]) == Resume(cfg, HandleAll(cfg, r, tags), tag)
    decreases |tags|
  {
    hide HandleTag;
    if tags == [] {
      NoneAdded([tag]);
      assert [tag][1..] == [];
    } else {
      Peel(tags, [tag]);
      var s := HandleTag(cfg, r, tags[0]);
      if s.error.None? {
        HandleAllMore(cfg, s.rec, tags[1..], tag);
      }
    }
  }

  lemma ReadTagNeeds(s: Bytes)
    ensures ReadTag(s).Success? ==>
              && |s| >= TAG_HEADER_SIZE && ReadTagHeader(s).Success?
              && ReadTag(s).value.header == ReadTagHeader(s).value && |s| >= TagSpan(ReadTagHeader(s).value)
  {
  }

  lemma {:induction false} DrainTagsHandlesAll(cfg: Config, r: Recorder, buffer: Bytes)
    ensures DrainTags(cfg, r, buffer).rec == HandleAll(cfg, r, ReadTags(buffer).0).rec
    ensures HandleAll(cfg, r, ReadTags(buffer).0).error.Some? ==>
              DrainTags(cfg, r, buffer).error == HandleAll(cfg, r, ReadTags(buffer).0).error
    ensures HandleAll(cfg, r, ReadTags(buffer).0).error.None? && ReadTags(buffer).1 == [] ==>
              DrainTags(cfg, r, buffer).error.None?
    decreases |buffer|
  {
    hide HandleTag, ReadTag, ReadTagHeader;
    ReadTagNeeds(buffer);
    if ReadTag(buffer).Success? {
      TagRewrites(buffer);
      var tag := ReadTag(buffer).value;
      var others := ReadTags(buffer[TagSpan(tag.header)..]).0;
      Peel([tag], others);
      var s := HandleTag(cfg, r, tag);
      if s.error.None? {
        DrainTagsHandlesAll(cfg, s.rec, buffer[TagSpan(tag.header)..]);
      }
    }
  }

  /** A recorder that has read the stream's header and nothing else. */
  function Started(startIndex: nat, header: FlvHeader): Recorder {
    New(startIndex).(header := Some(header))
  }

  /** A run over some tags of a stream. */
  ghost predicate RunOver(cfg: Config, startIndex: nat, tags: seq<Tag>, s: Step) {
    exists header :: s == HandleAll(cfg, Started(startIndex, header), tags)
  }

  function Pushed(cfg: Config, startIndex: nat, chunks: seq<Bytes>): Progress {
    PushAll(cfg, Progress(New(startIndex), [], None), chunks)
  }

  /** Whatever the chunks, the recorder got where its stream's tags take it, unless it never saw a header. */
  lemma PushedOverTags(cfg: Config, startIndex: nat, chunks: seq<Bytes>) returns (s: Step)
    ensures var p := Pushed(cfg, startIndex, chunks);
            && p.rec == s.rec && (s.error.Some? ==> p.error == s.error)
            && (s == Step(New(startIndex), None) || RunOver(cfg, startIndex, StreamTags(Flat(chunks)), s))
  {
    hide DrainTags, HandleAll, ReadHeader;
    var stream := Flat(chunks);
    ChunkIndependence(cfg, New(startIndex), chunks);
    s := Step(New(startIndex), None);
    if Pushed(cfg, startIndex, chunks).rec != New(startIndex) {
      var header := ReadHeader(stream).value;
      DrainTagsHandlesAll(cfg, Started(startIndex, header), stream[FILE_HEADER_SIZE..]);
      s := HandleAll(cfg, Started(startIndex, header), StreamTags(stream));
    }
  }

  // ----- What one tag does -----

  /**
    A media tag is taken while a file is written, or with a keyframe that starts one; a due change
    waits for a keyframe.
   */
  predicate Admits(r: Recorder, tag: Tag) {
    var o := Observe(r.headers, tag, r.phase.Recording?);
    && o.Seen? && o.action.Write?
    && (if r.phase.WaitSync? then r.headers.Synced() && o.action.isKeyframe
        else !r.headers.pendingChange || o.action.isKeyframe)
  }

  /** What is queued for it. */
  function Entry(r: Recorder, tag: Tag): Queued
    requires Admits(r, tag)
  {
    var action := Observe(r.headers, tag, r.phase.Recording?).action;
    Queued(action.tag, r.headers, action.isKeyframe, r.handled + 1)
  }

  function EntryOf(r: Recorder, tag: Tag): seq<Queued> {
    if Admits(r, tag) then [Entry(r, tag)] else []
  }

  /** Whether a new file is due aside, the headers are these. */
  predicate HeadersAre(r: Recorder, h: Headers) {
    r.headers == h.(pendingChange := r.headers.pendingChange)
  }

  /** A step that took these entries, or ended the run. */
  ghost predicate Takes(before: Recorder, s: Step, h: Headers, entries: seq<Queued>) {
    && s.rec.handled == before.handled
    && (s.error.None? ==> HeadersAre(s.rec, h) && s.rec.taken == before.taken + entries)
    && (s.error.Some? ==> s.rec.taken == before.taken)
  }

  lemma FlushTakes(cfg: Config, r: Recorder, duringStream: bool)
    ensures Takes(r, FlushPending(cfg, r, duringStream), r.headers, [])
    ensures FlushPending(cfg, r, duringStream).rec.headers == r.headers
    ensures FlushPending(cfg, r, duringStream).rec.phase.Recording? == r.phase.Recording?
  {
    NoneAdded(r.taken);
  }

  lemma OpenTakes(cfg: Config, r: Recorder)
    ensures Takes(r, OpenNext(cfg, r), r.headers, [])
  {
    NoneAdded(r.taken);
  }

  lemma CloseTakes(cfg: Config, r: Recorder)
    ensures Takes(r, FinalizeCurrent(cfg, r), r.headers, []) && FinalizeCurrent(cfg, r).rec.headers == r.headers
  {
    hide Finish;
    NoneAdded(r.taken);
  }

  lemma RotateTakes(cfg: Config, r: Recorder)
    ensures Takes(r, Rotate(cfg, r), r.headers, [])
  {
    hide FinalizeCurrent, OpenNext, RotationDue;
    NoneAdded(r.taken);
    CloseTakes(cfg, r);
    var closed := FinalizeCurrent(cfg, r).rec;
    OpenTakes(cfg, if r.headers.pendingChange then closed.(history := [], duplicateRun := 0) else closed);
  }

  lemma QueueTakes(cfg: Config, r: Recorder, q: Queued, mayRotate: bool)
    ensures Takes(r, QueueMedia(cfg, r, q, mayRotate), r.headers, [q])
  {
    hide FlushPending, Rotate;
    NoneAdded(r.taken);
    FlushTakes(cfg, r, true);
    RotateTakes(cfg, r);
    RotateTakes(cfg, FlushPending(cfg, r, true).rec);
  }

  lemma MediaTakes(cfg: Config, r: Recorder, q: Queued)
    ensures var admitted := if r.phase.WaitSync? then r.headers.Synced() && q.isKeyframe
            else !r.headers.pendingChange || q.isKeyframe;
            Takes(r, HandleMedia(cfg, r, q), r.headers, if admitted then [q] else [])
  {
    hide OpenNext, QueueMedia;
    NoneAdded(r.taken);
    OpenTakes(cfg, r);
    QueueTakes(cfg, OpenNext(cfg, r).rec, q, false);
    QueueTakes(cfg, r, q, true);
  }

  /** A media tag to be written changes nothing that decides whether it is taken. */
  lemma WrittenIsMedia(h: Headers, tag: Tag, recording: bool)
    requires Observe(h, tag, recording).Seen? && Observe(h, tag, recording).action.Write?
    ensures SameDecoding(h, Observe(h, tag, recording).headers) && !IsCacheTag(tag)
  {
  }

  lemma FlushedTakes(cfg: Config, r: Recorder, tag: Tag)
    requires r.handled > 0
    ensures var o, s := Observe(r.headers, tag, r.phase.Recording?), HandleFlushed(cfg, r, tag);
            && (o.Refused? ==> s.error.Some?)
            && (o.Seen? ==> Takes(r, s, o.headers, EntryOf(r.(handled := r.handled - 1), tag)))
            && (s.error.Some? ==> s.rec.taken == r.taken) && s.rec.handled == r.handled
  {
    hide Observe, HandleMedia, IsCacheTag;
    var o := Observe(r.headers, tag, r.phase.Recording?);
    NoneAdded(r.taken);
    if o.Seen? && o.action.Write? {
      WrittenIsMedia(r.headers, tag, r.phase.Recording?);
      MediaTakes(cfg, r.(headers := o.headers), Queued(o.action.tag, r.headers, o.action.isKeyframe, r.handled));
    }
  }

  /** Handling a tag takes it exactly if it is admitted, and caches what was observed. */
  lemma HandleTakes(cfg: Config, r: Recorder, tag: Tag)
    ensures var o, s := Observe(r.headers, tag, r.phase.Recording?), HandleTag(cfg, r, tag);
            && s.rec.handled == r.handled + 1
            && (s.error.None? ==> o.Seen? && HeadersAre(s.rec, o.headers) && s.rec.taken == r.taken + EntryOf(r, tag))
            && (s.error.Some? ==> s.rec.taken == r.taken)
  {
    hide Observe, HandleFlushed, FlushPending, IsCacheTag;
    var counted := r.(handled := r.handled + 1);
    FlushTakes(cfg, counted, true);
    var flushed := if IsCacheTag(tag) then FlushPending(cfg, counted, true) else Step(counted, None);
    NoneAdded(r.taken);
    if flushed.error.None? {
      FlushedTakes(cfg, flushed.rec, tag);
      SameEntry(r, flushed.rec.(handled := r.handled), tag);
    }
  }

  lemma SameEntry(r: Recorder, r': Recorder, tag: Tag)
    requires r'.headers == r.headers && r'.phase.Recording? == r.phase.Recording? && r'.handled == r.handled
    ensures EntryOf(r', tag) == EntryOf(r, tag)
  {
  }

  // ----- What is taken of a stream -----

  /** The AVC header sent last, of those that can be used. */
  function LastAvc(tags: seq<Tag>): (r: Option<Tag>)
    ensures r.Some? ==> |r.value.data| >= 10
  {
    if tags == [] then None
    else
      var earlier, last := LastAvc(tags[..|tags| - 1]), tags[|tags| - 1];
      if last.header.tagType.Video? && |last.data| >= 10 && last.data[0] % 16 == 7 && last.data[1] == 0
         && last.data[5] == 1 && last.data[9] % 4 != 2
      then Some(last) else earlier
  }

  /** The audio header sent last. */
  function LastAac(tags: seq<Tag>): Option<Tag> {
    if tags == [] then None
    else
      var earlier, last := LastAac(tags[..|tags| - 1]), tags[|tags| - 1];
      if last.header.tagType.Audio? && |last.data| >= 2 && last.data[0] / 16 == 10 && last.data[1] == 0
      then Some(last) else earlier
  }

  /** The length size announced last. */
  function LengthSize(tags: seq<Tag>): Option<nat> {
    var header := LastAvc(tags);
    if header.None? then None else Some(header.value.data[9] % 4 + 1)
  }

  /** How many keyframes brought both kinds of parameter sets with them. */
  function Carriers(tags: seq<Tag>): nat {
    if tags == [] then 0
    else
      var earlier, last := tags[..|tags| - 1], tags[|tags| - 1];
      Carriers(earlier) + if BringsSets(last, LengthSize(earlier)) then 1 else 0
  }

  /** A keyframe with a sequence parameter set and a picture parameter set among its units. */
  predicate BringsSets(tag: Tag, size: Option<nat>) {
    && tag.header.tagType.Video? && [0x17, 0x01] <= tag.data
    && size.Some? && Nalus(tag.data, size.value).Good?
    && Has(Nalus(tag.data, size.value).value, 7) && Has(Nalus(tag.data, size.value).value, 8)
  }

  /** The tag as it is written: without filler where its units can be told apart. */
  function CleanTag(tag: Tag, size: Option<nat>): Tag {
    if tag.header.tagType.Video? && |tag.data| >= 2 && tag.data[0] % 16 == 7 && tag.data[1] == 1
       && size.Some? && Nalus(tag.data, size.value).Good? then
      var data := Cleaned(tag.data, size.value);
      Tag(tag.header.(dataSize := |data| % U32_SPAN), data)
    else tag
  }

  /** An entry is the cleaned tag of its place, seen under the headers that the stream had sent last by then. */
  ghost predicate EntryOk(tags: seq<Tag>, q: Queued) {
    && 1 <= q.place <= |tags|
    && var earlier := tags[..q.place - 1];
    && q.tag == CleanTag(tags[q.place - 1], LengthSize(earlier))
    && (q.isKeyframe <==> tags[q.place - 1].header.tagType.Video? && [0x17, 0x01] <= tags[q.place - 1].data)
    && q.seen.avc == LastAvc(earlier) && q.seen.aac == LastAac(earlier) && q.seen.lengthSize == LengthSize(earlier)
    && (q.seen.inBand ==> Carriers(earlier) >= IN_BAND_CONFIRMATIONS)
  }

  ghost predicate EntriesOk(tags: seq<Tag>, taken: seq<Queued>) {
    && (forall i | 0 <= i < |taken| :: EntryOk(tags, taken[i]))
    && (forall i, j | 0 <= i < j < |taken| :: taken[i].place < taken[j].place)
  }

  /** What the headers know comes from the stream. */
  ghost predicate HeadersFrom(tags: seq<Tag>, h: Headers) {
    && h.avc == LastAvc(tags) && h.aac == LastAac(tags) && h.lengthSize == LengthSize(tags)
    && InBandOk(h) && h.inBandSeen <= Carriers(tags)
  }

  lemma HeadersStep(h: Headers, tags: seq<Tag>, tag: Tag, recording: bool)
    requires HeadersFrom(tags, h) && Observe(h, tag, recording).Seen?
    ensures HeadersFrom(tags + [tag], Observe(h, tag, recording).headers)
  {
    Parts(tags, [tag]);
    InBandStep(h, tag, recording);
  }

  lemma WrittenIsClean(h: Headers, tag: Tag, recording: bool)
    requires tag.Fits() && Observe(h, tag, recording).Seen? && Observe(h, tag, recording).action.Write?
    ensures var action := Observe(h, tag, recording).action;
            && action.tag == CleanTag(tag, h.lengthSize)
            && (action.isKeyframe <==> tag.header.tagType.Video? && [0x17, 0x01] <= tag.data)
  {
    hide Nalus, Cleaned, Kept, Has, NoteInBand;
    if tag.header.tagType.Video? && IsAvcNaluPacket(tag.data) && h.lengthSize.Some?
        && Nalus(tag.data, h.lengthSize.value).Good? {
      CleanedAccounts(tag.data, h.lengthSize.value);
    }
  }

  lemma EntryStays(tags: seq<Tag>, tag: Tag, q: Queued)
    requires EntryOk(tags, q)
    ensures EntryOk(tags + [tag], q) && q.place <= |tags|
  {
    assert (tags + [tag])[..q.place - 1] == tags[..q.place - 1];
  }

  /** Everything said about a run over tags holds after one tag more. */
  ghost predicate TagsOk(tags: seq<Tag>, s: Step) {
    && EntriesOk(tags, s.rec.taken)
    && (s.error.None? ==> s.rec.handled == |tags| && HeadersFrom(tags, s.rec.headers))
  }

  lemma TagsOkStep(cfg: Config, tags: seq<Tag>, s: Step, tag: Tag)
    requires TagsOk(tags, s) && tag.Fits()
    ensures TagsOk(tags + [tag], Resume(cfg, s, tag))
  {
    hide Observe, HandleTag, EntryOk, HeadersFrom, CleanTag, Carriers, LengthSize, LastAvc, LastAac;
    forall i | 0 <= i < |s.rec.taken| ensures EntryOk(tags + [tag], s.rec.taken[i]) && s.rec.taken[i].place <= |tags| {
      EntryStays(tags, tag, s.rec.taken[i]);
    }
    if s.error.None? {
      HandleTakes(cfg, s.rec, tag);
      NoneAdded(s.rec.taken);
      var next := Resume(cfg, s, tag);
      if next.error.None? {
        HeadersStep(s.rec.headers, tags, tag, s.rec.phase.Recording?);
        DueAside(tags + [tag], next.rec, Observe(s.rec.headers, tag, s.rec.phase.Recording?).headers);
        if Admits(s.rec, tag) {
          EntryIsOk(tags, s.rec, tag);
          EntriesGrow(tags + [tag], s.rec.taken, Entry(s.rec, tag));
        }
      }
    }
  }

  lemma DueAside(tags: seq<Tag>, r: Recorder, h: Headers)
    requires HeadersFrom(tags, h) && HeadersAre(r, h)
    ensures HeadersFrom(tags, r.headers)
  {
  }

  lemma EntryIsOk(tags: seq<Tag>, r: Recorder, tag: Tag)
    requires HeadersFrom(tags, r.headers) && r.handled == |tags| && tag.Fits() && Admits(r, tag)
    ensures EntryOk(tags + [tag], Entry(r, tag)) && Entry(r, tag).place == |tags| + 1
  {
    Parts(tags, [tag]);
    WrittenIsClean(r.headers, tag, r.phase.Recording?);
  }

  lemma EntriesGrow(tags: seq<Tag>, taken: seq<Queued>, q: Queued)
    requires EntryOk(tags, q) && q.place == |tags| && |tags| > 0
    requires forall i | 0 <= i < |taken| :: EntryOk(tags, taken[i]) && taken[i].place < |tags|
    requires forall i, j | 0 <= i < j < |taken| :: taken[i].place < taken[j].place
    ensures EntriesOk(tags, taken + [q])
  {
  }

  lemma {:induction false} RunTags(cfg: Config, r: Recorder, tags: seq<Tag>)
    requires r.taken == [] && r.handled == 0 && r.headers == NO_HEADERS && AllFit(tags)
    ensures TagsOk(tags, HandleAll(cfg, r, tags))
    decreases |tags|
  {
    hide HandleTag, EntryOk;
    if tags != [] {
      var earlier, last := tags[..|tags| - 1], tags[|tags| - 1];
      assert tags == earlier + [last];
      RunTags(cfg, r, earlier);
      HandleAllMore(cfg, r, earlier, last);
      TagsOkStep(cfg, earlier, HandleAll(cfg, r, earlier), last);
    }
  }

  // ----- What becomes of it -----

  function LogsOf(finished: seq<Finished>): seq<Queued> {
    if finished == [] then [] else LogsOf(finished[..|finished| - 1]) + finished[|finished| - 1].segment.log
  }

  /** What was written to the recorder's files, in order. */
  function Written(r: Recorder): seq<Queued> {
    LogsOf(r.finished) + if r.phase.Recording? then r.phase.segment.log else []
  }

  function AllOf(groups: seq<PastGroup>): seq<Queued> {
    if groups == [] then [] else AllOf(groups[..|groups| - 1]) + groups[|groups| - 1].queue
  }

  function KeptOf(groups: seq<PastGroup>): seq<Queued> {
    if groups == [] then []
    else KeptOf(groups[..|groups| - 1]) + if groups[|groups| - 1].kept then groups[|groups| - 1].queue else []
  }

  function Mark(cfg: Config, g: PastGroup): nat {
    cfg.fingerprint(Tags(g.queue))
  }

  /** One of the first `n` groups was written and has this fingerprint. */
  ghost predicate Marked(cfg: Config, groups: seq<PastGroup>, n: nat, mark: nat) {
    exists i :: 0 <= i < n <= |groups| && groups[i].kept && Mark(cfg, groups[i]) == mark
  }

  /**
    Every media tag that was taken is in one group or still pending, in order; the files hold the
    groups that were written, in order; and every other group repeats one of those before it.
   */
  ghost predicate Accounted(cfg: Config, r: Recorder) {
    && r.taken == AllOf(r.groups) + r.queue
    && Written(r) == KeptOf(r.groups)
    && (forall i | 0 <= i < |r.history| :: Marked(cfg, r.groups, |r.groups|, r.history[i]))
    && (forall i | 0 <= i < |r.groups| && !r.groups[i].kept :: Marked(cfg, r.groups, i, Mark(cfg, r.groups[i])))
  }

  /** Nothing is pending that no file is open for. */
  predicate NoneStranded(r: Recorder) {
    r.phase.WaitSync? ==> r.queue == []
  }

  lemma MarkedStays(cfg: Config, groups: seq<PastGroup>, g: PastGroup, n: nat, mark: nat)
    requires Marked(cfg, groups, n, mark)
    ensures Marked(cfg, groups + [g], n, mark)
  {
    var i :| 0 <= i < n <= |groups| && groups[i].kept && Mark(cfg, groups[i]) == mark;
    assert (groups + [g])[i] == groups[i];
  }

  lemma MarkedLater(cfg: Config, groups: seq<PastGroup>, n: nat, n': nat, mark: nat)
    requires Marked(cfg, groups, n, mark) && n <= n' <= |groups|
    ensures Marked(cfg, groups, n', mark)
  {
    var i :| 0 <= i < n <= |groups| && groups[i].kept && Mark(cfg, groups[i]) == mark;
    assert 0 <= i < n';
  }

  /** One group more. */
  lemma GroupsGrow(groups: seq<PastGroup>, g: PastGroup)
    ensures AllOf(groups + [g]) == AllOf(groups) + g.queue
    ensures KeptOf(groups + [g]) == KeptOf(groups) + if g.kept then g.queue else []
  {
    Parts(groups, [g]);
  }

  lemma FlushAccounts(cfg: Config, r: Recorder, duringStream: bool)
    requires Accounted(cfg, r) && NoneStranded(r)
    ensures Accounted(cfg, FlushPending(cfg, r, duringStream).rec) && FlushPending(cfg, r, duringStream).rec.queue == []
  {
    if r.queue != [] {
      hide AllOf, KeptOf, Written, Marked;
      var mark := cfg.fingerprint(Tags(r.queue));
      var g := PastGroup(r.queue, mark !in r.history);
      var next := FlushPending(cfg, r, duringStream).rec;
      assert next.groups == r.groups + [g] && next.queue == [] && next.taken == r.taken;
      GroupsGrow(r.groups, g);
      NoneAdded(AllOf(next.groups));
      WrittenGrows(r, g.kept);
      MarksGrow(cfg, r.groups, g, r.history);
      if g.kept {
        NewMark(cfg, r.groups, g);
        HistoryGrows(cfg, next.groups, r.history, mark);
      }
    }
  }

  lemma WrittenGrows(r: Recorder, kept: bool)
    requires r.phase.Recording?
    ensures Written(r.(phase := Logged(r.phase, r.queue))) == Written(r) + r.queue
    ensures Written(r) + [] == Written(r)
  {
    Assoc(LogsOf(r.finished), r.phase.segment.log, r.queue);
  }

  lemma MarksGrow(cfg: Config, groups: seq<PastGroup>, g: PastGroup, history: seq<nat>)
    requires forall i | 0 <= i < |history| :: Marked(cfg, groups, |groups|, history[i])
    requires forall i | 0 <= i < |groups| && !groups[i].kept :: Marked(cfg, groups, i, Mark(cfg, groups[i]))
    requires g.kept || Mark(cfg, g) in history
    ensures var all := groups + [g];
            && (forall i | 0 <= i < |history| :: Marked(cfg, all, |all|, history[i]))
            && (forall i | 0 <= i < |all| && !all[i].kept :: Marked(cfg, all, i, Mark(cfg, all[i])))
  {
    hide Marked, Mark;
    var all := groups + [g];
    forall i | 0 <= i < |history| ensures Marked(cfg, all, |groups|, history[i])
        && Marked(cfg, all, |all|, history[i]) {
      MarkedStays(cfg, groups, g, |groups|, history[i]);
      MarkedLater(cfg, all, |groups|, |all|, history[i]);
    }
    forall i | 0 <= i < |all| && !all[i].kept ensures Marked(cfg, all, i, Mark(cfg, all[i])) {
      if i < |groups| {
        MarkedStays(cfg, groups, g, i, Mark(cfg, groups[i]));
      }
    }
  }

  lemma NewMark(cfg: Config, groups: seq<PastGroup>, g: PastGroup)
    requires g.kept
    ensures Marked(cfg, groups + [g], |groups| + 1, Mark(cfg, g))
  {
    assert (groups + [g])[|groups|] == g;
  }

  lemma HistoryGrows(cfg: Config, groups: seq<PastGroup>, history: seq<nat>, mark: nat)
    requires forall i | 0 <= i < |history| :: Marked(cfg, groups, |groups|, history[i])
    requires Marked(cfg, groups, |groups|, mark)
    ensures forall i | 0 <= i < |Remember(history, mark)| :: Marked(cfg, groups, |groups|, Remember(history, mark)[i])
  {
    hide Marked;
    forall i | 0 <= i < |Remember(history, mark)| ensures Marked(cfg, groups, |groups|, Remember(history, mark)[i]) {
      assert Remember(history, mark)[i] in history + [mark];
    }
  }

  /** Closing a file moves nothing. */
  lemma CloseAccounts(cfg: Config, r: Recorder)
    requires Accounted(cfg, r)
    ensures Accounted(cfg, FinalizeCurrent(cfg, r).rec) && FinalizeCurrent(cfg, r).rec.phase.WaitSync?
  {
    hide Marked, Finish;
    if r.phase.Recording? {
      var f := Finish(cfg, r.phase.segment);
      FinishedSegment(cfg, r.phase.segment);
      Parts(r.finished, [f]);
      NoneAdded(Written(r));
    }
  }

  lemma FinishedSegment(cfg: Config, seg: Segment)
    ensures Finish(cfg, seg).segment == seg
  {
  }

  /** And a new file starts empty; what it cannot repeat may be forgotten. */
  lemma OpenAccounts(cfg: Config, r: Recorder, history: seq<nat>, duplicateRun: nat)
    requires Accounted(cfg, r) && r.phase.WaitSync? && (history == r.history || history == [])
    ensures var s := OpenNext(cfg, r.(history := history, duplicateRun := duplicateRun));
            Accounted(cfg, s.rec) && (s.error.None? ==> s.rec.phase.Recording?)
                && (s.error.Some? ==> s.error.value.State?)
  {
    hide Marked, AllOf, KeptOf, MetadataBody, MetaTag, Retimed;
  }

  lemma RotateAccounts(cfg: Config, r: Recorder)
    requires Accounted(cfg, r) && NoneStranded(r)
    ensures var s := Rotate(cfg, r);
            Accounted(cfg, s.rec) && (s.error.None? ==> NoneStranded(s.rec))
                && (s.error.Some? ==> !s.error.value.StreamRepeatedData?)
    ensures r.phase.Recording? && Rotate(cfg, r).error.None? ==> Rotate(cfg, r).rec.phase.Recording?
  {
    hide Accounted, OpenNext, Finish;
    CloseAccounts(cfg, r);
    var closed := FinalizeCurrent(cfg, r).rec;
    OpenAccounts(cfg, closed, [], 0);
    OpenAccounts(cfg, closed, closed.history, closed.duplicateRun);
  }

  /** A step kept the accounts, and stranded nothing unless the file being written was given up. */
  ghost predicate KeptAccounts(cfg: Config, s: Step) {
    && Accounted(cfg, s.rec)
    && (s.error.None? || s.error.value.StreamRepeatedData? ==> NoneStranded(s.rec))
  }

  lemma EnqueueAccounts(cfg: Config, r: Recorder, q: Queued)
    requires Accounted(cfg, r) && r.phase.Recording?
    ensures KeptAccounts(cfg, Step(r.(queue := r.queue + [q], taken := r.taken + [q]), None))
  {
    hide Marked;
    Assoc(AllOf(r.groups), r.queue, [q]);
  }

  lemma QueueAccounts(cfg: Config, r: Recorder, q: Queued, mayRotate: bool)
    requires Accounted(cfg, r) && r.phase.Recording?
    ensures KeptAccounts(cfg, QueueMedia(cfg, r, q, mayRotate))
  {
    hide Accounted, FlushPending, Rotate;
    FlushAccounts(cfg, r, true);
    FlushTakes(cfg, r, true);
    var flushed := if StartsNewGroup(Tags(r.queue), q.tag, q.isKeyframe) then FlushPending(cfg, r, true)
        else Step(r, None);
    if flushed.error.None? {
      RotateAccounts(cfg, flushed.rec);
      var rotated := if q.isKeyframe && mayRotate then Rotate(cfg, flushed.rec) else flushed;
      if rotated.error.None? {
        EnqueueAccounts(cfg, rotated.rec, q);
      }
    }
  }

  lemma MediaAccounts(cfg: Config, r: Recorder, q: Queued)
    requires Accounted(cfg, r) && NoneStranded(r)
    ensures KeptAccounts(cfg, HandleMedia(cfg, r, q))
  {
    hide Accounted, OpenNext, QueueMedia;
    if r.phase.Recording? {
      QueueAccounts(cfg, r, q, true);
    } else {
      OpenAccounts(cfg, r, r.history, r.duplicateRun);
      if OpenNext(cfg, r).error.None? {
        QueueAccounts(cfg, OpenNext(cfg, r).rec, q, false);
      }
    }
  }

  lemma HeadersAside(cfg: Config, r: Recorder, h: Headers)
    requires Accounted(cfg, r)
    ensures Accounted(cfg, r.(headers := h))
  {
    hide Marked;
  }

  lemma FlushedAccounts(cfg: Config, r: Recorder, tag: Tag)
    requires Accounted(cfg, r) && NoneStranded(r)
    ensures KeptAccounts(cfg, HandleFlushed(cfg, r, tag))
  {
    hide Accounted, Observe, HandleMedia;
    var o := Observe(r.headers, tag, r.phase.Recording?);
    if o.Seen? {
      HeadersAside(cfg, r, o.headers);
      if o.action.Write? {
        MediaAccounts(cfg, r.(headers := o.headers), Queued(o.action.tag, r.headers, o.action.isKeyframe, r.handled));
      }
    }
  }

  lemma CountAside(cfg: Config, r: Recorder, handled: nat)
    requires Accounted(cfg, r)
    ensures Accounted(cfg, r.(handled := handled))
  {
    hide Marked;
  }

  lemma HandleAccounts(cfg: Config, r: Recorder, tag: Tag)
    requires Accounted(cfg, r) && NoneStranded(r)
    ensures KeptAccounts(cfg, HandleTag(cfg, r, tag))
  {
    hide Accounted, FlushPending, HandleFlushed, IsCacheTag;
    CountAside(cfg, r, r.handled + 1);
    var counted := r.(handled := r.handled + 1);
    FlushAccounts(cfg, counted, true);
    FlushTakes(cfg, counted, true);
    if !IsCacheTag(tag) {
      FlushedAccounts(cfg, counted, tag);
    } else if FlushPending(cfg, counted, true).error.None? {
      FlushedAccounts(cfg, FlushPending(cfg, counted, true).rec, tag);
    }
  }

  lemma {:induction false} RunAccounts(cfg: Config, r: Recorder, tags: seq<Tag>)
    requires Accounted(cfg, r) && NoneStranded(r)
    ensures KeptAccounts(cfg, HandleAll(cfg, r, tags))
    decreases |tags|
  {
    hide Accounted, HandleTag;
    if tags != [] {
      HandleAccounts(cfg, r, tags[0]);
      if HandleTag(cfg, r, tags[0]).error.None? {
        RunAccounts(cfg, HandleTag(cfg, r, tags[0]).rec, tags[1..]);
      }
    }
  }

  // ----- Main results -----

  lemma {:induction false} ParsedTagsFit(s: Bytes)
    ensures AllFit(ReadTags(s).0)
    decreases |s|
  {
    if ReadTag(s).Success? {
      TagRewrites(s);
      ParsedTagsFit(s[TagSpan(ReadTag(s).value.header)..]);
    }
  }

  lemma NewAccounts(cfg: Config, r: Recorder)
    requires r.taken == [] && r.groups == [] && r.queue == [] && r.history == [] && r.finished == []
             && r.phase.WaitSync?
    ensures Accounted(cfg, r) && NoneStranded(r)
  {
  }

  lemma StreamTagsFit(stream: Bytes)
    ensures AllFit(StreamTags(stream))
  {
    if |stream| >= FILE_HEADER_SIZE {
      ParsedTagsFit(stream[FILE_HEADER_SIZE..]);
    }
  }

  lemma RunIsAccounted(cfg: Config, startIndex: nat, tags: seq<Tag>, s: Step)
    requires RunOver(cfg, startIndex, tags, s) && AllFit(tags)
    ensures TagsOk(tags, s) && KeptAccounts(cfg, s)
  {
    hide HandleAll, Accounted, TagsOk;
    var header :| s == HandleAll(cfg, Started(startIndex, header), tags);
    RunTags(cfg, Started(startIndex, header), tags);
    NewAccounts(cfg, Started(startIndex, header));
    RunAccounts(cfg, Started(startIndex, header), tags);
  }

  /**
    On every run: the media tags taken are, in stream order, cleaned tags of the stream; the files
    hold exactly the groups of them that were written, in order; every other group repeats one
    written before it, and what is in no group is still pending.
   */
  lemma FilesHoldTheStream(cfg: Config, startIndex: nat, chunks: seq<Bytes>)
    ensures var p := Pushed(cfg, startIndex, chunks);
            EntriesOk(StreamTags(Flat(chunks)), p.rec.taken) && KeptAccounts(cfg, Step(p.rec, p.error))
  {
    hide Pushed, Flat, Accounted, EntryOk;
    var s := PushedOverTags(cfg, startIndex, chunks);
    NewAccounts(cfg, New(startIndex));
    if s != Step(New(startIndex), None) {
      StreamTagsFit(Flat(chunks));
      RunIsAccounted(cfg, startIndex, StreamTags(Flat(chunks)), s);
    }
  }

  /**
    A recording that ends in good order, or for too much repeated data, leaves nothing pending:
    every tag taken was written or repeats what was.
   */
  lemma EndHoldsTheStream(cfg: Config, startIndex: nat, chunks: seq<Bytes>)
    requires var e := Pushed(cfg, startIndex, chunks).error; e.None? || e.value.StreamRepeatedData?
    ensures var r := End(cfg, Pushed(cfg, startIndex, chunks));
            && Accounted(cfg, r) && r.queue == [] && r.phase.WaitSync? && EntriesOk(StreamTags(Flat(chunks)), r.taken)
  {
    hide Pushed, Accounted, EntriesOk, FlushPending, FinalizeCurrent;
    var p := Pushed(cfg, startIndex, chunks);
    FilesHoldTheStream(cfg, startIndex, chunks);
    NoneAdded(p.rec.taken);
    FlushAccounts(cfg, p.rec, false);
    FlushTakes(cfg, p.rec, false);
    CloseAccounts(cfg, FlushPending(cfg, p.rec, false).rec);
    CloseQueue(cfg, FlushPending(cfg, p.rec, false).rec);
  }

  lemma CloseQueue(cfg: Config, r: Recorder)
    ensures FinalizeCurrent(cfg, r).rec.queue == r.queue && FinalizeCurrent(cfg, r).rec.taken == r.taken
  {
    hide Finish;
  }

  // ----- Which tags are taken -----

  ghost predicate IsTaken(taken: seq<Queued>, n: nat) {
    exists i :: 0 <= i < |taken| && taken[i].place == n + 1
  }

  /** The tag was handled without ending the run, and admitted. */
  predicate TakenAt(cfg: Config, r: Recorder, tags: seq<Tag>, n: nat)
    requires n < |tags|
  {
    var before := HandleAll(cfg, r, tags[..n]);
    before.error.None? && Admits(before.rec, tags[n]) && HandleTag(cfg, before.rec, tags[n]).error.None?
  }

  /** A tag of the stream is taken exactly when it is admitted and does not end the run. */
  lemma {:induction false} TakenIff(cfg: Config, r: Recorder, tags: seq<Tag>, n: nat)
    requires r.taken == [] && r.handled == 0 && r.headers == NO_HEADERS && AllFit(tags) && n < |tags|
    ensures IsTaken(HandleAll(cfg, r, tags).rec.taken, n) <==> TakenAt(cfg, r, tags, n)
    decreases |tags|
  {
    hide HandleAll, HandleTag, Admits, TagsOk;
    var last := |tags| - 1;
    var earlier, tag := tags[..last], tags[last];
    assert tags == earlier + [tag];
    var s := HandleAll(cfg, r, earlier);
    HandleAllMore(cfg, r, earlier, tag);
    RunTags(cfg, r, earlier);
    HandleTakes(cfg, s.rec, tag);
    NotYet(earlier, s);
    NoneElse(s.rec, tag, last, n);
    if n < last {
      TakenIff(cfg, r, earlier, n);
      assert tags[..n] == earlier[..n] && tags[n] == earlier[n];
    }
  }

  /** Taking the last tag says nothing about the places before. */
  lemma NoneElse(r: Recorder, tag: Tag, last: nat, n: nat)
    requires n <= last
    ensures r.handled == last && n < last ==> (IsTaken(r.taken + EntryOf(r, tag), n) <==> IsTaken(r.taken, n))
    ensures r.handled == last && n == last && Admits(r, tag) ==> IsTaken(r.taken + EntryOf(r, tag), n)
    ensures !Admits(r, tag) ==> r.taken + EntryOf(r, tag) == r.taken
  {
    hide Admits;
    var all := r.taken + EntryOf(r, tag);
    if Admits(r, tag) {
      assert all[|r.taken|] == Entry(r, tag) && Entry(r, tag).place == r.handled + 1;
    }
    if IsTaken(r.taken, n) {
      var i :| 0 <= i < |r.taken| && r.taken[i].place == n + 1;
      assert all[i] == r.taken[i];
    }
  }

  lemma NotYet(tags: seq<Tag>, s: Step)
    requires TagsOk(tags, s)
    ensures !IsTaken(s.rec.taken, |tags|)
    ensures s.error.None? ==> s.rec.handled == |tags|
  {
    forall i | 0 <= i < |s.rec.taken| ensures s.rec.taken[i].place <= |tags| {
      assert EntryOk(tags, s.rec.taken[i]);
    }
  }

  // ----- Which groups are dropped -----

  function Newest(marks: seq<nat>): seq<nat> {
    if |marks| > 16 then marks[|marks| - 16..] else marks
  }

  /** The pending group is over: dropped exactly if its fingerprint is among the newest sixteen, else written. */
  ghost predicate GroupEnds(cfg: Config, before: Recorder, after: Recorder) {
    var mark := cfg.fingerprint(Tags(before.queue));
    && before.queue != []
    && if mark in before.history then
         && after.groups == before.groups + [PastGroup(before.queue, false)] && after.history == before.history
         && after.duplicateRun == (if before.duplicateRun >= 0xFFFF_FFFF then 0xFFFF_FFFF else before.duplicateRun + 1)
       else
         && after.groups == before.groups + [PastGroup(before.queue, true)]
         && after.history == Newest(before.history + [mark]) && after.duplicateRun == 0
  }

  ghost predicate NoGroupEnds(before: Recorder, after: Recorder) {
    after.groups == before.groups && after.history == before.history && after.duplicateRun == before.duplicateRun
  }

  /** Or a file with other headers has begun, and what was written before no longer counts. */
  ghost predicate StartsAfresh(cfg: Config, before: Recorder, after: Recorder) {
    && after.history == [] && after.duplicateRun == 0
    && exists ended: Recorder ::
         (NoGroupEnds(before, ended) || GroupEnds(cfg, before, ended)) && after.groups == ended.groups
  }

  /** Exactly an eleventh repeat in a row ends the stream for repeated data. */
  ghost predicate EndsWhenRepeated(cfg: Config, before: Recorder, s: Step) {
    s.error == Some(StreamRepeatedData) <==>
      GroupEnds(cfg, before, s.rec) && cfg.fingerprint(Tags(before.queue)) in before.history && s.rec.duplicateRun > 10
  }

  lemma FlushEnds(cfg: Config, r: Recorder)
    ensures var s := FlushPending(cfg, r, true);
            && (if r.queue == [] then s == Step(r, None) else GroupEnds(cfg, r, s.rec))
            && EndsWhenRepeated(cfg, r, s) && (s.error.Some? ==> s.error.value.StreamRepeatedData?)
            && s.rec.headers == r.headers && s.rec.phase.Recording? == r.phase.Recording?
  {
  }

  /** What a step may do to the groups and to what is remembered of them. */
  ghost predicate DedupLaw(cfg: Config, before: Recorder, s: Step, changed: bool) {
    && (|| NoGroupEnds(before, s.rec) || GroupEnds(cfg, before, s.rec)
        || (changed && StartsAfresh(cfg, before, s.rec)))
    && EndsWhenRepeated(cfg, before, s)
  }

  lemma RotateForgets(cfg: Config, r: Recorder)
    ensures var s := Rotate(cfg, r);
            && s.rec.groups == r.groups && s.error != Some(StreamRepeatedData)
            && (|| (s.rec.history == r.history && s.rec.duplicateRun == r.duplicateRun)
                || (r.headers.pendingChange && s.rec.history == [] && s.rec.duplicateRun == 0))
  {
    hide Finish, FirstSegment;
  }

  lemma QueueDedups(cfg: Config, r: Recorder, q: Queued, mayRotate: bool)
    ensures DedupLaw(cfg, r, QueueMedia(cfg, r, q, mayRotate), r.headers.pendingChange && q.isKeyframe)
  {
    hide FlushPending, Rotate, StartsNewGroup;
    FlushEnds(cfg, r);
    var flushed := if StartsNewGroup(Tags(r.queue), q.tag, q.isKeyframe) then FlushPending(cfg, r, true)
        else Step(r, None);
    assert NoGroupEnds(r, flushed.rec) || GroupEnds(cfg, r, flushed.rec);
    RotateForgets(cfg, flushed.rec);
  }

  lemma MediaDedups(cfg: Config, r: Recorder, q: Queued)
    ensures DedupLaw(cfg, r, HandleMedia(cfg, r, q), r.headers.pendingChange && q.isKeyframe)
  {
    hide QueueMedia, FirstSegment;
    QueueDedups(cfg, r, q, true);
    var started := OpenNext(cfg, r);
    QueueDedups(cfg, started.rec, q, false);
    if r.phase.WaitSync? && started.error.None? {
      SameDedup(cfg, r, started.rec, QueueMedia(cfg, started.rec, q, false));
    }
  }

  lemma SameDedup(cfg: Config, r: Recorder, r': Recorder, s: Step)
    requires DedupLaw(cfg, r', s, false)
    requires r'.queue == r.queue && NoGroupEnds(r, r')
    ensures DedupLaw(cfg, r, s, false)
  {
  }

  // ----- Where files start -----

  /** A keyframe as its payload's first two bytes say, and video. */
  predicate IsKeyframe(tag: Tag) {
    tag.header.tagType.Video? && [0x17, 0x01] <= tag.data
  }

  /** Each file takes the next index, so this step opened one. */
  predicate Opens(before: Recorder, after: Recorder) {
    after.nextIndex != before.nextIndex
  }

  lemma FlushOpensNone(cfg: Config, r: Recorder, duringStream: bool)
    ensures FlushPending(cfg, r, duringStream).rec.nextIndex == r.nextIndex
  {
  }

  lemma QueueOpens(cfg: Config, r: Recorder, q: Queued, mayRotate: bool)
    ensures Opens(r, QueueMedia(cfg, r, q, mayRotate).rec) ==> q.isKeyframe && mayRotate
  {
    hide FlushPending, Rotate;
    FlushOpensNone(cfg, r, true);
  }

  lemma MediaOpens(cfg: Config, r: Recorder, q: Queued)
    ensures Opens(r, HandleMedia(cfg, r, q).rec) ==> q.isKeyframe
  {
    hide OpenNext, QueueMedia;
    QueueOpens(cfg, r, q, true);
  }

  lemma KeyframeByBytes(h: Headers, tag: Tag, recording: bool)
    ensures var o := Observe(h, tag, recording);
            o.Seen? && o.action.Write? ==> (o.action.isKeyframe <==> IsKeyframe(tag))
  {
  }

  /** A header tag is never written, and a tag that is written leaves the decision about a new file alone. */
  lemma ObservedKinds(h: Headers, tag: Tag, recording: bool)
    ensures var o := Observe(h, tag, recording);
            && (o.Seen? && IsCacheTag(tag) ==> o.action.Drop?)
            && (o.Seen? && o.action.Write? ==> o.headers.pendingChange == h.pendingChange)
            && (o.Refused? ==> !o.error.StreamRepeatedData?)
  {
  }

  lemma FlushedDedups(cfg: Config, r: Recorder, tag: Tag)
    ensures var s := HandleFlushed(cfg, r, tag);
            && DedupLaw(cfg, r, s, r.headers.pendingChange && IsKeyframe(tag))
            && (IsCacheTag(tag) ==> NoGroupEnds(r, s.rec) && s.error != Some(StreamRepeatedData))
  {
    hide Observe, HandleMedia, IsCacheTag;
    var o := Observe(r.headers, tag, r.phase.Recording?);
    ObservedKinds(r.headers, tag, r.phase.Recording?);
    KeyframeByBytes(r.headers, tag, r.phase.Recording?);
    if o.Seen? && o.action.Write? {
      var observed := r.(headers := o.headers);
      MediaDedups(cfg, observed, Queued(o.action.tag, r.headers, o.action.isKeyframe, r.handled));
    }
  }

  /**
    What every tag does to the groups: at most one ends, dropped exactly if its fingerprint is one
    of the newest sixteen written, and these are forgotten only where a keyframe follows changed
    headers; and the stream ends for repeated data exactly at the eleventh repeat in a row.
   */
  lemma TagDedups(cfg: Config, r: Recorder, tag: Tag)
    ensures DedupLaw(cfg, r, HandleTag(cfg, r, tag), r.headers.pendingChange && IsKeyframe(tag))
  {
    hide FlushPending, HandleFlushed, IsCacheTag;
    var counted := r.(handled := r.handled + 1);
    FlushEnds(cfg, counted);
    if IsCacheTag(tag) {
      FlushedDedups(cfg, FlushPending(cfg, counted, true).rec, tag);
    } else {
      FlushedDedups(cfg, counted, tag);
    }
  }

  /**
    Nothing but a keyframe opens a file, whether it is the first one, or the last was full, took
    too long or had other headers.
   */
  lemma FilesOpenAtKeyframes(cfg: Config, r: Recorder, tag: Tag)
    ensures Opens(r, HandleTag(cfg, r, tag).rec) ==> IsKeyframe(tag)
  {
    hide FlushPending, Observe, HandleMedia, IsCacheTag;
    var counted := r.(handled := r.handled + 1);
    FlushOpensNone(cfg, counted, true);
    var flushed := if IsCacheTag(tag) then FlushPending(cfg, counted, true).rec else counted;
    var o := Observe(flushed.headers, tag, flushed.phase.Recording?);
    KeyframeByBytes(flushed.headers, tag, flushed.phase.Recording?);
    if o.Seen? && o.action.Write? {
      MediaOpens(cfg, flushed.(headers := o.headers),
          Queued(o.action.tag, flushed.headers, o.action.isKeyframe, flushed.handled));
    }
  }

  /** Why a file is over: its headers no longer hold, its time is up, or it is as large as it may get. */
  predicate IsOver(cfg: Config, r: Recorder, seg: Segment) {
    || r.headers.pendingChange || cfg.timeIsUp(r.handled)
    || (cfg.sizeLimit.Some? && |FileOf(seg)| >= cfg.sizeLimit.value)
  }

  /** A step opened a file exactly where none was open or the one that was is over; that one is closed. */
  ghost predicate OpensWhenOver(cfg: Config, r: Recorder, after: Recorder) {
    && after.phase.Recording?
    && if r.phase.WaitSync? then Opens(r, after) && after.finished == r.finished
       else if Opens(r, after) then
         && |after.finished| == |r.finished| + 1 && after.finished[..|r.finished|] == r.finished
         && IsOver(cfg, r, after.finished[|r.finished|].segment)
       else after.finished == r.finished && !IsOver(cfg, r, after.phase.segment)
  }

  lemma RotateOpensWhenOver(cfg: Config, r: Recorder)
    requires r.phase.Recording? && Rotate(cfg, r).error.None?
    ensures OpensWhenOver(cfg, r, Rotate(cfg, r).rec)
  {
    hide FileOf, FirstSegment, FinalBody, Overwritten;
  }

  lemma QueueOpensWhenOver(cfg: Config, r: Recorder, q: Queued)
    requires r.phase.Recording? && q.isKeyframe && QueueMedia(cfg, r, q, true).error.None?
    ensures OpensWhenOver(cfg, r, QueueMedia(cfg, r, q, true).rec)
  {
    hide FlushPending, Rotate, FileOf, StartsNewGroup;
    FlushLeaves(cfg, r);
    var flushed := if StartsNewGroup(Tags(r.queue), q.tag, q.isKeyframe) then FlushPending(cfg, r, true).rec else r;
    RotateOpensWhenOver(cfg, flushed);
  }

  lemma FlushLeaves(cfg: Config, r: Recorder)
    ensures var after := FlushPending(cfg, r, true).rec;
            && after.headers == r.headers && after.handled == r.handled && after.finished == r.finished
            && after.nextIndex == r.nextIndex && after.phase.Recording? == r.phase.Recording?
  {
  }

  lemma MediaOpensWhenOver(cfg: Config, r: Recorder, q: Queued)
    requires q.isKeyframe && (r.phase.WaitSync? ==> r.headers.Synced()) && HandleMedia(cfg, r, q).error.None?
    ensures OpensWhenOver(cfg, r, HandleMedia(cfg, r, q).rec)
  {
    hide FlushPending, Rotate, FileOf, StartsNewGroup, FirstSegment;
    if r.phase.Recording? {
      QueueOpensWhenOver(cfg, r, q);
    } else {
      FlushLeaves(cfg, OpenNext(cfg, r).rec);
    }
  }

  /**
    Every keyframe that is taken opens a file exactly if none is open, or the one that is has
    reached its size or its time, or was begun under other headers.
   */
  lemma KeyframeOpensIff(cfg: Config, r: Recorder, tag: Tag)
    requires IsKeyframe(tag) && Admits(r, tag) && HandleTag(cfg, r, tag).error.None?
    ensures OpensWhenOver(cfg, r.(handled := r.handled + 1), HandleTag(cfg, r, tag).rec)
  {
    hide FlushPending, Observe, HandleMedia, FileOf;
    var counted := r.(handled := r.handled + 1);
    var o := Observe(r.headers, tag, r.phase.Recording?);
    KeyframeByBytes(r.headers, tag, r.phase.Recording?);
    WrittenIsMedia(r.headers, tag, r.phase.Recording?);
    MediaOpensWhenOver(cfg, counted.(headers := o.headers),
        Queued(o.action.tag, r.headers, o.action.isKeyframe, counted.handled));
  }

  // ----- Parameter sets -----

  lemma {:induction false} KeptIsTaken(groups: seq<PastGroup>, q: Queued)
    requires q in KeptOf(groups)
    ensures q in AllOf(groups)
  {
    if groups != [] {
      var earlier, last := groups[..|groups| - 1], groups[|groups| - 1];
      if q in KeptOf(earlier) {
        KeptIsTaken(earlier, q);
      }
    }
  }

  lemma {:induction false} LogIsWritten(finished: seq<Finished>, i: nat, q: Queued)
    requires i < |finished| && q in finished[i].segment.log
    ensures q in LogsOf(finished)
    decreases |finished|
  {
    if i < |finished| - 1 {
      LogIsWritten(finished[..|finished| - 1], i, q);
    }
  }

  lemma FileIsTaken(cfg: Config, r: Recorder, seg: Segment, q: Queued)
    requires Accounted(cfg, r) && IsFile(r, seg) && q in seg.log
    ensures q in r.taken
  {
    if !(r.phase.Recording? && r.phase.segment == seg) {
      var i :| 0 <= i < |r.finished| && r.finished[i].segment == seg;
      LogIsWritten(r.finished, i, q);
    }
    assert q in Written(r);
    KeptIsTaken(r.groups, q);
  }

  /** A run as far as some chunks take it, or ended after them. */
  ghost predicate RunState(cfg: Config, startIndex: nat, chunks: seq<Bytes>, r: Recorder) {
    var p := Pushed(cfg, startIndex, chunks);
    r == p.rec || r == End(cfg, p)
  }

  /** What a file promises of one of its media tags: the headers at its front are those the stream sent for the tag. */
  ghost predicate Decodable(tags: seq<Tag>, seg: Segment, q: Queued)
    requires EntryOk(tags, q)
  {
    var earlier := tags[..q.place - 1];
    && LastAac(earlier).Some? && LastAac(earlier).value.data == seg.aac.data
    && LastAvc(earlier).Some? && |seg.avc.data| >= 10 && seg.avc.data[9] % 4 == LastAvc(earlier).value.data[9] % 4
    && (LastAvc(earlier).value.data == seg.avc.data || Carriers(earlier) >= 2)
    && (q.isKeyframe || !q.seen.pendingChange)
  }

  /**
    In every file of every run, each media tag is the cleaned tag of its place in the stream. The
    audio header and the length size the stream sent last before it are those of the file, and so
    is the AVC header unless two keyframes before it brought both kinds of parameter sets with
    them; and nothing but a keyframe was observed while a new file was due.
   */
  lemma EveryTagIsDecodable(cfg: Config, startIndex: nat, chunks: seq<Bytes>, r: Recorder, seg: Segment, i: nat)
    requires RunState(cfg, startIndex, chunks, r) && IsFile(r, seg) && i < |seg.log|
    ensures var q, tags := seg.log[i], StreamTags(Flat(chunks));
            EntryOk(tags, q) && Decodable(tags, seg, q)
  {
    hide Pushed, Flat, Accounted, EntryOk, End, Carriers, Observe, LengthSize, LastAvc, LastAac;
    var p, q := Pushed(cfg, startIndex, chunks), seg.log[i];
    FilesHoldTheStream(cfg, startIndex, chunks);
    FileBelongs(cfg, startIndex, chunks, r, seg, i);
    if r == p.rec {
      FileIsTaken(cfg, r, seg, q);
    } else if p.error.None? || p.error.value.StreamRepeatedData? {
      EndHoldsTheStream(cfg, startIndex, chunks);
      FileIsTaken(cfg, r, seg, q);
    } else {
      GivenUp(cfg, p, seg);
      FileIsTaken(cfg, p.rec, seg, q);
    }
    SeenOfStream(StreamTags(Flat(chunks)), q);
    SizeByte(seg.avc.data);
  }

  lemma GivenUp(cfg: Config, p: Progress, seg: Segment)
    requires p.error.Some? && !p.error.value.StreamRepeatedData? && IsFile(End(cfg, p), seg)
    ensures IsFile(p.rec, seg)
  {
  }

  /** Where an AVC header says how long its length fields are. */
  lemma SizeByte(data: Bytes)
    ensures NaluLengthSize(data).Good? ==> |data| >= 10 && NaluLengthSize(data).value == data[9] % 4 + 1
  {
  }

  lemma SeenOfStream(tags: seq<Tag>, q: Queued)
    requires EntryOk(tags, q)
    ensures q.place >= 1 && q.place - 1 <= |tags| && (q.seen.inBand ==> Carriers(tags[..q.place - 1]) >= 2)
    ensures var earlier := tags[..q.place - 1];
            && q.seen.avc == LastAvc(earlier) && q.seen.aac == LastAac(earlier)
            && q.seen.lengthSize == LengthSize(earlier)
            && (LastAvc(earlier).Some? ==> LengthSize(earlier) == Some(LastAvc(earlier).value.data[9] % 4 + 1))
  {
  }

  lemma FileBelongs(cfg: Config, startIndex: nat, chunks: seq<Bytes>, r: Recorder, seg: Segment, i: nat)
    requires RunState(cfg, startIndex, chunks, r) && IsFile(r, seg) && i < |seg.log|
    ensures Belongs(seg, seg.log[i])
  {
    hide End, PushAll, Belongs;
    var p := Pushed(cfg, startIndex, chunks);
    if r == p.rec {
      assert Reached(cfg, startIndex, chunks, p.rec);
      EveryFileIsOneEpoch(cfg, startIndex, chunks, r, seg);
    } else {
      EndWaits(cfg, p);
      var j :| 0 <= j < |r.finished| && r.finished[j].segment == seg;
      EveryFileIsSound(cfg, startIndex, chunks, r.finished, j);
    }
  }

  lemma EndWaits(cfg: Config, p: Progress)
    ensures End(cfg, p).phase.WaitSync?
  {
    hide FlushPending, Finish;
  }
}
