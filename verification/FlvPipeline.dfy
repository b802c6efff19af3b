/**
  What happens to a parsed tag before it is written: header tags are cached, filler is removed,
  media tags are gathered into groups and repeated groups are dropped.
 */
module FlvPipeline {
  import opened Wrappers
  import opened ByteStrings
  import opened Sequences
  import opened FlvFormat
  import opened AvcPayload
  import opened Timestamps

  const IN_BAND_CONFIRMATIONS: nat := 2
  const DUPLICATE_HISTORY_LIMIT: nat := 16
  const DUPLICATE_RECONNECT_THRESHOLD: nat := 10
  const GROUP_GAP_MS: int := 24_999

  datatype StreamError =
    | StreamProtocol(message: string)
    | PayloadRefused(error: AvcPayloadError)
    | StreamRepeatedData
    | State(message: string)

  // ----- Normalizer -----

  datatype Action = Drop | Write(tag: Tag, isKeyframe: bool)

  /** The cached headers, what is known about in-band parameter sets, and the clock of the current file. */
  datatype Headers = Headers(
    metadata: Option<Tag>,
    avc: Option<Tag>,
    aac: Option<Tag>,
    lengthSize: Option<nat>,
    inBandSeen: nat,
    inBand: bool,
    pendingChange: bool)
  {
    predicate Synced() {
      metadata.Some? && avc.Some? && aac.Some?
    }
  }

  const NO_HEADERS: Headers := Headers(None, None, None, None, 0, false, false)

  predicate IsCacheTag(tag: Tag) {
    match tag.header.tagType
    case ScriptData => true
    case Video => IsAvcSequenceHeader(tag.data)
    case Audio => IsAacSequenceHeader(tag.data)
  }

  datatype Observed = Seen(headers: Headers, action: Action) | Refused(error: StreamError)

  datatype Verdict = Accepted(action: Action) | Rejected(error: StreamError)

  /** A header differs from the one cached, while a file is being written. */
  predicate Changes(cached: Option<Tag>, tag: Tag, recording: bool) {
    recording && cached.Some? && cached.value.data != tag.data
  }

  function ObserveAvcHeader(h: Headers, tag: Tag, recording: bool): Observed {
    match NaluLengthSize(tag.data)
    case Bad(error) => Refused(PayloadRefused(error))
    case Good(size) =>
      var changed := Changes(h.avc, tag, recording);
      var sizeChanged := h.lengthSize.Some? && h.lengthSize.value != size;
      Seen(h.(pendingChange := h.pendingChange || (changed && (!h.inBand || sizeChanged)),
              lengthSize := Some(size),
              avc := Some(tag)), Drop)
  }

  /** Two keyframes that carry their own parameter sets settle the matter for good. */
  function NoteInBand(h: Headers): Headers {
    if h.inBand then h
    else
      var seen := if h.inBandSeen >= 255 then 255 else h.inBandSeen + 1;
      h.(inBandSeen := seen, inBand := seen >= IN_BAND_CONFIRMATIONS)
  }

  function ObserveNalus(h: Headers, tag: Tag, size: nat): Observed {
    match Nalus(tag.data, size)
    case Bad(error) => Refused(PayloadRefused(error))
    case Good(nalus) =>
      if Kept(nalus) == [] then Seen(h, Drop)
      else
        var data := Cleaned(tag.data, size);
        var cleaned := if |Kept(nalus)| < |nalus| then Tag(tag.header.(dataSize := |data| % U32_SPAN), data) else tag;
        var isKeyframe := IsAvcKeyframe(tag.data);
        Seen(if isKeyframe && Has(nalus, SPS) && Has(nalus, PPS) then NoteInBand(h) else h, Write(cleaned, isKeyframe))
  }

  function ObserveVideo(h: Headers, tag: Tag, recording: bool): Observed {
    if !IsAvcVideo(tag.data) then Refused(StreamProtocol("Unsupported FLV video codec; only AVC is supported"))
    else if IsAvcSequenceHeader(tag.data) then ObserveAvcHeader(h, tag, recording)
    else if h.lengthSize.Some? && IsAvcNaluPacket(tag.data) then ObserveNalus(h, tag, h.lengthSize.value)
    else Seen(h, Write(tag, IsAvcKeyframe(tag.data)))
  }

  function Observe(h: Headers, tag: Tag, recording: bool): Observed {
    match tag.header.tagType
    case ScriptData => Seen(h.(metadata := Some(tag)), Drop)
    case Video => ObserveVideo(h, tag, recording)
    case Audio =>
      if IsAacSequenceHeader(tag.data) then
        Seen(h.(pendingChange := h.pendingChange || Changes(h.aac, tag, recording), aac := Some(tag)), Drop)
      else Seen(h, Write(tag, false))
  }

  /** What every reachable set of cached headers keeps. */
  ghost predicate HeadersOk(h: Headers) {
    && (h.metadata.Some? ==> h.metadata.value.Fits())
    && (h.avc.Some? <==> h.lengthSize.Some?)
    && (h.avc.Some? ==> h.avc.value.Fits() && NaluLengthSize(h.avc.value.data) == Good(h.lengthSize.value))
    && (h.aac.Some? ==> h.aac.value.Fits())
    && (h.inBand <==> h.inBandSeen >= IN_BAND_CONFIRMATIONS)
  }

  /** The headers a media tag is decoded with. */
  predicate SameDecoding(h: Headers, h': Headers) {
    h'.metadata == h.metadata && h'.avc == h.avc && h'.aac == h.aac && h'.lengthSize == h.lengthSize
        && h'.pendingChange == h.pendingChange
  }

  /** A media tag leaves the cached headers alone, and what goes on to be written is that tag, cleaned. */
  ghost predicate KeepsHeaders(h: Headers, tag: Tag, o: Observed) {
    o.Seen? ==>
      && HeadersOk(o.headers) && SameDecoding(h, o.headers) && (h.inBand ==> o.headers.inBand)
      && (o.action.Write? ==> IsCleaned(tag, o.action.tag, o.action.isKeyframe))
  }

  ghost predicate IsCleaned(tag: Tag, cleaned: Tag, isKeyframe: bool) {
    && cleaned.Fits()
    && cleaned.header == tag.header.(dataSize := |cleaned.data|)
    && (isKeyframe <==> tag.header.tagType.Video? && [0x17, 0x01] <= tag.data)
    && (tag.header.tagType.Video? ==> ([0x17, 0x01] <= cleaned.data <==> isKeyframe))
  }

  lemma CleanedIsCleaned(h: Headers, tag: Tag, size: nat)
    requires tag.Fits() && tag.header.tagType.Video? && IsAvcNaluPacket(tag.data)
    requires ObserveNalus(h, tag, size).Seen? && ObserveNalus(h, tag, size).action.Write?
    ensures IsCleaned(tag, ObserveNalus(h, tag, size).action.tag, ObserveNalus(h, tag, size).action.isKeyframe)
  {
    CleanedFront(tag.data, size);
  }

  lemma CleanedFront(data: Bytes, size: nat)
    requires Nalus(data, size).Good?
    ensures var cleaned := Cleaned(data, size);
            && 2 <= |cleaned| <= |data| && cleaned[0] == data[0] && cleaned[1] == data[1]
            && ([0x17, 0x01] <= cleaned <==> [0x17, 0x01] <= data)
  {
    CleanedAccounts(data, size);
    Parts(data[..PREFIX], Join(Kept(Nalus(data, size).value), size));
    assert Cleaned(data, size)[..PREFIX] == data[..PREFIX];
  }

  lemma MediaKeepsHeaders(h: Headers, tag: Tag, recording: bool)
    requires HeadersOk(h) && tag.Fits() && !IsCacheTag(tag)
    ensures KeepsHeaders(h, tag, Observe(h, tag, recording))
  {
    if tag.header.tagType.Video? && IsAvcVideo(tag.data) && h.lengthSize.Some? && IsAvcNaluPacket(tag.data) {
      var o := ObserveNalus(h, tag, h.lengthSize.value);
      if o.Seen? && o.action.Write? {
        CleanedIsCleaned(h, tag, h.lengthSize.value);
      }
    }
  }

  /**
    A header tag is never written; one that differs while recording forces a new file unless
    in-band sets make up for it.
   */
  lemma CacheTagIsKept(h: Headers, tag: Tag, recording: bool)
    requires HeadersOk(h) && tag.Fits() && IsCacheTag(tag) && Observe(h, tag, recording).Seen?
    ensures var o := Observe(h, tag, recording);
            && HeadersOk(o.headers) && o.action == Drop && o.headers.inBand == h.inBand
            && (h.pendingChange ==> o.headers.pendingChange)
            && (h.Synced() ==> o.headers.Synced())
            && (recording && !o.headers.pendingChange ==>
                  && (h.aac.Some? ==> o.headers.aac.Some? && o.headers.aac.value.data == h.aac.value.data)
                  && (h.avc.Some? ==> o.headers.avc.Some? && o.headers.lengthSize == h.lengthSize
                                      && (h.inBand || o.headers.avc.value.data == h.avc.value.data)))
  {
  }

  // ----- In-band parameter sets -----

  /** A keyframe that brings its own parameter sets, as far as the length size shows. */
  predicate CarriesParameterSets(tag: Tag, size: Option<nat>) {
    && tag.header.tagType.Video? && IsAvcKeyframe(tag.data) && size.Some?
    && Nalus(tag.data, size.value).Good?
    && Has(Nalus(tag.data, size.value).value, SPS) && Has(Nalus(tag.data, size.value).value, PPS)
  }

  predicate InBandOk(h: Headers) {
    (h.inBand <==> h.inBandSeen >= IN_BAND_CONFIRMATIONS) && h.inBandSeen <= IN_BAND_CONFIRMATIONS
  }

  /** Only such keyframes count towards confirmation. */
  lemma InBandStep(h: Headers, tag: Tag, recording: bool)
    requires InBandOk(h) && Observe(h, tag, recording).Seen?
    ensures var next := Observe(h, tag, recording).headers;
            InBandOk(next) && next.inBandSeen <= h.inBandSeen + if CarriesParameterSets(tag, h.lengthSize) then 1 else 0
  {
  }

  class FlvNormalizer {
    var metadataTag: Option<Tag>
    var avcSeqTag: Option<Tag>
    var aacSeqTag: Option<Tag>
    var avcNaluLengthSize: Option<nat>
    var inBandParameterSetsSeen: nat
    var avcInBandParameterSets: bool
    var pendingHeaderChange: bool
    const timestamp: TimestampNormalizer

    ghost function State(): Headers
      reads this
    {
      Headers(metadataTag, avcSeqTag, aacSeqTag, avcNaluLengthSize, inBandParameterSetsSeen, avcInBandParameterSets,
          pendingHeaderChange)
    }

    constructor ()
      ensures State() == NO_HEADERS && fresh(timestamp) && timestamp.State() == FRESH
    {
      timestamp := new TimestampNormalizer();
      metadataTag, avcSeqTag, aacSeqTag, avcNaluLengthSize := None, None, None, None;
      inBandParameterSetsSeen, avcInBandParameterSets, pendingHeaderChange := 0, false, false;
    }

    method StartNewFile()
      modifies this, timestamp
      ensures State() == old(State()).(pendingChange := false) && timestamp.State() == FRESH
    {
      pendingHeaderChange := false;
      timestamp.Reset();
    }

    method NoteInBandParameterSets()
      modifies this
      ensures State() == NoteInBand(old(State()))
    {
      if avcInBandParameterSets {
        return;
      }
      if inBandParameterSetsSeen < 255 {
        inBandParameterSetsSeen := inBandParameterSetsSeen + 1;
      } else {
        inBandParameterSetsSeen := 255;
      }
      if inBandParameterSetsSeen >= IN_BAND_CONFIRMATIONS {
        avcInBandParameterSets := true;
      }
    }

    /** The outcome is that of `Observe`; a refused tag leaves the cached headers alone. */
    ghost predicate Follows(r: Verdict, o: Observed, before: Headers)
      reads this
    {
      match o
      case Seen(headers, action) => r == Accepted(action) && State() == headers
      case Refused(error) => r == Rejected(error) && State() == before
    }

    method CacheAvcHeader(tag: Tag, recording: bool) returns (r: Verdict)
      modifies this
      ensures Follows(r, ObserveAvcHeader(old(State()), tag, recording), old(State()))
    {
      var lengthSize := NaluLengthSize(tag.data);
      if lengthSize.Bad? {
        return Rejected(PayloadRefused(lengthSize.error));
      }
      var headerChanged := recording && avcSeqTag.Some? && avcSeqTag.value.data != tag.data;
      var lengthSizeChanged := avcNaluLengthSize.Some? && avcNaluLengthSize.value != lengthSize.value;
      if headerChanged && (!avcInBandParameterSets || lengthSizeChanged) {
        pendingHeaderChange := true;
      }
      avcNaluLengthSize := Some(lengthSize.value);
      avcSeqTag := Some(tag);
      return Accepted(Drop);
    }

    method CleanNalus(tag: Tag, lengthSize: nat) returns (r: Verdict)
      modifies this
      ensures Follows(r, ObserveNalus(old(State()), tag, lengthSize), old(State()))
    {
      var isKeyframe := IsAvcKeyframe(tag.data);
      var buffer := new Buffer(tag.data);
      var removal := RemoveFiller(buffer, lengthSize);
      if removal.Bad? {
        return Rejected(PayloadRefused(removal.error));
      }
      var cleaned := tag;
      if removal.value.Changed() {
        var data := buffer.cells[..buffer.length];
        cleaned := Tag(tag.header.(dataSize := |data| % U32_SPAN), data);
      }
      if removal.value.EmptyAfterRemoval() {
        return Accepted(Drop);
      }
      if isKeyframe && removal.value.inspection.hasSps && removal.value.inspection.hasPps {
        NoteInBandParameterSets();
      }
      return Accepted(Write(cleaned, isKeyframe));
    }

    /** A tag to be written is a keyframe exactly if it is video that starts with the bytes 0x17 0x01. */
    method ObserveTag(tag: Tag, recording: bool) returns (r: Verdict)
      modifies this
      ensures Follows(r, Observe(old(State()), tag, recording), old(State()))
      ensures r.Accepted? && r.action.Write? ==>
                (r.action.isKeyframe <==> tag.header.tagType.Video? && [0x17, 0x01] <= tag.data)
    {
      match tag.header.tagType
      case ScriptData =>
        metadataTag := Some(tag);
        return Accepted(Drop);
      case Video =>
        if !IsAvcVideo(tag.data) {
          return Rejected(StreamProtocol("Unsupported FLV video codec; only AVC is supported"));
        }
        if IsAvcSequenceHeader(tag.data) {
          r := CacheAvcHeader(tag, recording);
          return;
        }
        if avcNaluLengthSize.Some? && IsAvcNaluPacket(tag.data) {
          r := CleanNalus(tag, avcNaluLengthSize.value);
          return;
        }
        return Accepted(Write(tag, IsAvcKeyframe(tag.data)));
      case Audio =>
        if IsAacSequenceHeader(tag.data) {
          if recording && aacSeqTag.Some? && aacSeqTag.value.data != tag.data {
            pendingHeaderChange := true;
          }
          aacSeqTag := Some(tag);
          return Accepted(Drop);
        }
        return Accepted(Write(tag, false));
    }
  }

  // ----- Media groups -----

  /** A group's fingerprint, taken as a parameter so that nothing depends on how it is computed. */
  type Fingerprint = seq<Tag> -> nat

  datatype Group = Group(pending: seq<Tag>, history: seq<nat>, duplicateRun: nat)

  const NO_GROUP: Group := Group([], [], 0)

  datatype FlushOutcome = Empty | Unique(tags: seq<Tag>) | Duplicate(thresholdExceeded: bool)

  predicate HasVideo(tags: seq<Tag>) {
    exists i :: 0 <= i < |tags| && tags[i].header.tagType.Video?
  }

  predicate StartsNewGroup(pending: seq<Tag>, tag: Tag, isKeyframe: bool) {
    && pending != []
    && (|| (isKeyframe && HasVideo(pending))
        || !(-GROUP_GAP_MS <= tag.header.timestamp - pending[|pending| - 1].header.timestamp < GROUP_GAP_MS))
  }

  /** The newest fingerprints, at most sixteen of them. */
  function Remember(history: seq<nat>, fingerprint: nat): (h: seq<nat>)
    ensures h != [] && h[|h| - 1] == fingerprint
  {
    var all := history + [fingerprint];
    if |all| > DUPLICATE_HISTORY_LIMIT then all[|all| - DUPLICATE_HISTORY_LIMIT..] else all
  }

  function FlushOf(g: Group, fp: Fingerprint): FlushOutcome {
    if g.pending == [] then Empty
    else if fp(g.pending) in g.history then
      Duplicate((if g.duplicateRun >= MAX_U32 then MAX_U32 else g.duplicateRun + 1) > DUPLICATE_RECONNECT_THRESHOLD)
    else Unique(g.pending)
  }

  function Flushed(g: Group, fp: Fingerprint): Group {
    if g.pending == [] then g
    else if fp(g.pending) in g.history then
      Group([], g.history, if g.duplicateRun >= MAX_U32 then MAX_U32 else g.duplicateRun + 1)
    else Group([], Remember(g.history, fp(g.pending)), 0)
  }

  class MediaGroupBuffer {
    const fingerprint: Fingerprint
    var pending: seq<Tag>
    var history: seq<nat>
    var duplicateRun: nat

    ghost function State(): Group
      reads this
    {
      Group(pending, history, duplicateRun)
    }

    constructor (fingerprint: Fingerprint)
      ensures State() == NO_GROUP && this.fingerprint == fingerprint
    {
      this.fingerprint := fingerprint;
      pending, history, duplicateRun := [], [], 0;
    }

    method ShouldStartNewGroup(tag: Tag, isKeyframe: bool) returns (starts: bool)
      ensures starts == StartsNewGroup(pending, tag, isKeyframe)
    {
      if |pending| == 0 {
        return false;
      }
      if isKeyframe {
        for i := 0 to |pending|
          invariant forall j | 0 <= j < i :: !pending[j].header.tagType.Video?
        {
          if pending[i].header.tagType.Video? {
            return true;
          }
        }
      }
      var diff := tag.header.timestamp - pending[|pending| - 1].header.timestamp;
      return !(-GROUP_GAP_MS <= diff < GROUP_GAP_MS);
    }

    method Push(tag: Tag)
      modifies this
      ensures State() == old(State()).(pending := old(pending) + [tag])
    {
      pending := pending + [tag];
    }

    method Flush() returns (outcome: FlushOutcome)
      requires |history| <= DUPLICATE_HISTORY_LIMIT
      modifies this
      ensures |history| <= DUPLICATE_HISTORY_LIMIT
      ensures outcome == FlushOf(old(State()), fingerprint) && State() == Flushed(old(State()), fingerprint)
    {
      if |pending| == 0 {
        return Empty;
      }
      var mark := fingerprint(pending);
      if mark in history {
        duplicateRun := if duplicateRun >= MAX_U32 then MAX_U32 else duplicateRun + 1;
        pending := [];
        return Duplicate(duplicateRun > DUPLICATE_RECONNECT_THRESHOLD);
      }
      duplicateRun := 0;
      history := history + [mark];
      ghost var all := history;
      while |history| > DUPLICATE_HISTORY_LIMIT
        invariant |history| <= |all| && history == all[|all| - |history|..]
        invariant DUPLICATE_HISTORY_LIMIT <= |history| || history == all
        invariant pending == old(pending) && duplicateRun == 0
      {
        history := history[1..];
      }
      outcome := Unique(pending);
      pending := [];
    }

    method ResetDeduplicator()
      modifies this
      ensures State() == Group(old(pending), [], 0)
    {
      history, duplicateRun := [], 0;
    }
  }
}
