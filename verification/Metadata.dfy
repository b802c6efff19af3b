/**
  The recorder's own `onMetaData` body: the properties the stream sent, followed by the duration
  and a keyframe index that always takes the same room, so that the body can be rewritten in place.
 */
module Metadata {
  import opened Wrappers
  import opened ByteStrings
  import opened Sequences
  import opened Amf
  import opened AmfStreams

  const KEYFRAME_INDEX_CAPACITY: nat := 4096
  const MAX_SOURCE_METADATA_BYTES: nat := 1024 * 1024

  /** The properties a body may hold besides the recorder's own two. */
  const MAX_FOREIGN: nat := MAX_OBJECT_ENTRIES - 2

  function Ascii(text: string): (s: Bytes)
    requires forall i | 0 <= i < |text| :: text[i] < 128 as char
    ensures |s| == |text|
    ensures forall i | 0 <= i < |s| :: s[i] < 0x80
  {
    seq(|text|, i requires 0 <= i < |text| => text[i] as int)
  }

  const ON_META_DATA: Bytes := Ascii("onMetaData")
  const DURATION: Bytes := Ascii("duration")
  const KEYFRAMES: Bytes := Ascii("keyframes")
  const TIMES: Bytes := Ascii("times")
  const FILE_POSITIONS: Bytes := Ascii("filepositions")
  const SPACER: Bytes := Ascii("spacer")

  datatype KeyframeIndex = KeyframeIndex(timeMs: U32, filePosition: nat)

  /** The 64-bit patterns of seconds, of file offsets and of NaN; how they are computed does not matter here. */
  datatype Floats = Floats(seconds: U32 -> U64, offset: nat -> U64, nan: U64)

  // ----- The properties of a body -----

  function ParseProperties(data: Bytes): Option<seq<Entry>> {
    match ReadValue(data, 0)
    case Got(Text(name), rest) =>
      if name != ON_META_DATA then None
      else (match ReadValue(rest, 0)
            case Got(Object(entries), _) => Some(entries)
            case Got(EcmaArray(entries), _) => Some(entries)
            case _ => None)
    case _ => None
  }

  function Properties(source: Bytes): seq<Entry> {
    if |source| > MAX_SOURCE_METADATA_BYTES then []
    else
      match ParseProperties(source)
      case Some(entries) => entries
      case None => []
  }

  /** The properties that are not the recorder's own. */
  function WithoutOwned(entries: seq<Entry>): (kept: seq<Entry>)
    ensures |kept| <= |entries|
  {
    if entries == [] then []
    else
      var others := WithoutOwned(entries[1..]);
      if entries[0].key == DURATION || entries[0].key == KEYFRAMES then others else [entries[0]] + others
  }

  function Foreign(source: Bytes): seq<Entry> {
    WithoutOwned(Properties(source))
  }

  // ----- The recorder's own properties -----

  function Numbers(bits: seq<U64>): seq<Value> {
    seq(|bits|, i requires 0 <= i < |bits| => Number(bits[i]))
  }

  function Indexed(keyframes: seq<KeyframeIndex>): (indexed: seq<KeyframeIndex>)
    ensures |indexed| <= KEYFRAME_INDEX_CAPACITY
  {
    if |keyframes| <= KEYFRAME_INDEX_CAPACITY then keyframes else keyframes[..KEYFRAME_INDEX_CAPACITY]
  }

  function TimeBits(fl: Floats, keyframes: seq<KeyframeIndex>): (bits: seq<U64>)
    ensures |bits| == |keyframes|
  {
    seq<U64>(|keyframes|, i requires 0 <= i < |keyframes| => fl.seconds(keyframes[i].timeMs))
  }

  function PositionBits(fl: Floats, keyframes: seq<KeyframeIndex>): (bits: seq<U64>)
    ensures |bits| == |keyframes|
  {
    seq<U64>(|keyframes|, i requires 0 <= i < |keyframes| => fl.offset(keyframes[i].filePosition))
  }

  function SpacerBits(fl: Floats, used: nat): (bits: seq<U64>)
    requires used <= KEYFRAME_INDEX_CAPACITY
    ensures |bits| == 2 * (KEYFRAME_INDEX_CAPACITY - used)
  {
    seq(2 * (KEYFRAME_INDEX_CAPACITY - used), _ => fl.nan)
  }

  function KeyframesValue(fl: Floats, keyframes: seq<KeyframeIndex>): Value {
    var indexed := Indexed(keyframes);
    Object([
      Entry(TIMES, StrictArray(Numbers(TimeBits(fl, indexed)))),
      Entry(FILE_POSITIONS, StrictArray(Numbers(PositionBits(fl, indexed)))),
      Entry(SPACER, StrictArray(Numbers(SpacerBits(fl, |indexed|))))])
  }

  function Owned(fl: Floats, durationMs: U32, keyframes: seq<KeyframeIndex>): seq<Entry> {
    [Entry(DURATION, Number(fl.seconds(durationMs))), Entry(KEYFRAMES, KeyframesValue(fl, keyframes))]
  }

  /** A body is the name followed by an array of these properties. */
  function Body(properties: seq<Entry>): Bytes
    requires EntriesWritable(properties)
  {
    Encode(Text(ON_META_DATA)) + Encode(EcmaArray(properties))
  }

  /** What the recorder makes of a stream's metadata. */
  function MetadataBody(fl: Floats, source: Bytes, durationMs: U32, keyframes: seq<KeyframeIndex>): Bytes {
    BodyIsWritable(fl, source, durationMs, keyframes);
    Body(Foreign(source) + Owned(fl, durationMs, keyframes))
  }

  // ----- Everything a body holds is within the reader's limits -----

  lemma {:induction false} WithoutOwnedIsOk(entries: seq<Entry>, depth: nat)
    requires EntriesOk(entries, depth)
    ensures EntriesOk(WithoutOwned(entries), depth)
    ensures forall e | e in WithoutOwned(entries) :: e.key != DURATION && e.key != KEYFRAMES
  {
    if entries != [] {
      assert EntriesOk(entries[1..], depth);
      WithoutOwnedIsOk(entries[1..], depth);
    }
  }

  lemma ForeignIsOk(source: Bytes)
    ensures EntriesOk(Foreign(source), 1) && |Foreign(source)| <= MAX_OBJECT_ENTRIES
    ensures forall e | e in Foreign(source) :: e.key != DURATION && e.key != KEYFRAMES
  {
    if ParseProperties(source).Some? {
      ParsedIsOk(source);
    }
    WithoutOwnedIsOk(Properties(source), 1);
  }

  lemma ParsedIsOk(data: Bytes)
    requires ParseProperties(data).Some?
    ensures EntriesReadable(ParseProperties(data).value, 1)
  {
    ReadIsReadable(ReadValue(data, 0).rest, 0);
  }

  lemma NumbersAreReadable(bits: seq<U64>, depth: nat)
    requires depth < MAX_DEPTH && |bits| <= MAX_ARRAY_ITEMS
    ensures Readable(StrictArray(Numbers(bits)), depth)
  {
  }

  lemma AsciiKey(key: Bytes)
    requires |key| < U16_SPAN && forall i | 0 <= i < |key| :: key[i] < 0x80
    ensures KeyOk(key)
  {
    AsciiIsUtf8(key);
  }

  lemma KeyframesReadable(fl: Floats, keyframes: seq<KeyframeIndex>)
    ensures Readable(KeyframesValue(fl, keyframes), 1)
  {
    var indexed := Indexed(keyframes);
    NumbersEntryIsOk(TIMES, TimeBits(fl, indexed));
    NumbersEntryIsOk(FILE_POSITIONS, PositionBits(fl, indexed));
    NumbersEntryIsOk(SPACER, SpacerBits(fl, |indexed|));
    ThreeAreReadable(
      Entry(TIMES, StrictArray(Numbers(TimeBits(fl, indexed)))),
      Entry(FILE_POSITIONS, StrictArray(Numbers(PositionBits(fl, indexed)))),
      Entry(SPACER, StrictArray(Numbers(SpacerBits(fl, |indexed|)))), 2);
  }

  lemma ThreeAreReadable(a: Entry, b: Entry, c: Entry, depth: nat)
    requires KeyOk(a.key) && Readable(a.value, depth) && KeyOk(b.key) && Readable(b.value, depth)
    requires KeyOk(c.key) && Readable(c.value, depth)
    ensures EntriesReadable([a, b, c], depth)
  {
  }

  lemma NumbersEntryIsOk(key: Bytes, bits: seq<U64>)
    requires |key| < U16_SPAN && (forall i | 0 <= i < |key| :: key[i] < 0x80) && |bits| <= MAX_ARRAY_ITEMS
    ensures KeyOk(key) && Readable(StrictArray(Numbers(bits)), 2)
  {
    AsciiKey(key);
    NumbersAreReadable(bits, 2);
  }

  lemma OwnedIsOk(fl: Floats, durationMs: U32, keyframes: seq<KeyframeIndex>)
    ensures EntriesOk(Owned(fl, durationMs, keyframes), 1)
  {
    KeyframesReadable(fl, keyframes);
    AsciiKey(DURATION);
    AsciiKey(KEYFRAMES);
  }

  lemma BodyIsWritable(fl: Floats, source: Bytes, durationMs: U32, keyframes: seq<KeyframeIndex>)
    ensures EntriesOk(Foreign(source) + Owned(fl, durationMs, keyframes), 1)
    ensures EntriesWritable(Foreign(source) + Owned(fl, durationMs, keyframes))
    ensures KeyFits(ON_META_DATA)
  {
    ForeignIsOk(source);
    OwnedIsOk(fl, durationMs, keyframes);
    ReadableEntriesAreWritable(Foreign(source) + Owned(fl, durationMs, keyframes), 1);
  }

  // ----- Reading a body back -----

  /** A body of at most 1024 properties reads back as those properties. */
  lemma BodyReparses(properties: seq<Entry>)
    requires EntriesReadable(properties, 1) && EntriesWritable(properties)
    ensures ParseProperties(Body(properties)) == Some(properties)
  {
    AsciiKey(ON_META_DATA);
    RoundTrip(Text(ON_META_DATA), 0, Encode(EcmaArray(properties)));
    RoundTrip(EcmaArray(properties), 0, []);
    NoneAdded(Encode(EcmaArray(properties)));
  }

  /** A body that announces more than 1024 properties is not read at all. */
  lemma CrowdedBodyIsRefused(properties: seq<Entry>)
    requires MAX_OBJECT_ENTRIES < |properties| < U32_SPAN && EntriesWritable(properties)
    ensures ParseProperties(Body(properties)) == None
  {
    AsciiKey(ON_META_DATA);
    RoundTrip(Text(ON_META_DATA), 0, Encode(EcmaArray(properties)));
    CrowdedArrayIsRefused(properties);
  }

  lemma CrowdedArrayIsRefused(properties: seq<Entry>)
    requires MAX_OBJECT_ENTRIES < |properties| < U32_SPAN && EntriesWritable(properties)
    ensures ReadValue(Encode(EcmaArray(properties)), 0) == Nothing
  {
    EncodedEcma(properties, []);
    NoneAdded(Encode(EcmaArray(properties)));
    CrowdedCountIsRefused(|properties|, EncodeEntries(properties) + (OBJECT_END + []));
  }

  lemma CrowdedCountIsRefused(count: nat, body: Bytes)
    requires MAX_OBJECT_ENTRIES < count < U32_SPAN
    ensures ReadValue([0x08] + (BigEndian(count, 4) + body), 0) == Nothing
  {
    Parts([0x08], BigEndian(count, 4) + body);
    Spans();
    CountRoundTrip(count, 4, body);
  }

  lemma {:induction false} WithoutOwnedKeeps(foreign: seq<Entry>, owned: seq<Entry>)
    requires forall e | e in foreign :: e.key != DURATION && e.key != KEYFRAMES
    requires forall e | e in owned :: e.key == DURATION || e.key == KEYFRAMES
    ensures WithoutOwned(foreign + owned) == foreign
  {
    if foreign == [] {
      NoneAdded(owned);
      NothingForeign(owned);
    } else {
      Peel(foreign, owned);
      assert foreign[0] in foreign && forall e | e in foreign[1..] :: e in foreign;
      WithoutOwnedKeeps(foreign[1..], owned);
      Cons(foreign);
    }
  }

  lemma {:induction false} NothingForeign(owned: seq<Entry>)
    requires forall e | e in owned :: e.key == DURATION || e.key == KEYFRAMES
    ensures WithoutOwned(owned) == []
  {
    if owned != [] {
      assert owned[0] in owned && forall e | e in owned[1..] :: e in owned;
      NothingForeign(owned[1..]);
    }
  }

  // ----- The size of a body -----

  lemma {:induction false} EncodeEntriesOfConcat(a: seq<Entry>, b: seq<Entry>)
    requires EntriesWritable(a) && EntriesWritable(b)
    ensures EntriesWritable(a + b)
    ensures |EncodeEntries(a + b)| == |EncodeEntries(a)| + |EncodeEntries(b)|
  {
    if a == [] {
      NoneAdded(b);
    } else {
      Peel(a, b);
      EncodeEntriesOfConcat(a[1..], b);
    }
  }

  lemma NumbersTakeNine(bits: seq<U64>)
    ensures Writable(StrictArray(Numbers(bits)))
    ensures |Encode(StrictArray(Numbers(bits)))| == 5 + 9 * |bits|
  {
    NumberItemsTakeNine(bits);
  }

  lemma {:induction false} NumberItemsTakeNine(bits: seq<U64>)
    ensures |EncodeItems(Numbers(bits))| == 9 * |bits|
  {
    if bits != [] {
      assert Numbers(bits)[1..] == Numbers(bits[1..]);
      NumberItemsTakeNine(bits[1..]);
    }
  }

  const KEYFRAMES_SIZE: nat := 49 + 9 * 2 * KEYFRAME_INDEX_CAPACITY

  lemma NumbersEntrySize(key: Bytes, bits: seq<U64>)
    requires KeyFits(key)
    ensures Writable(StrictArray(Numbers(bits)))
    ensures |EncodeEntry(Entry(key, StrictArray(Numbers(bits))))| == 2 + |key| + 5 + 9 * |bits|
  {
    NumbersTakeNine(bits);
  }

  lemma OneEntrySize(e: Entry)
    requires KeyFits(e.key) && Writable(e.value)
    ensures EntriesWritable([e]) && |EncodeEntries([e])| == |EncodeEntry(e)|
  {
    assert [e][1..] == [];
  }

  lemma TwoEntriesSize(a: Entry, b: Entry)
    requires KeyFits(a.key) && Writable(a.value) && KeyFits(b.key) && Writable(b.value)
    ensures EntriesWritable([a, b]) && |EncodeEntries([a, b])| == |EncodeEntry(a)| + |EncodeEntry(b)|
  {
    OneEntrySize(a);
    OneEntrySize(b);
    EncodeEntriesOfConcat([a], [b]);
    assert [a] + [b] == [a, b];
  }

  lemma ThreeEntriesSize(a: Entry, b: Entry, c: Entry)
    requires KeyFits(a.key) && Writable(a.value) && KeyFits(b.key) && Writable(b.value) && KeyFits(c.key)
             && Writable(c.value)
    ensures EntriesWritable([a, b, c])
            && |EncodeEntries([a, b, c])| == |EncodeEntry(a)| + |EncodeEntry(b)| + |EncodeEntry(c)|
  {
    OneEntrySize(a);
    TwoEntriesSize(b, c);
    EncodeEntriesOfConcat([a], [b, c]);
    assert [a] + [b, c] == [a, b, c];
  }

  /** The index takes the same room however many keyframes it holds. */
  lemma KeyframesSize(fl: Floats, keyframes: seq<KeyframeIndex>)
    ensures Writable(KeyframesValue(fl, keyframes))
    ensures |Encode(KeyframesValue(fl, keyframes))| == KEYFRAMES_SIZE
  {
    var indexed := Indexed(keyframes);
    var times, positions, spacer := TimeBits(fl, indexed), PositionBits(fl, indexed), SpacerBits(fl, |indexed|);
    NumbersEntrySize(TIMES, times);
    NumbersEntrySize(FILE_POSITIONS, positions);
    NumbersEntrySize(SPACER, spacer);
    ThreeEntriesSize(
      Entry(TIMES, StrictArray(Numbers(times))),
      Entry(FILE_POSITIONS, StrictArray(Numbers(positions))),
      Entry(SPACER, StrictArray(Numbers(spacer))));
    ObjectSize(KeyframesValue(fl, keyframes).entries);
  }

  lemma ObjectSize(entries: seq<Entry>)
    requires EntriesWritable(entries)
    ensures |Encode(Object(entries))| == 4 + |EncodeEntries(entries)|
  {
  }

  const OWNED_SIZE: nat := (2 + 8 + 9) + (2 + 9 + KEYFRAMES_SIZE)

  lemma OwnedSize(fl: Floats, durationMs: U32, keyframes: seq<KeyframeIndex>)
    ensures EntriesWritable(Owned(fl, durationMs, keyframes))
    ensures |EncodeEntries(Owned(fl, durationMs, keyframes))| == OWNED_SIZE
  {
    KeyframesSize(fl, keyframes);
    TwoEntriesSize(Entry(DURATION, Number(fl.seconds(durationMs))), Entry(KEYFRAMES, KeyframesValue(fl, keyframes)));
  }

  /** What a body takes besides its foreign properties: the name, the array's frame and the recorder's own. */
  const FIXED_SIZE: nat := (3 + 10) + 8 + OWNED_SIZE

  /** A body's size depends on the foreign properties alone. */
  lemma BodySize(fl: Floats, source: Bytes, durationMs: U32, keyframes: seq<KeyframeIndex>)
    ensures EntriesWritable(Foreign(source))
    ensures |MetadataBody(fl, source, durationMs, keyframes)| == FIXED_SIZE + |EncodeEntries(Foreign(source))|
  {
    var foreign, owned := Foreign(source), Owned(fl, durationMs, keyframes);
    BodyIsWritable(fl, source, durationMs, keyframes);
    ForeignIsOk(source);
    ReadableEntriesAreWritable(foreign, 1);
    OwnedSize(fl, durationMs, keyframes);
    EncodeEntriesOfConcat(foreign, owned);
    BodyFrameSize(foreign + owned);
  }

  lemma BodyFrameSize(properties: seq<Entry>)
    requires EntriesWritable(properties)
    ensures |Body(properties)| == 21 + |EncodeEntries(properties)|
  {
  }

  // ----- The rewrite in place -----

  /** When a body still reads as the properties it was made of. */
  predicate RewriteFits(fl: Floats, source: Bytes) {
    && |Foreign(source)| <= MAX_FOREIGN
    && |MetadataBody(fl, source, 0, [])| <= MAX_SOURCE_METADATA_BYTES
  }

  /** The properties survive being written and parsed again, or all of them are lost. */
  lemma ForeignOfBody(fl: Floats, source: Bytes)
    ensures Foreign(MetadataBody(fl, source, 0, [])) == if RewriteFits(fl, source) then Foreign(source) else []
  {
    var foreign, owned := Foreign(source), Owned(fl, 0, []);
    BodyIsWritable(fl, source, 0, []);
    ForeignIsOk(source);
    if |foreign| <= MAX_FOREIGN {
      BodyReparses(foreign + owned);
      WithoutOwnedKeeps(foreign, owned);
    } else {
      CrowdedBodyIsRefused(foreign + owned);
    }
  }

  /**
    Rewriting a body in place keeps its length exactly when the stream's properties fit: at most
    1022 of them, in a body of at most 1 MiB. Otherwise the rewrite is always shorter, whatever
    the duration and the keyframes.
   */
  lemma RewriteKeepsLengthIff(fl: Floats, source: Bytes, durationMs: U32, keyframes: seq<KeyframeIndex>)
    ensures var first := MetadataBody(fl, source, 0, []);
            var second := MetadataBody(fl, first, durationMs, keyframes);
            && (|second| == |first| <==> RewriteFits(fl, source))
            && (RewriteFits(fl, source) ==> second == MetadataBody(fl, source, durationMs, keyframes))
            && (!RewriteFits(fl, source) ==> |second| == FIXED_SIZE < |first|)
  {
    var first := MetadataBody(fl, source, 0, []);
    ForeignOfBody(fl, source);
    BodySize(fl, source, 0, []);
    BodySize(fl, first, durationMs, keyframes);
  }

  // ----- What a reader finds in a body -----

  /** The entries have this key, and whichever has it has this value. */
  ghost predicate Under(entries: seq<Entry>, key: string, value: Value)
    requires forall i | 0 <= i < |key| :: key[i] < 128 as char
  {
    && (exists i :: 0 <= i < |entries| && entries[i] == Entry(Ascii(key), value))
    && (forall i | 0 <= i < |entries| && entries[i].key == Ascii(key) :: entries[i].value == value)
  }

  /** As many items as fit the index; each time and each position is that of its keyframe, the rest is NaN. */
  ghost predicate Tables(fl: Floats, keyframes: seq<KeyframeIndex>, times: seq<Value>, positions: seq<Value>,
      spacer: seq<Value>)
  {
    && |times| == |positions| == (if |keyframes| < 4096 then |keyframes| else 4096)
    && (forall i | 0 <= i < |times| :: times[i] == Number(fl.seconds(keyframes[i].timeMs)))
    && (forall i | 0 <= i < |positions| :: positions[i] == Number(fl.offset(keyframes[i].filePosition)))
    && |times| + |positions| + |spacer| == 2 * 4096
    && (forall i | 0 <= i < |spacer| :: spacer[i] == Number(fl.nan))
  }

  ghost predicate HoldsTables(fl: Floats, keyframes: seq<KeyframeIndex>, parts: seq<Entry>, times: seq<Value>,
      positions: seq<Value>, spacer: seq<Value>)
  {
    && Tables(fl, keyframes, times, positions, spacer)
    && Under(parts, "times", StrictArray(times))
    && Under(parts, "filepositions", StrictArray(positions))
    && Under(parts, "spacer", StrictArray(spacer))
  }

  ghost predicate IsTables(fl: Floats, keyframes: seq<KeyframeIndex>, v: Value) {
    && v.Object?
    && exists times, positions, spacer :: HoldsTables(fl, keyframes, v.entries, times, positions, spacer)
  }

  /** The duration and the keyframe index, by their names. */
  ghost predicate Describes(fl: Floats, properties: seq<Entry>, durationMs: U32, keyframes: seq<KeyframeIndex>) {
    && Under(properties, "duration", Number(fl.seconds(durationMs)))
    && exists v :: Under(properties, "keyframes", v) && IsTables(fl, keyframes, v)
  }

  /** An entry under a name that is not the recorder's own. */
  predicate IsForeign(e: Entry) {
    e.key != Ascii("duration") && e.key != Ascii("keyframes")
  }

  ghost predicate PicksForeign(source: seq<Entry>, picked: seq<Entry>, from: seq<nat>) {
    Picks(source, picked, from, IsForeign)
  }

  ghost predicate AreForeign(source: seq<Entry>, picked: seq<Entry>) {
    exists from :: PicksForeign(source, picked, from)
  }

  /** The entries the stream sent under other names, in its order, and two more. */
  ghost predicate OthersStay(source: seq<Entry>, properties: seq<Entry>) {
    |properties| >= 2 && AreForeign(source, properties[..|properties| - 2])
  }

  lemma TablesOfIndex(fl: Floats, keyframes: seq<KeyframeIndex>)
    ensures var indexed := Indexed(keyframes);
            Tables(fl, keyframes, Numbers(TimeBits(fl, indexed)), Numbers(PositionBits(fl, indexed)),
                   Numbers(SpacerBits(fl, |indexed|)))
  {
  }

  lemma Differ(a: string, b: string, i: nat)
    requires (forall i | 0 <= i < |a| :: a[i] < 128 as char) && (forall i | 0 <= i < |b| :: b[i] < 128 as char)
    requires |a| != |b| || (i < |a| && a[i] != b[i])
    ensures Ascii(a) != Ascii(b)
  {
    if |a| == |b| {
      assert Ascii(a)[i] != Ascii(b)[i];
    }
  }

  lemma TablesAreHeld(fl: Floats, keyframes: seq<KeyframeIndex>)
    ensures var indexed := Indexed(keyframes);
            && KeyframesValue(fl, keyframes).Object?
            && HoldsTables(fl, keyframes, KeyframesValue(fl, keyframes).entries, Numbers(TimeBits(fl, indexed)),
                   Numbers(PositionBits(fl, indexed)), Numbers(SpacerBits(fl, |indexed|)))
  {
    hide Tables, Numbers, TimeBits, PositionBits, SpacerBits;
    TablesOfIndex(fl, keyframes);
    Differ("times", "filepositions", 0);
    Differ("times", "spacer", 0);
    Differ("filepositions", "spacer", 0);
    var parts := KeyframesValue(fl, keyframes).entries;
    assert parts[0].key == Ascii("times") && parts[1].key == Ascii("filepositions") && parts[2].key == Ascii("spacer");
  }

  lemma OwnedDescribe(fl: Floats, foreign: seq<Entry>, durationMs: U32, keyframes: seq<KeyframeIndex>)
    requires forall e | e in foreign :: e.key != DURATION && e.key != KEYFRAMES
    ensures Describes(fl, foreign + Owned(fl, durationMs, keyframes), durationMs, keyframes)
  {
    hide KeyframesValue, HoldsTables, Numbers, TimeBits, PositionBits, SpacerBits;
    var properties, n := foreign + Owned(fl, durationMs, keyframes), |foreign|;
    TablesAreHeld(fl, keyframes);
    Differ("duration", "keyframes", 0);
    forall i | 0 <= i < n ensures properties[i].key != DURATION && properties[i].key != KEYFRAMES {
      assert properties[i] == foreign[i] && foreign[i] in foreign;
    }
    assert properties[n] == Entry(DURATION, Number(fl.seconds(durationMs)));
    assert properties[n + 1] == Entry(KEYFRAMES, KeyframesValue(fl, keyframes));
    assert Under(properties, "duration", Number(fl.seconds(durationMs)));
    assert Under(properties, "keyframes", KeyframesValue(fl, keyframes));
  }

  lemma {:induction false} ForeignIsPicked(entries: seq<Entry>) returns (from: seq<nat>)
    ensures Picks(entries, WithoutOwned(entries), from, IsForeign)
  {
    if entries == [] {
      from := [];
    } else {
      from := ForeignIsPicked(entries[1..]);
      from := PicksNext(entries, WithoutOwned(entries[1..]), from, IsForeign);
    }
  }

  lemma OthersOfForeign(fl: Floats, source: Bytes, durationMs: U32, keyframes: seq<KeyframeIndex>)
    ensures OthersStay(Properties(source), Foreign(source) + Owned(fl, durationMs, keyframes))
  {
    var from := ForeignIsPicked(Properties(source));
    var all := Foreign(source) + Owned(fl, durationMs, keyframes);
    assert all[..|all| - 2] == Foreign(source);
    assert PicksForeign(Properties(source), Foreign(source), from);
  }

  /** What a body reads back as, while its properties are few enough to be read. */
  lemma BodyDescribes(fl: Floats, source: Bytes, durationMs: U32, keyframes: seq<KeyframeIndex>)
    requires |Foreign(source)| <= MAX_FOREIGN
    ensures ReadsAs(fl, source, durationMs, keyframes, MetadataBody(fl, source, durationMs, keyframes))
  {
    hide Describes, OthersStay;
    BodyIsWritable(fl, source, durationMs, keyframes);
    ForeignIsOk(source);
    BodyReparses(Foreign(source) + Owned(fl, durationMs, keyframes));
    OwnedDescribe(fl, Foreign(source), durationMs, keyframes);
    OthersOfForeign(fl, source, durationMs, keyframes);
  }

  ghost predicate ReadsAs(fl: Floats, source: Bytes, durationMs: U32, keyframes: seq<KeyframeIndex>, body: Bytes) {
    && ParseProperties(body).Some?
    && Describes(fl, ParseProperties(body).value, durationMs, keyframes)
    && OthersStay(Properties(source), ParseProperties(body).value)
  }

  /**
    A rewritten body reads back as what the stream sent under other names, the duration under
    `duration` and the keyframe index under `keyframes`: item by item the time and the position
    of each keyframe, as far as they fit, and NaN in the room that is left.
   */
  lemma RewrittenBodyReparses(fl: Floats, source: Bytes, durationMs: U32, keyframes: seq<KeyframeIndex>)
    requires RewriteFits(fl, source)
    ensures ReadsAs(fl, source, durationMs, keyframes,
                    MetadataBody(fl, MetadataBody(fl, source, 0, []), durationMs, keyframes))
  {
    RewriteKeepsLengthIff(fl, source, durationMs, keyframes);
    BodyDescribes(fl, source, durationMs, keyframes);
  }

  // ----- Streams whose metadata cannot be rewritten -----

  /** So many empty entries that a reader still takes them, and a body of them plus two more is refused. */
  function CrowdedSource(): Bytes {
    Body(EmptyEntries(MAX_FOREIGN + 1))
  }

  function EmptyEntries(n: nat): (entries: seq<Entry>)
    ensures |entries| == n && EntriesWritable(entries)
  {
    seq(n, _ => Entry([], Null))
  }

  lemma {:induction false} EmptyEntriesStay(n: nat)
    ensures WithoutOwned(EmptyEntries(n)) == EmptyEntries(n) && |EncodeEntries(EmptyEntries(n))| == 3 * n
  {
    if n > 0 {
      assert EmptyEntries(n)[1..] == EmptyEntries(n - 1);
      EmptyEntriesStay(n - 1);
      Cons(EmptyEntries(n));
    }
  }

  /** Small, well-formed metadata of 1023 properties breaks every rewrite. */
  lemma CrowdedSourceBreaksRewrite(fl: Floats, durationMs: U32, keyframes: seq<KeyframeIndex>)
    ensures |CrowdedSource()| < 4096 && ParseProperties(CrowdedSource()).Some?
    ensures var first := MetadataBody(fl, CrowdedSource(), 0, []);
            |MetadataBody(fl, first, durationMs, keyframes)| < |first|
  {
    var entries := EmptyEntries(MAX_FOREIGN + 1);
    assert EntriesOk(entries, 1);
    BodyReparses(entries);
    EmptyEntriesStay(MAX_FOREIGN + 1);
    BodyFrameSize(entries);
    RewriteKeepsLengthIff(fl, CrowdedSource(), durationMs, keyframes);
  }

  // ----- Building the body -----

  method WriteNumbers(w: Writer, bits: seq<U64>)
    modifies w
    ensures w.out == old(w.out) + Encode(StrictArray(Numbers(bits)))
  {
    w.Append([0x0A]);
    w.Append(BigEndian(|bits|, 4));
    NoneAdded(w.out);
    ghost var head := w.out;
    for i := 0 to |bits|
      invariant w.out == head + EncodeItems(Numbers(bits)[..i])
    {
      ghost var front := EncodeItems(Numbers(bits)[..i]);
      w.WriteValue(Number(bits[i]));
      Assoc(head, front, Encode(Number(bits[i])));
      EncodeMoreItems(Numbers(bits), i);
    }
    assert Numbers(bits)[..|bits|] == Numbers(bits);
    Assoc(old(w.out), [0x0A], BigEndian(|bits|, 4));
    Assoc(old(w.out), [0x0A] + BigEndian(|bits|, 4), EncodeItems(Numbers(bits)));
  }

  method WriteNumbersEntry(w: Writer, key: Bytes, bits: seq<U64>)
    requires KeyFits(key)
    modifies w
    ensures Writable(StrictArray(Numbers(bits)))
    ensures w.out == old(w.out) + EncodeEntry(Entry(key, StrictArray(Numbers(bits))))
  {
    w.WriteKey(key);
    WriteNumbers(w, bits);
    Assoc(old(w.out), EncodeKey(key), Encode(StrictArray(Numbers(bits))));
  }

  lemma EncodeThree(a: Entry, b: Entry, c: Entry)
    requires EntriesWritable([a, b, c])
    ensures KeyFits(a.key) && Writable(a.value) && KeyFits(b.key) && Writable(b.value) && KeyFits(c.key)
            && Writable(c.value)
    ensures EncodeEntries([a, b, c]) == EncodeEntry(a) + (EncodeEntry(b) + EncodeEntry(c))
  {
    var entries := [a, b, c];
    assert entries[0] == a && entries[1] == b && entries[2] == c;
    assert [b, c][1..] == [c];
    assert [a, b, c][1..] == [b, c];
    assert [c][1..] == [];
    assert EncodeEntries([c]) == EncodeEntry(c);
  }

  method WriteKeyframesValue(w: Writer, fl: Floats, keyframes: seq<KeyframeIndex>)
    modifies w
    ensures Writable(KeyframesValue(fl, keyframes))
    ensures w.out == old(w.out) + Encode(KeyframesValue(fl, keyframes))
    ensures IsTables(fl, keyframes, KeyframesValue(fl, keyframes))
  {
    TablesAreHeld(fl, keyframes);
    var indexed := Indexed(keyframes);
    var times, positions, spacer := TimeBits(fl, indexed), PositionBits(fl, indexed), SpacerBits(fl, |indexed|);
    w.Append([0x03]);
    ghost var head := w.out;
    WriteNumbersEntry(w, TIMES, times);
    WriteNumbersEntry(w, FILE_POSITIONS, positions);
    WriteNumbersEntry(w, SPACER, spacer);
    w.Append(OBJECT_END);
    KeyframesSize(fl, keyframes);
    var a := Entry(TIMES, StrictArray(Numbers(times)));
    var b := Entry(FILE_POSITIONS, StrictArray(Numbers(positions)));
    var c := Entry(SPACER, StrictArray(Numbers(spacer)));
    KeyframesPieces(old(w.out), a, b, c);
  }

  lemma KeyframesPieces(before: Bytes, a: Entry, b: Entry, c: Entry)
    requires EntriesWritable([a, b, c])
    ensures KeyFits(a.key) && Writable(a.value) && KeyFits(b.key) && Writable(b.value) && KeyFits(c.key)
            && Writable(c.value)
    ensures before + [0x03] + EncodeEntry(a) + EncodeEntry(b) + EncodeEntry(c) + OBJECT_END ==
              before + Encode(Object([a, b, c]))
  {
    EncodeThree(a, b, c);
    var head := before + [0x03];
    Assoc(head + EncodeEntry(a), EncodeEntry(b), EncodeEntry(c));
    Assoc(head, EncodeEntry(a), EncodeEntry(b) + EncodeEntry(c));
    Assoc(before, [0x03], EncodeEntries([a, b, c]));
    Assoc(before, [0x03] + EncodeEntries([a, b, c]), OBJECT_END);
  }

  method ParseMetadataProperties(data: Bytes) returns (r: Option<seq<Entry>>)
    ensures r == ParseProperties(data)
  {
    ghost var first := ReadValue(data, 0);
    var reader := new Reader(data);
    var name := reader.ReadValueAt(0);
    if name.None? || !name.value.Text? || name.value.text != ON_META_DATA {
      return None;
    }
    assert reader.Rest() == first.rest;
    var properties := reader.ReadValueAt(0);
    if properties.None? {
      return None;
    }
    match properties.value
    case Object(entries) => return Some(entries);
    case EcmaArray(entries) => return Some(entries);
    case _ => return None;
  }

  /** Unreadable or oversized metadata is replaced by none. */
  method ParseWithFallback(source: Bytes) returns (properties: seq<Entry>)
    ensures properties == Properties(source)
  {
    if |source| > MAX_SOURCE_METADATA_BYTES {
      return [];
    }
    var parsed := ParseMetadataProperties(source);
    return if parsed.Some? then parsed.value else [];
  }

  function OwnedBytes(fl: Floats, durationMs: U32, keyframes: seq<KeyframeIndex>): Bytes {
    OwnedSize(fl, durationMs, keyframes);
    EncodeEntries(Owned(fl, durationMs, keyframes))
  }

  method WriteOwned(w: Writer, fl: Floats, durationMs: U32, keyframes: seq<KeyframeIndex>)
    modifies w
    ensures w.out == old(w.out) + OwnedBytes(fl, durationMs, keyframes)
  {
    w.WriteKey(DURATION);
    w.WriteValue(Number(fl.seconds(durationMs)));
    w.WriteKey(KEYFRAMES);
    WriteKeyframesValue(w, fl, keyframes);
    OwnedPieces(old(w.out), fl, durationMs, keyframes);
  }

  method WriteBody(fl: Floats, properties: seq<Entry>, ghost source: Bytes, durationMs: U32,
                   keyframes: seq<KeyframeIndex>) returns (out: Bytes)
    requires properties == Foreign(source)
    ensures out == MetadataBody(fl, source, durationMs, keyframes)
  {
    hide Encode, EncodeEntries, BigEndian, Body;
    BodyPieces(fl, source, durationMs, keyframes);
    var w := new Writer();
    w.WriteValue(Text(ON_META_DATA));
    w.Append([0x08]);
    w.Append(BigEndian(|properties| + 2, 4));
    w.WriteEntries(properties);
    WriteOwned(w, fl, durationMs, keyframes);
    w.Append(OBJECT_END);
    NoneAdded(Encode(Text(ON_META_DATA)));
    return w.out;
  }

  method BuildMetadataBody(fl: Floats, source: Bytes, durationMs: U32, keyframes: seq<KeyframeIndex>)
    returns (out: Bytes)
    ensures out == MetadataBody(fl, source, durationMs, keyframes)
    ensures |Foreign(source)| <= MAX_FOREIGN ==> ReadsAs(fl, source, durationMs, keyframes, out)
  {
    hide ReadsAs;
    var properties := ParseWithFallback(source);
    out := WriteBody(fl, WithoutOwned(properties), source, durationMs, keyframes);
    if |Foreign(source)| <= MAX_FOREIGN {
      BodyDescribes(fl, source, durationMs, keyframes);
    }
  }

  lemma {:induction false} EncodeEntriesConcat(a: seq<Entry>, b: seq<Entry>)
    requires EntriesWritable(a) && EntriesWritable(b)
    ensures EntriesWritable(a + b)
    ensures EncodeEntries(a + b) == EncodeEntries(a) + EncodeEntries(b)
  {
    if a == [] {
      NoneAdded(b);
      NoneAdded(EncodeEntries(b));
    } else {
      Peel(a, b);
      EncodeEntriesConcat(a[1..], b);
      Assoc(EncodeEntry(a[0]), EncodeEntries(a[1..]), EncodeEntries(b));
    }
  }

  lemma EncodeTwo(a: Entry, b: Entry)
    requires KeyFits(a.key) && Writable(a.value) && KeyFits(b.key) && Writable(b.value)
    ensures EntriesWritable([a, b]) && EncodeEntries([a, b]) == EncodeEntry(a) + EncodeEntry(b)
  {
    assert [a, b][1..] == [b] && [b][1..] == [];
    assert EncodeEntries([b]) == EncodeEntry(b);
  }

  lemma OwnedPieces(before: Bytes, fl: Floats, durationMs: U32, keyframes: seq<KeyframeIndex>)
    ensures Writable(KeyframesValue(fl, keyframes))
    ensures before + EncodeKey(DURATION) + Encode(Number(fl.seconds(durationMs))) + EncodeKey(KEYFRAMES)
              + Encode(KeyframesValue(fl, keyframes))
            == before + OwnedBytes(fl, durationMs, keyframes)
  {
    var a, b := Entry(DURATION, Number(fl.seconds(durationMs))), Entry(KEYFRAMES, KeyframesValue(fl, keyframes));
    KeyframesSize(fl, keyframes);
    EncodeTwo(a, b);
    Assoc(before, EncodeKey(a.key), Encode(a.value));
    Assoc(before + EncodeEntry(a), EncodeKey(b.key), Encode(b.value));
    Assoc(before, EncodeEntry(a), EncodeEntry(b));
  }

  lemma BodyPieces(fl: Floats, source: Bytes, durationMs: U32, keyframes: seq<KeyframeIndex>)
    ensures EntriesWritable(Foreign(source)) && KeyFits(ON_META_DATA)
    ensures Encode(Text(ON_META_DATA)) + [0x08] + BigEndian(|Foreign(source)| + 2, 4) + EncodeEntries(Foreign(source))
              + OwnedBytes(fl, durationMs, keyframes) + OBJECT_END
            == MetadataBody(fl, source, durationMs, keyframes)
  {
    var foreign, owned := Foreign(source), Owned(fl, durationMs, keyframes);
    BodyIsWritable(fl, source, durationMs, keyframes);
    BodySize(fl, source, durationMs, keyframes);
    OwnedSize(fl, durationMs, keyframes);
    EncodeEntriesConcat(foreign, owned);
    var name := Encode(Text(ON_META_DATA));
    Assoc(name + [0x08] + BigEndian(|foreign| + 2, 4), EncodeEntries(foreign), EncodeEntries(owned));
    Writer.EcmaPieces(name, foreign + owned);
  }

  // ----- A body always fits its tag -----

  lemma {:induction false} EncodeAtMostTwice(s: Bytes, depth: nat)
    requires ReadValue(s, depth).Got?
    ensures Writable(ReadValue(s, depth).value)
    ensures |Encode(ReadValue(s, depth).value)| <= 2 * (|s| - |ReadValue(s, depth).rest|)
    decreases |s|, 2
  {
    ReadIsReadable(s, depth);
    ReadableIsWritable(ReadValue(s, depth).value, depth);
    var s' := s[1..];
    match s[0]
    case 0x03 => EntriesAtMostTwice(s', MAX_OBJECT_ENTRIES, true, depth + 1);
    case 0x08 => EntriesAtMostTwice(s'[4..], ReadUnsigned(s', 4).value, false, depth + 1);
    case 0x0A => ItemsAtMostTwice(s'[4..], ReadUnsigned(s', 4).value, depth + 1);
    case _ =>
  }

  lemma {:induction false} EntryAtMostTwice(s: Bytes, depth: nat)
    requires ReadEntry(s, depth).Got?
    ensures var e := ReadEntry(s, depth).value;
            && KeyFits(e.key) && Writable(e.value)
            && |EncodeEntry(e)| <= 2 * (|s| - |ReadEntry(s, depth).rest|)
    decreases |s|, 0
  {
    ReadTextIsOk(s);
    EncodeAtMostTwice(ReadText(s).rest, depth);
  }

  lemma {:induction false} EntriesAtMostTwice(s: Bytes, room: nat, open: bool, depth: nat)
    requires ReadEntries(s, room, open, depth).Got?
    ensures EntriesWritable(ReadEntries(s, room, open, depth).value)
    ensures |EncodeEntries(ReadEntries(s, room, open, depth).value)|
              + (if open then 3 else 0) <= 2 * (|s| - |ReadEntries(s, room, open, depth).rest|)
    decreases |s|, 1
  {
    if !StartsWith(s, OBJECT_END) && room > 0 {
      var e, rest := ReadEntry(s, depth).value, ReadEntry(s, depth).rest;
      var others := ReadEntries(rest, room - 1, open, depth).value;
      EntryAtMostTwice(s, depth);
      EntriesAtMostTwice(rest, room - 1, open, depth);
      OneEntrySize(e);
      EncodeEntriesOfConcat([e], others);
    }
  }

  lemma {:induction false} ItemsAtMostTwice(s: Bytes, count: nat, depth: nat)
    requires ReadItems(s, count, depth).Got?
    ensures Writable(StrictArray(ReadItems(s, count, depth).value))
    ensures |EncodeItems(ReadItems(s, count, depth).value)| <= 2 * (|s| - |ReadItems(s, count, depth).rest|)
    decreases |s|, 3, count
  {
    if count > 0 {
      var item, rest := ReadValue(s, depth).value, ReadValue(s, depth).rest;
      var others := ReadItems(rest, count - 1, depth).value;
      EncodeAtMostTwice(s, depth);
      ItemsAtMostTwice(rest, count - 1, depth);
      assert ([item] + others)[1..] == others;
    }
  }

  lemma {:induction false} WithoutOwnedShrinks(entries: seq<Entry>)
    requires EntriesWritable(entries)
    ensures EntriesWritable(WithoutOwned(entries))
    ensures |EncodeEntries(WithoutOwned(entries))| <= |EncodeEntries(entries)|
  {
    if entries != [] {
      WithoutOwnedShrinks(entries[1..]);
      OneEntrySize(entries[0]);
      EncodeEntriesOfConcat([entries[0]], WithoutOwned(entries[1..]));
    }
  }

  lemma ParsedAtMostTwice(data: Bytes)
    requires ParseProperties(data).Some?
    ensures EntriesWritable(ParseProperties(data).value)
    ensures |EncodeEntries(ParseProperties(data).value)| <= 2 * |data|
  {
    EncodeAtMostTwice(ReadValue(data, 0).rest, 0);
  }

  /** Whatever the stream sends, the body is far below the 16 MiB a tag can hold. */
  lemma BodyFitsTag(fl: Floats, source: Bytes, durationMs: U32, keyframes: seq<KeyframeIndex>)
    ensures |MetadataBody(fl, source, durationMs, keyframes)| <= FIXED_SIZE + 2 * MAX_SOURCE_METADATA_BYTES < U24_SPAN
  {
    BodySize(fl, source, durationMs, keyframes);
    if |source| <= MAX_SOURCE_METADATA_BYTES && ParseProperties(source).Some? {
      ParsedAtMostTwice(source);
    }
    WithoutOwnedShrinks(Properties(source));
  }
}
