/**
  The FLV container of Annex E of the Adobe Flash Video File Format Specification: the file
  header (E.2), the back pointers between tags (E.3) and the tags (E.4).
 */
module FlvFormat {
  import opened Wrappers
  import opened ByteStrings
  import opened Sequences

  datatype FlvHeader = FlvHeader(hasVideo: bool, hasAudio: bool)

  datatype TagType = Audio | Video | ScriptData {
    function Code(): Byte {
      match this
      case Audio => 8
      case Video => 9
      case ScriptData => 18
    }
  }

  datatype TagHeader = TagHeader(tagType: TagType, dataSize: U32, timestamp: U32, streamId: U32)

  datatype Tag = Tag(header: TagHeader, data: Bytes) {
    /** What the container can hold, which is what every parsed tag satisfies. */
    predicate Fits() {
      |data| == header.dataSize && header.dataSize < U24_SPAN && header.streamId < U24_SPAN
    }
  }

  const TAG_HEADER_SIZE: nat := 11

  /** The signature, version 1, the flags and the offset 9. */
  const SIGNATURE: Bytes := [0x46, 0x4C, 0x56]

  function FlagBits(h: FlvHeader): Byte {
    (if h.hasVideo then 1 else 0) + (if h.hasAudio then 4 else 0)
  }

  function WriteHeader(h: FlvHeader): Bytes {
    SIGNATURE + [1, FlagBits(h)] + BigEndian(9, 4)
  }

  function ReadHeader(s: Bytes): Result<FlvHeader> {
    if |s| < 9 then Failure("failed to fill whole buffer")
    else if s[..3] != SIGNATURE then Failure("Invalid FLV signature")
    else if s[3] != 1 then Failure("Unsupported FLV version")
    else if Unsigned(s[5..9]) != 9 then Failure("Unsupported FLV offset")
    else Success(FlvHeader(s[4] % 2 != 0, (s[4] / 4) % 2 != 0))
  }

  function TagTypeOf(code: Byte): Option<TagType> {
    if code == 8 then Some(Audio)
    else if code == 9 then Some(Video)
    else if code == 18 then Some(ScriptData)
    else None
  }

  function ReadTagHeader(s: Bytes): Result<TagHeader> {
    if |s| < TAG_HEADER_SIZE then Failure("failed to fill whole buffer")
    else if TagTypeOf(s[0]).None? then Failure("Invalid FLV tag type")
    else
      TagHeaderBounds(s);
      Success(TagHeader(TagTypeOf(s[0]).value, Unsigned(s[1..4]), Unsigned([s[7]] + s[4..7]), Unsigned(s[8..11])))
  }

  lemma TagHeaderBounds(s: Bytes)
    requires |s| >= TAG_HEADER_SIZE
    ensures Unsigned(s[1..4]) < U24_SPAN && Unsigned([s[7]] + s[4..7]) < U32_SPAN && Unsigned(s[8..11]) < U24_SPAN
  {
    Spans();
    BigEndianOfUnsigned(s[1..4]);
    BigEndianOfUnsigned([s[7]] + s[4..7]);
    BigEndianOfUnsigned(s[8..11]);
  }

  function WriteTagHeader(h: TagHeader): Result<Bytes> {
    if h.dataSize >= U24_SPAN then Failure("FLV tag data size exceeds 24 bits")
    else if h.streamId >= U24_SPAN then Failure("FLV tag stream ID exceeds 24 bits")
    else
      var size, stamp, stream := BigEndian(h.dataSize, 4), BigEndian(h.timestamp, 4), BigEndian(h.streamId, 4);
      Success([h.tagType.Code()] + size[1..] + stamp[1..] + [stamp[0]] + stream[1..])
  }

  /** The size a tag takes in the file, with its back pointer. */
  function TagSpan(h: TagHeader): nat {
    TAG_HEADER_SIZE + h.dataSize + 4
  }

  function ReadTag(s: Bytes): Result<Tag> {
    var h :- ReadTagHeader(s);
    var body := s[TAG_HEADER_SIZE..];
    if |body| < h.dataSize + 4 then Failure("failed to fill whole buffer")
    else if Unsigned(body[h.dataSize..][..4]) != TAG_HEADER_SIZE + h.dataSize then Failure("Invalid PreviousTagSize")
    else Success(Tag(h, body[..h.dataSize]))
  }

  /** The length is compared as a 32-bit number. */
  function WriteTag(t: Tag): Result<Bytes> {
    if |t.data| % U32_SPAN != t.header.dataSize then Failure("FLV tag data size mismatch")
    else
      var head :- WriteTagHeader(t.header);
      Success(head + t.data + BigEndian(TAG_HEADER_SIZE + t.header.dataSize, 4))
  }

  // ----- Header round trip -----

  lemma HeaderRoundTrip(h: FlvHeader, rest: Bytes)
    ensures ReadHeader(WriteHeader(h) + rest) == Success(h)
  {
    Spans();
    UnsignedOfBigEndian(9, 4);
    var s := WriteHeader(h) + rest;
    assert s[5..9] == BigEndian(9, 4);
    assert s[..3] == SIGNATURE;
  }

  /** A header is written back byte for byte exactly when its reserved flags are clear. */
  lemma HeaderRewrites(s: Bytes)
    requires ReadHeader(s).Success?
    ensures WriteHeader(ReadHeader(s).value) == s[..9] <==> s[4] in {0, 1, 4, 5}
  {
    BigEndianOfUnsigned(s[5..9]);
    assert s[..9] == s[..3] + [s[3], s[4]] + s[5..9];
    var w := WriteHeader(ReadHeader(s).value);
    assert w[4] == FlagBits(ReadHeader(s).value);
    assert s[..9][4] == s[4];
  }

  // ----- Tag round trips -----

  lemma LowBytes(n: nat, width: nat)
    requires n < Span(width)
    ensures BigEndian(n, width + 1) == [0] + BigEndian(n, width)
    decreases width
  {
    if width > 0 {
      LowBytes(n / 256, width - 1);
    }
  }

  lemma WrittenTagHeader(h: TagHeader)
    requires h.dataSize < U24_SPAN && h.streamId < U24_SPAN
    ensures var stamp := BigEndian(h.timestamp, 4);
            WriteTagHeader(h) ==
                  Success([h.tagType.Code()] + BigEndian(h.dataSize, 3) + stamp[1..] + [stamp[0]]
                    + BigEndian(h.streamId, 3))
    ensures |WriteTagHeader(h).value| == TAG_HEADER_SIZE
  {
    Spans();
    LowBytes(h.dataSize, 3);
    LowBytes(h.streamId, 3);
  }

  /** Numbers stand most significant byte first. */
  lemma FourBytes(n: U32)
    ensures BigEndian(n, 4) == [n / 0x100_0000, n / 0x1_0000 % 256, n / 256 % 256, n % 256]
  {
    var a, b, c := n / 256, n / 256 / 256, n / 256 / 256 / 256;
    assert b == n / 0x1_0000 && c == n / 0x100_0000;
    assert BigEndian(c, 1) == BigEndian(c / 256, 0) + [c % 256] == [c];
    assert BigEndian(b, 2) == BigEndian(c, 1) + [b % 256] == [c, b % 256];
    assert BigEndian(a, 3) == BigEndian(b, 2) + [a % 256] == [c, b % 256, a % 256];
    assert BigEndian(n, 4) == BigEndian(a, 3) + [n % 256];
  }

  lemma ElevenBytes(code: Byte, a: Bytes, b: Bytes, c: Byte, d: Bytes)
    requires |a| == 3 && |b| == 3 && |d| == 3
    ensures [code] + a + b + [c] + d == [code, a[0], a[1], a[2], b[0], b[1], b[2], c, d[0], d[1], d[2]]
  {
  }

  lemma HeadFormat(h: TagHeader)
    requires h.dataSize < U24_SPAN && h.streamId < U24_SPAN
    ensures var (size, time, stream) := (h.dataSize, h.timestamp, h.streamId);
            WriteTagHeader(h) == Success(
              [match h.tagType case Audio => 8 case Video => 9 case ScriptData => 18,
               size / 0x1_0000, size / 256 % 256, size % 256,
               time / 0x1_0000 % 256, time / 256 % 256, time % 256, time / 0x100_0000,
               stream / 0x1_0000, stream / 256 % 256, stream % 256])
  {
    hide BigEndian;
    FourBytes(h.dataSize);
    FourBytes(h.timestamp);
    FourBytes(h.streamId);
    var size, time, stream := BigEndian(h.dataSize, 4), BigEndian(h.timestamp, 4), BigEndian(h.streamId, 4);
    assert size[1..] == [h.dataSize / 0x1_0000, h.dataSize / 256 % 256, h.dataSize % 256];
    assert time[1..] == [h.timestamp / 0x1_0000 % 256, h.timestamp / 256 % 256, h.timestamp % 256];
    assert stream[1..] == [h.streamId / 0x1_0000, h.streamId / 256 % 256, h.streamId % 256];
    assert time[0] == h.timestamp / 0x100_0000;
    ElevenBytes(h.tagType.Code(), size[1..], time[1..], time[0], stream[1..]);
  }

  /**
    Where everything stands in a file, byte by byte: the file header as in Annex E.2, a tag with
    its type, size, time with the high byte last, and stream as in Annex E.4.1, and its back pointer.
   */
  lemma WireFormat(h: FlvHeader, t: Tag)
    requires t.Fits()
    ensures WriteHeader(h) ==
            [0x46, 0x4C, 0x56, 1, (if h.hasVideo then 1 else 0) + (if h.hasAudio then 4 else 0), 0, 0, 0, 9]
    ensures var (size, time, stream) := (t.header.dataSize, t.header.timestamp, t.header.streamId);
            var back := 11 + size;
            WriteTag(t) == Success(
              [match t.header.tagType case Audio => 8 case Video => 9 case ScriptData => 18,
               size / 0x1_0000, size / 256 % 256, size % 256,
               time / 0x1_0000 % 256, time / 256 % 256, time % 256, time / 0x100_0000,
               stream / 0x1_0000, stream / 256 % 256, stream % 256]
              + t.data
              + [back / 0x100_0000, back / 0x1_0000 % 256, back / 256 % 256, back % 256])
  {
    hide BigEndian, WriteTagHeader;
    FourBytes(9);
    HeadFormat(t.header);
    FourBytes(11 + t.header.dataSize);
  }

  /** Where the fields of a tag header are found again. */
  lemma HeadFields(code: Byte, size: Bytes, stamp: Bytes, stream: Bytes, rest: Bytes)
    requires |size| == 3 && |stamp| == 4 && |stream| == 3
    ensures var s := [code] + size + stamp[1..] + [stamp[0]] + stream + rest;
            |s| >= 11 && s[0] == code && s[1..4] == size && [s[7]] + s[4..7] == stamp && s[8..11] == stream
  {
    var s := [code] + size + stamp[1..] + [stamp[0]] + stream + rest;
    assert s[4..7] == stamp[1..] && s[7] == stamp[0];
    Cons(stamp);
  }

  lemma TagHeaderRoundTrip(h: TagHeader, rest: Bytes)
    requires h.dataSize < U24_SPAN && h.streamId < U24_SPAN
    ensures ReadTagHeader(WriteTagHeader(h).value + rest) == Success(h)
  {
    Spans();
    WrittenTagHeader(h);
    hide BigEndian, WriteTagHeader, Unsigned;
    var stamp := BigEndian(h.timestamp, 4);
    HeadFields(h.tagType.Code(), BigEndian(h.dataSize, 3), stamp, BigEndian(h.streamId, 3), rest);
    UnsignedOfBigEndian(h.dataSize, 3);
    UnsignedOfBigEndian(h.timestamp, 4);
    UnsignedOfBigEndian(h.streamId, 3);
  }

  lemma TagHeaderRewrites(s: Bytes)
    requires ReadTagHeader(s).Success?
    ensures WriteTagHeader(ReadTagHeader(s).value) == Success(s[..TAG_HEADER_SIZE])
  {
    TagHeaderBounds(s);
    WrittenTagHeader(ReadTagHeader(s).value);
    BigEndianOfUnsigned(s[1..4]);
    BigEndianOfUnsigned([s[7]] + s[4..7]);
    BigEndianOfUnsigned(s[8..11]);
    assert s[..TAG_HEADER_SIZE] == [s[0]] + s[1..4] + s[4..7] + [s[7]] + s[8..11];
  }

  /** A tag that fits is written, takes its span and reads back, whatever follows it. */
  lemma TagRoundTrip(t: Tag, rest: Bytes)
    requires t.Fits()
    ensures WriteTag(t).Success? && |WriteTag(t).value| == TagSpan(t.header)
    ensures ReadTag(WriteTag(t).value + rest) == Success(t)
    ensures (WriteTag(t).value + rest)[TagSpan(t.header)..] == rest
  {
    hide BigEndian, Unsigned, ReadTag, ReadTagHeader;
    Spans();
    WrittenTagHeader(t.header);
    var head, back := WriteTagHeader(t.header).value, BigEndian(TAG_HEADER_SIZE + t.header.dataSize, 4);
    var w := WriteTag(t).value;
    Parts(w, rest);
    Assoc(head + t.data, back, rest);
    Assoc(head, t.data, back + rest);
    TagHeaderRoundTrip(t.header, t.data + (back + rest));
    TagReads(t, head, rest);
  }

  lemma TagReads(t: Tag, head: Bytes, rest: Bytes)
    requires t.Fits() && |head| == TAG_HEADER_SIZE
    requires var back := BigEndian(TAG_HEADER_SIZE + t.header.dataSize, 4);
             ReadTagHeader(head + (t.data + (back + rest))) == Success(t.header)
    ensures var back := BigEndian(TAG_HEADER_SIZE + t.header.dataSize, 4);
            ReadTag(head + (t.data + (back + rest))) == Success(t)
  {
    var back := BigEndian(TAG_HEADER_SIZE + t.header.dataSize, 4);
    Parts(head, t.data + (back + rest));
    Parts(t.data, back + rest);
    Parts(back, rest);
    Spans();
    UnsignedOfBigEndian(TAG_HEADER_SIZE + t.header.dataSize, 4);
  }

  /** Whatever parses as a tag fits and is written back byte for byte. */
  lemma TagRewrites(s: Bytes)
    requires ReadTag(s).Success?
    ensures var t := ReadTag(s).value;
            t.Fits() && TagSpan(t.header) <= |s| && WriteTag(t) == Success(s[..TagSpan(t.header)])
  {
    var t := ReadTag(s).value;
    TagHeaderBounds(s);
    TagHeaderRewrites(s);
    BigEndianOfUnsigned(s[TAG_HEADER_SIZE..][|t.data|..][..4]);
    WrittenTag(t, s[..TAG_HEADER_SIZE]);
    ThreeParts(s, TAG_HEADER_SIZE, |t.data|, 4);
  }

  lemma WrittenTag(t: Tag, head: Bytes)
    requires t.Fits() && WriteTagHeader(t.header) == Success(head)
    ensures WriteTag(t) == Success(head + t.data + BigEndian(TAG_HEADER_SIZE + t.header.dataSize, 4))
  {
  }

  lemma ThreeParts(s: Bytes, a: nat, b: nat, c: nat)
    requires a + b + c <= |s|
    ensures s[..a + b + c] == s[..a] + s[a..][..b] + s[a..][b..][..c]
  {
  }

  /**
    Exactly the tags that fit survive being written: a longer payload is refused, or, where its
    length only matches after truncation, does not read back as itself.
   */
  lemma SurvivesWritingIff(t: Tag, rest: Bytes)
    ensures WriteTag(t).Success? && ReadTag(WriteTag(t).value + rest) == Success(t) <==> t.Fits()
  {
    if t.Fits() {
      TagRoundTrip(t, rest);
    } else if WriteTag(t).Success? && ReadTag(WriteTag(t).value + rest).Success? {
      TagRewrites(WriteTag(t).value + rest);
    }
  }
}
