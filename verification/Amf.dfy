/**
  AMF0 values (sections 2.2 to 2.12 of the AMF0 specification) as the recorder reads and writes
  them: a recursive reader with limits on depth and counts, and a writer without.
 */
module Amf {
  import opened ByteStrings
  import opened Sequences

  const MAX_DEPTH: nat := 16
  const MAX_OBJECT_ENTRIES: nat := 1024
  const MAX_ARRAY_ITEMS: nat := 8192

  /** Numbers are 64-bit patterns; strings are their UTF-8 bytes. */
  datatype Value =
    | Number(bits: U64)
    | Boolean(on: bool)
    | Text(text: Bytes)
    | Object(entries: seq<Entry>)
    | Null
    | Undefined
    | EcmaArray(entries: seq<Entry>)
    | StrictArray(items: seq<Value>)

  datatype Entry = Entry(key: Bytes, value: Value)

  const OBJECT_END: Bytes := [0, 0, 9]

  // ----- UTF-8 (RFC 3629, section 4) -----

  predicate Continues(s: Bytes, from: nat, upto: nat) {
    |s| >= upto && forall i | from <= i < upto :: 0x80 <= s[i] < 0xC0
  }

  /** The length of the character `s` starts with, or 0 if it starts with none. */
  function CharLength(s: Bytes): (n: nat)
    ensures n <= |s|
  {
    if s == [] then 0
    else if s[0] < 0x80 then 1
    else if 0xC2 <= s[0] < 0xE0 && Continues(s, 1, 2) then 2
    else if 0xE0 <= s[0] < 0xF0 && Continues(s, 1, 3)
         && (s[0] == 0xE0 ==> s[1] >= 0xA0) && (s[0] == 0xED ==> s[1] < 0xA0) then 3
    else if 0xF0 <= s[0] < 0xF5 && Continues(s, 1, 4)
         && (s[0] == 0xF0 ==> s[1] >= 0x90) && (s[0] == 0xF4 ==> s[1] < 0x90) then 4
    else 0
  }

  predicate IsUtf8(s: Bytes)
    decreases |s|
  {
    s == [] || (CharLength(s) > 0 && IsUtf8(s[CharLength(s)..]))
  }

  lemma {:induction false} AsciiIsUtf8(s: Bytes)
    requires forall i | 0 <= i < |s| :: s[i] < 0x80
    ensures IsUtf8(s)
    decreases |s|
  {
    if s != [] {
      AsciiIsUtf8(s[1..]);
    }
  }

  // ----- Writer -----

  /** A key or text whose length fits its 16-bit field; the writer panics on any other. */
  predicate KeyFits(key: Bytes) {
    |key| < U16_SPAN
  }

  predicate Writable(v: Value) {
    match v
    case Text(text) => KeyFits(text)
    case Object(entries) => EntriesWritable(entries)
    case EcmaArray(entries) => EntriesWritable(entries)
    case StrictArray(items) => forall i | 0 <= i < |items| :: Writable(items[i])
    case _ => true
  }

  predicate EntriesWritable(entries: seq<Entry>) {
    forall i | 0 <= i < |entries| :: KeyFits(entries[i].key) && Writable(entries[i].value)
  }

  function EncodeKey(key: Bytes): Bytes
    requires KeyFits(key)
  {
    BigEndian(|key|, 2) + key
  }

  function Encode(v: Value): (s: Bytes)
    requires Writable(v)
    ensures s != []
    decreases v, 0
  {
    match v
    case Number(bits) => [0x00] + BigEndian(bits, 8)
    case Boolean(on) => [0x01, if on then 1 else 0]
    case Text(text) => [0x02] + EncodeKey(text)
    case Object(entries) => [0x03] + EncodeEntries(entries) + OBJECT_END
    case Null => [0x05]
    case Undefined => [0x06]
    case EcmaArray(entries) => [0x08] + BigEndian(|entries|, 4) + EncodeEntries(entries) + OBJECT_END
    case StrictArray(items) => [0x0A] + BigEndian(|items|, 4) + EncodeItems(items)
  }

  function EncodeEntry(e: Entry): (s: Bytes)
    requires KeyFits(e.key) && Writable(e.value)
    ensures |s| >= 3
    decreases e, 0
  {
    EncodeKey(e.key) + Encode(e.value)
  }

  function EncodeEntries(entries: seq<Entry>): Bytes
    requires EntriesWritable(entries)
    decreases entries, |entries|
  {
    if entries == [] then [] else EncodeEntry(entries[0]) + EncodeEntries(entries[1..])
  }

  function EncodeItems(items: seq<Value>): Bytes
    requires forall i | 0 <= i < |items| :: Writable(items[i])
    decreases items, |items|
  {
    if items == [] then [] else Encode(items[0]) + EncodeItems(items[1..])
  }

  /** The length of a text or key: two bytes, the high one first. */
  lemma LengthBytes(n: nat)
    requires n < U16_SPAN
    ensures BigEndian(n, 2) == [n / 256, n % 256]
  {
    assert BigEndian(n / 256, 1) == BigEndian(n / 256 / 256, 0) + [n / 256 % 256];
  }

  lemma OneEntry(e: Entry)
    requires KeyFits(e.key) && Writable(e.value)
    ensures EntriesWritable([e]) && EncodeEntries([e]) == [|e.key| / 256, |e.key| % 256] + e.key + Encode(e.value)
  {
    LengthBytes(|e.key|);
    assert [e][1..] == [];
  }

  lemma ObjectFormat(e: Entry)
    requires KeyFits(e.key) && Writable(e.value)
    ensures EntriesWritable([e])
    ensures Encode(Object([e])) ==
            [0x03] + ([|e.key| / 256, |e.key| % 256] + e.key + Encode(e.value)) + [0x00, 0x00, 0x09]
  {
    OneEntry(e);
  }

  lemma EcmaFormat(e: Entry)
    requires KeyFits(e.key) && Writable(e.value)
    ensures EntriesWritable([e])
    ensures Encode(EcmaArray([e])) ==
            [0x08, 0, 0, 0, 1] + ([|e.key| / 256, |e.key| % 256] + e.key + Encode(e.value)) + [0x00, 0x00, 0x09]
  {
    OneEntry(e);
    assert BigEndian(1, 4) == [0, 0, 0, 1];
    assert [0x08] + BigEndian(1, 4) == [0x08, 0, 0, 0, 1];
  }

  lemma ArrayFormat(v: Value)
    requires Writable(v)
    ensures Encode(StrictArray([v])) == [0x0A, 0, 0, 0, 1] + Encode(v)
  {
    assert [v][1..] == [];
    assert EncodeItems([v]) == Encode(v);
    assert BigEndian(1, 4) == [0, 0, 0, 1];
    assert [0x0A] + BigEndian(1, 4) == [0x0A, 0, 0, 0, 1];
  }

  lemma TextFormat(text: Bytes)
    requires KeyFits(text)
    ensures Encode(Text(text)) == [0x02, |text| / 256, |text| % 256] + text
  {
    hide BigEndian;
    LengthBytes(|text|);
    Assoc([0x02], [|text| / 256, |text| % 256], text);
    assert [0x02] + [|text| / 256, |text| % 256] == [0x02, |text| / 256, |text| % 256];
  }

  /** Every type's marker, and how lengths, keys and ends are laid out (sections 2.2 to 2.12). */
  lemma WireFormat(v: Value, key: Bytes)
    requires Writable(v) && KeyFits(key)
    ensures Encode(Object([Entry(key, v)])) ==
            [0x03] + ([|key| / 256, |key| % 256] + key + Encode(v)) + [0x00, 0x00, 0x09]
    ensures Encode(EcmaArray([Entry(key, v)])) ==
            [0x08, 0, 0, 0, 1] + ([|key| / 256, |key| % 256] + key + Encode(v)) + [0x00, 0x00, 0x09]
    ensures Encode(StrictArray([v])) == [0x0A, 0, 0, 0, 1] + Encode(v)
    ensures v.Number? ==> Encode(v) == [0x00] + BigEndian(v.bits, 8)
    ensures v.Boolean? ==> Encode(v) == [0x01, if v.on then 1 else 0]
    ensures v.Text? ==> Encode(v) == [0x02, |v.text| / 256, |v.text| % 256] + v.text
    ensures v.Null? ==> Encode(v) == [0x05]
    ensures v.Undefined? ==> Encode(v) == [0x06]
  {
    hide BigEndian, EncodeEntries, EncodeItems;
    ObjectFormat(Entry(key, v));
    EcmaFormat(Entry(key, v));
    ArrayFormat(v);
    if v.Text? {
      TextFormat(v.text);
    }
  }

  // ----- Reader -----

  /** What a read yields and what it leaves. */
  datatype Read<+T> = Got(value: T, rest: Bytes) | Nothing {
    predicate IsFailure() {
      Nothing?
    }

    function PropagateFailure<U>(): Read<U>
      requires Nothing?
    {
      Nothing
    }

    function Extract(): (T, Bytes)
      requires Got?
    {
      (value, rest)
    }
  }

  function ReadUnsigned(s: Bytes, width: nat): (r: Read<nat>)
    ensures r.Got? ==> |r.rest| + width == |s|
  {
    if |s| < width then Nothing else Got(Unsigned(s[..width]), s[width..])
  }

  function ReadText(s: Bytes): (r: Read<Bytes>)
    ensures r.Got? ==> |r.rest| < |s|
  {
    var (length, rest) :- ReadUnsigned(s, 2);
    if |rest| < length || !IsUtf8(rest[..length]) then Nothing else Got(rest[..length], rest[length..])
  }

  function ReadNumber(s: Bytes): (r: Read<Value>)
    ensures r.Got? ==> |r.rest| < |s|
  {
    var (bits, rest) :- ReadUnsigned(s, 8);
    Spans();
    BigEndianOfUnsigned(s[..8]);
    Got(Number(bits), rest)
  }

  function ReadValue(s: Bytes, depth: nat): (r: Read<Value>)
    ensures r.Got? ==> |r.rest| < |s|
    decreases |s|, 2
  {
    if depth > MAX_DEPTH || s == [] then Nothing
    else
      var s' := s[1..];
      match s[0]
      case 0x00 => ReadNumber(s')
      case 0x01 => if s' == [] then Nothing else Got(Boolean(s'[0] != 0), s'[1..])
      case 0x02 =>
        var (text, rest) :- ReadText(s');
        Got(Text(text), rest)
      case 0x03 =>
        var (entries, rest) :- ReadEntries(s', MAX_OBJECT_ENTRIES, true, depth + 1);
        Got(Object(entries), rest)
      case 0x05 => Got(Null, s')
      case 0x06 => Got(Undefined, s')
      case 0x08 =>
        var (count, s'') :- ReadUnsigned(s', 4);
        if count > MAX_OBJECT_ENTRIES then Nothing
        else
          var (entries, rest) :- ReadEntries(s'', count, false, depth + 1);
          Got(EcmaArray(entries), rest)
      case 0x0A =>
        var (count, s'') :- ReadUnsigned(s', 4);
        if count > MAX_ARRAY_ITEMS then Nothing
        else
          var (items, rest) :- ReadItems(s'', count, depth + 1);
          Got(StrictArray(items), rest)
      case _ => Nothing
  }

  function ReadEntry(s: Bytes, depth: nat): (r: Read<Entry>)
    ensures r.Got? ==> |r.rest| < |s|
    decreases |s|, 0
  {
    var (key, s') :- ReadText(s);
    var (value, rest) :- ReadValue(s', depth);
    Got(Entry(key, value), rest)
  }

  /**
    At most `room` entries up to an object end. An object must have its end; an array that has
    announced its entries may go without.
   */
  function ReadEntries(s: Bytes, room: nat, open: bool, depth: nat): (r: Read<seq<Entry>>)
    ensures r.Got? ==> |r.rest| <= |s|
    decreases |s|, 1, room
  {
    if StartsWith(s, OBJECT_END) then Got([], s[3..])
    else if room == 0 then (if open then Nothing else Got([], s))
    else
      var (entry, s') :- ReadEntry(s, depth);
      var (others, rest) :- ReadEntries(s', room - 1, open, depth);
      Got([entry] + others, rest)
  }

  function ReadItems(s: Bytes, count: nat, depth: nat): (r: Read<seq<Value>>)
    ensures r.Got? ==> |r.rest| <= |s|
    decreases |s|, 3, count
  {
    if count == 0 then Got([], s)
    else
      var (item, s') :- ReadValue(s, depth);
      var (others, rest) :- ReadItems(s', count - 1, depth);
      Got([item] + others, rest)
  }

  // ----- Round trip -----

  /** The values the reader can produce at a depth: those within its limits. */
  predicate Readable(v: Value, depth: nat)
    decreases v, 0
  {
    && depth <= MAX_DEPTH
    && match v
       case Text(text) => KeyOk(text)
       case Object(entries) => EntriesReadable(entries, depth + 1)
       case EcmaArray(entries) => EntriesReadable(entries, depth + 1)
       case StrictArray(items) => |items| <= MAX_ARRAY_ITEMS && forall i | 0 <= i < |items| ::
             Readable(items[i], depth + 1)
       case _ => true
  }

  predicate KeyOk(key: Bytes) {
    KeyFits(key) && IsUtf8(key)
  }

  predicate EntriesReadable(entries: seq<Entry>, depth: nat)
    decreases entries, 1
  {
    && |entries| <= MAX_OBJECT_ENTRIES
    && EntriesOk(entries, depth)
  }

  predicate EntriesOk(entries: seq<Entry>, depth: nat)
    decreases entries, 0
  {
    forall i | 0 <= i < |entries| :: KeyOk(entries[i].key) && Readable(entries[i].value, depth)
  }

  lemma {:induction false} ReadableIsWritable(v: Value, depth: nat)
    requires Readable(v, depth)
    ensures Writable(v)
    decreases v, 0
  {
    match v
    case Object(entries) => ReadableEntriesAreWritable(entries, depth + 1);
    case EcmaArray(entries) => ReadableEntriesAreWritable(entries, depth + 1);
    case StrictArray(items) =>
      forall i | 0 <= i < |items| ensures Writable(items[i]) {
        ReadableIsWritable(items[i], depth + 1);
      }
    case _ =>
  }

  lemma {:induction false} ReadableEntriesAreWritable(entries: seq<Entry>, depth: nat)
    requires EntriesOk(entries, depth)
    ensures EntriesWritable(entries)
    decreases entries, 1
  {
    forall i | 0 <= i < |entries| ensures Writable(entries[i].value) {
      ReadableIsWritable(entries[i].value, depth);
    }
  }

  lemma KeyRoundTrip(key: Bytes, tail: Bytes)
    requires KeyOk(key)
    ensures ReadText(EncodeKey(key) + tail) == Got(key, tail)
  {
    Spans();
    UnsignedOfBigEndian(|key|, 2);
    var s := EncodeKey(key) + tail;
    Assoc(BigEndian(|key|, 2), key, tail);
    Parts(BigEndian(|key|, 2), key + tail);
    Parts(key, tail);
  }

  lemma CountRoundTrip(n: nat, width: nat, tail: Bytes)
    requires n < Span(width)
    ensures ReadUnsigned(BigEndian(n, width) + tail, width) == Got(n, tail)
  {
    UnsignedOfBigEndian(n, width);
    var s := BigEndian(n, width) + tail;
    Parts(BigEndian(n, width), tail);
  }

  /** No entry looks like an object end: an empty key is followed by a marker, and no marker is 9. */
  lemma EntryIsNoEnd(e: Entry, tail: Bytes)
    requires KeyFits(e.key) && Writable(e.value)
    ensures !StartsWith(EncodeEntry(e) + tail, OBJECT_END)
  {
    Spans();
    var s := EncodeEntry(e) + tail;
    if |e.key| == 0 {
      assert s[2] == Encode(e.value)[0] != 9;
    } else {
      UnsignedOfBigEndian(|e.key|, 2);
      assert s[..2] == BigEndian(|e.key|, 2);
    }
  }

  // One lemma per marker: what a reader makes of it once the parts behind it read.

  lemma NumberReads(bits: U64, depth: nat, tail: Bytes)
    requires depth <= MAX_DEPTH
    ensures ReadValue([0x00] + BigEndian(bits, 8) + tail, depth) == Got(Number(bits), tail)
  {
    Spans();
    CountRoundTrip(bits, 8, tail);
    Assoc([0x00], BigEndian(bits, 8), tail);
    Parts([0x00], BigEndian(bits, 8) + tail);
  }

  lemma TextReads(text: Bytes, depth: nat, tail: Bytes)
    requires KeyOk(text) && depth <= MAX_DEPTH
    ensures ReadValue([0x02] + EncodeKey(text) + tail, depth) == Got(Text(text), tail)
  {
    KeyRoundTrip(text, tail);
    Assoc([0x02], EncodeKey(text), tail);
    Parts([0x02], EncodeKey(text) + tail);
  }

  lemma ObjectReads(entries: seq<Entry>, body: Bytes, depth: nat, tail: Bytes)
    requires depth <= MAX_DEPTH && ReadEntries(body, MAX_OBJECT_ENTRIES, true, depth + 1) == Got(entries, tail)
    ensures ReadValue([0x03] + body, depth) == Got(Object(entries), tail)
  {
    Parts([0x03], body);
  }

  lemma EcmaReads(count: nat, entries: seq<Entry>, body: Bytes, depth: nat, tail: Bytes)
    requires depth <= MAX_DEPTH && count <= MAX_OBJECT_ENTRIES
    requires ReadEntries(body, count, false, depth + 1) == Got(entries, tail)
    ensures ReadValue([0x08] + (BigEndian(count, 4) + body), depth) == Got(EcmaArray(entries), tail)
  {
    Spans();
    CountRoundTrip(count, 4, body);
    Parts([0x08], BigEndian(count, 4) + body);
  }

  lemma ArrayReads(items: seq<Value>, body: Bytes, depth: nat, tail: Bytes)
    requires depth <= MAX_DEPTH && |items| <= MAX_ARRAY_ITEMS
    requires ReadItems(body, |items|, depth + 1) == Got(items, tail)
    ensures ReadValue([0x0A] + (BigEndian(|items|, 4) + body), depth) == Got(StrictArray(items), tail)
  {
    Spans();
    CountRoundTrip(|items|, 4, body);
    Parts([0x0A], BigEndian(|items|, 4) + body);
  }

  lemma FlatReads(v: Value, depth: nat, tail: Bytes)
    requires (v.Boolean? || v.Null? || v.Undefined?) && depth <= MAX_DEPTH
    ensures ReadValue(Encode(v) + tail, depth) == Got(v, tail)
  {
    var s := Encode(v) + tail;
    if v.Boolean? {
      assert s[1..] == [if v.on then 1 else 0] + tail && s[1..][1..] == tail;
    } else {
      assert s[1..] == tail;
    }
  }

  lemma NoEntriesRead(tail: Bytes, room: nat, open: bool, depth: nat)
    ensures ReadEntries(EncodeEntries([]) + (OBJECT_END + tail), room, open, depth) == Got([], tail)
  {
    NoneAdded(OBJECT_END + tail);
    Parts(OBJECT_END, tail);
  }

  lemma NextEntryReads(e: Entry, others: seq<Entry>, rest: Bytes, room: nat, open: bool, depth: nat, tail: Bytes)
    requires room > 0 && KeyFits(e.key) && Writable(e.value)
    requires ReadEntry(EncodeEntry(e) + rest, depth) == Got(e, rest)
    requires ReadEntries(rest, room - 1, open, depth) == Got(others, tail)
    ensures ReadEntries(EncodeEntry(e) + rest, room, open, depth) == Got([e] + others, tail)
  {
    EntryIsNoEnd(e, rest);
  }

  lemma NextItemReads(item: Value, others: seq<Value>, s: Bytes, rest: Bytes, count: nat, depth: nat, tail: Bytes)
    requires count > 0
    requires ReadValue(s, depth) == Got(item, rest)
    requires ReadItems(rest, count - 1, depth) == Got(others, tail)
    ensures ReadItems(s, count, depth) == Got([item] + others, tail)
  {
  }

  lemma EntryReads(e: Entry, s: Bytes, middle: Bytes, depth: nat, rest: Bytes)
    requires ReadText(s) == Got(e.key, middle) && ReadValue(middle, depth) == Got(e.value, rest)
    ensures ReadEntry(s, depth) == Got(e, rest)
  {
  }

  /** Reading what was written gives the value back and stops exactly behind it. */
  lemma {:induction false} RoundTrip(v: Value, depth: nat, tail: Bytes)
    requires Readable(v, depth)
    ensures Writable(v)
    ensures ReadValue(Encode(v) + tail, depth) == Got(v, tail)
    decreases v, 0
  {
    ReadableIsWritable(v, depth);
    match v
    case Number(bits) => NumberReads(bits, depth, tail);
    case Text(text) => TextReads(text, depth, tail);
    case Object(entries) => ObjectRoundTrip(entries, depth, tail);
    case EcmaArray(entries) => EcmaRoundTrip(entries, depth, tail);
    case StrictArray(items) => ArrayRoundTrip(items, depth, tail);
    case _ => FlatReads(v, depth, tail);
  }

  lemma {:induction false} ObjectRoundTrip(entries: seq<Entry>, depth: nat, tail: Bytes)
    requires depth <= MAX_DEPTH && EntriesReadable(entries, depth + 1) && EntriesWritable(entries)
    ensures ReadValue(Encode(Object(entries)) + tail, depth) == Got(Object(entries), tail)
    decreases entries, 2
  {
    EntriesRoundTrip(entries, MAX_OBJECT_ENTRIES, true, depth + 1, tail);
    var body := EncodeEntries(entries) + (OBJECT_END + tail);
    ObjectReads(entries, body, depth, tail);
    var front := [0x03] + EncodeEntries(entries);
    Assoc(front, OBJECT_END, tail);
    Assoc([0x03], EncodeEntries(entries), OBJECT_END + tail);
  }

  lemma {:induction false} EcmaRoundTrip(entries: seq<Entry>, depth: nat, tail: Bytes)
    requires depth <= MAX_DEPTH && EntriesReadable(entries, depth + 1) && EntriesWritable(entries)
    ensures ReadValue(Encode(EcmaArray(entries)) + tail, depth) == Got(EcmaArray(entries), tail)
    decreases entries, 2
  {
    EntriesRoundTrip(entries, |entries|, false, depth + 1, tail);
    var body := EncodeEntries(entries) + (OBJECT_END + tail);
    EncodedEcma(entries, tail);
    EcmaReads(|entries|, entries, body, depth, tail);
  }

  lemma EncodedEcma(entries: seq<Entry>, tail: Bytes)
    requires EntriesWritable(entries)
    ensures Encode(EcmaArray(entries)) + tail ==
              [0x08] + (BigEndian(|entries|, 4) + (EncodeEntries(entries) + (OBJECT_END + tail)))
  {
    var count, es := BigEndian(|entries|, 4), EncodeEntries(entries);
    Assoc([0x08] + count + es, OBJECT_END, tail);
    Assoc([0x08] + count, es, OBJECT_END + tail);
    Assoc([0x08], count, es + (OBJECT_END + tail));
  }

  lemma {:induction false} ArrayRoundTrip(items: seq<Value>, depth: nat, tail: Bytes)
    requires depth <= MAX_DEPTH && |items| <= MAX_ARRAY_ITEMS
    requires forall i | 0 <= i < |items| :: Readable(items[i], depth + 1) && Writable(items[i])
    ensures ReadValue(Encode(StrictArray(items)) + tail, depth) == Got(StrictArray(items), tail)
    decreases items, 4
  {
    ItemsRoundTrip(items, depth + 1, tail);
    var body := EncodeItems(items) + tail;
    ArrayReads(items, body, depth, tail);
    Assoc([0x0A] + BigEndian(|items|, 4), EncodeItems(items), tail);
    Assoc([0x0A], BigEndian(|items|, 4), body);
  }

  lemma {:induction false} EntryRoundTrip(e: Entry, depth: nat, tail: Bytes)
    requires KeyOk(e.key) && Readable(e.value, depth)
    ensures Writable(e.value)
    ensures ReadEntry(EncodeEntry(e) + tail, depth) == Got(e, tail)
    decreases e, 1
  {
    RoundTrip(e.value, depth, tail);
    KeyRoundTrip(e.key, Encode(e.value) + tail);
    Assoc(EncodeKey(e.key), Encode(e.value), tail);
    EntryReads(e, EncodeEntry(e) + tail, Encode(e.value) + tail, depth, tail);
  }

  /** Whether the entries were announced or run up to the end, they read back up to that end. */
  lemma {:induction false} EntriesRoundTrip(entries: seq<Entry>, room: nat, open: bool, depth: nat, tail: Bytes)
    requires EntriesOk(entries, depth) && |entries| <= room
    ensures EntriesWritable(entries)
    ensures ReadEntries(EncodeEntries(entries) + (OBJECT_END + tail), room, open, depth) == Got(entries, tail)
    decreases entries, 1, |entries|
  {
    ReadableEntriesAreWritable(entries, depth);
    var end := OBJECT_END + tail;
    if entries == [] {
      NoEntriesRead(tail, room, open, depth);
    } else {
      var e, others := entries[0], entries[1..];
      EntriesRoundTrip(others, room - 1, open, depth, tail);
      EntryRoundTrip(e, depth, EncodeEntries(others) + end);
      MoreEntriesRead(entries, room, open, depth, end, tail);
    }
  }

  lemma {:induction false} MoreEntriesRead(entries: seq<Entry>, room: nat, open: bool, depth: nat, end: Bytes,
      tail: Bytes)
    requires entries != [] && room > 0 && EntriesWritable(entries)
    requires var rest := EncodeEntries(entries[1..]) + end;
             && ReadEntry(EncodeEntry(entries[0]) + rest, depth) == Got(entries[0], rest)
             && ReadEntries(rest, room - 1, open, depth) == Got(entries[1..], tail)
    ensures ReadEntries(EncodeEntries(entries) + end, room, open, depth) == Got(entries, tail)
  {
    var e, others := entries[0], entries[1..];
    NextEntryReads(e, others, EncodeEntries(others) + end, room, open, depth, tail);
    Assoc(EncodeEntry(e), EncodeEntries(others), end);
    Cons(entries);
  }

  lemma {:induction false} ItemsRoundTrip(items: seq<Value>, depth: nat, tail: Bytes)
    requires forall i | 0 <= i < |items| :: Readable(items[i], depth)
    ensures forall i | 0 <= i < |items| :: Writable(items[i])
    ensures ReadItems(EncodeItems(items) + tail, |items|, depth) == Got(items, tail)
    decreases items, 3, |items|
  {
    forall i | 0 <= i < |items| ensures Writable(items[i]) {
      ReadableIsWritable(items[i], depth);
    }
    if items == [] {
      NoneAdded(tail);
    } else {
      var item, others := items[0], items[1..];
      var rest := EncodeItems(others) + tail;
      RoundTrip(item, depth, rest);
      ItemsRoundTrip(others, depth, tail);
      NextItemReads(item, others, Encode(item) + rest, rest, |items|, depth, tail);
      Assoc(Encode(item), EncodeItems(others), tail);
      Cons(items);
    }
  }

  // ----- Everything read is within the limits -----

  lemma ReadTextIsOk(s: Bytes)
    requires ReadText(s).Got?
    ensures KeyOk(ReadText(s).value)
  {
    Spans();
    BigEndianOfUnsigned(s[..2]);
  }

  lemma {:induction false} ReadIsReadable(s: Bytes, depth: nat)
    requires ReadValue(s, depth).Got?
    ensures Readable(ReadValue(s, depth).value, depth)
    decreases |s|, 2
  {
    var s' := s[1..];
    match s[0]
    case 0x00 =>
    case 0x02 => ReadTextIsOk(s');
    case 0x03 => ReadEntriesAreOk(s', MAX_OBJECT_ENTRIES, true, depth + 1);
    case 0x08 => ReadEntriesAreOk(s'[4..], ReadUnsigned(s', 4).value, false, depth + 1);
    case 0x0A => ReadItemsAreReadable(s'[4..], ReadUnsigned(s', 4).value, depth + 1);
    case _ =>
  }

  lemma {:induction false} ReadEntryIsOk(s: Bytes, depth: nat)
    requires ReadEntry(s, depth).Got?
    ensures KeyOk(ReadEntry(s, depth).value.key) && Readable(ReadEntry(s, depth).value.value, depth)
    decreases |s|, 0
  {
    ReadTextIsOk(s);
    ReadIsReadable(ReadText(s).rest, depth);
  }

  lemma EntriesStillOk(e: Entry, others: seq<Entry>, depth: nat)
    requires KeyOk(e.key) && Readable(e.value, depth) && EntriesOk(others, depth)
    ensures EntriesOk([e] + others, depth)
  {
  }

  lemma {:induction false} ReadEntriesAreOk(s: Bytes, room: nat, open: bool, depth: nat)
    requires ReadEntries(s, room, open, depth).Got?
    ensures EntriesOk(ReadEntries(s, room, open, depth).value, depth)
    ensures |ReadEntries(s, room, open, depth).value| <= room
    decreases |s|, 1
  {
    if !StartsWith(s, OBJECT_END) && room > 0 {
      var e, rest := ReadEntry(s, depth).value, ReadEntry(s, depth).rest;
      ReadEntryIsOk(s, depth);
      ReadEntriesAreOk(rest, room - 1, open, depth);
      EntriesStillOk(e, ReadEntries(rest, room - 1, open, depth).value, depth);
    }
  }

  lemma {:induction false} ReadItemsAreReadable(s: Bytes, count: nat, depth: nat)
    requires ReadItems(s, count, depth).Got?
    ensures var items := ReadItems(s, count, depth).value;
            |items| == count && forall i | 0 <= i < |items| :: Readable(items[i], depth)
    decreases |s|, 3, count
  {
    if count > 0 {
      ReadIsReadable(s, depth);
      ReadItemsAreReadable(ReadValue(s, depth).rest, count - 1, depth);
    }
  }

  /** The limits are exact: a written value reads back, in any surroundings, if and only if it keeps them. */
  lemma RoundTripIff(v: Value, depth: nat, tail: Bytes)
    requires Writable(v)
    ensures ReadValue(Encode(v) + tail, depth) == Got(v, tail) <==> Readable(v, depth)
  {
    if Readable(v, depth) {
      RoundTrip(v, depth, tail);
    }
    if ReadValue(Encode(v) + tail, depth) == Got(v, tail) {
      ReadIsReadable(Encode(v) + tail, depth);
    }
  }
}
