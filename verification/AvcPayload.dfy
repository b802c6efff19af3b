/**
  H.264 access units inside FLV video tags: NAL units behind length fields of 1, 2 or 4 bytes
  (section 5.2.4.1 of ISO/IEC 14496-15), and the removal of filler data, NAL type 12 in
  Table 7-1 of ITU-T H.264.
 */
module AvcPayload {
  import opened ByteStrings
  import opened Sequences

  datatype AvcPayloadError =
    | NotSequenceHeader
    | SequenceHeaderTooShort
    | InvalidSequenceHeader
    | NotNaluPacket
    | NaluPacketTooShort
    | InvalidNaluLengthSize
    | EmptyNaluPayload
    | TruncatedNaluLength
    | ZeroNaluLength
    | TruncatedNalu
    | InvalidNaluHeader
    | UnsupportedAnnexBStartCode

  datatype Checked<+T> = Good(value: T) | Bad(error: AvcPayloadError) {
    predicate IsFailure() {
      Bad?
    }

    function PropagateFailure<U>(): Checked<U>
      requires Bad?
    {
      Bad(error)
    }

    function Extract(): T
      requires Good?
    {
      value
    }
  }

  const FILLER: nat := 12
  const SPS: nat := 7
  const PPS: nat := 8

  /** The packet type and composition time in front of the NAL units. */
  const PREFIX: nat := 5

  // ----- What a tag's payload is -----

  predicate IsAvcVideo(data: Bytes) {
    data != [] && data[0] % 16 == 7
  }

  predicate IsAvcNaluPacket(data: Bytes) {
    |data| >= 2 && data[0] % 16 == 7 && data[1] == 1
  }

  predicate IsAvcKeyframe(data: Bytes) {
    |data| >= 2 && data[0] / 16 == 1 && data[0] % 16 == 7 && data[1] == 1
  }

  predicate IsAvcSequenceHeader(data: Bytes) {
    |data| >= 2 && data[0] % 16 == 7 && data[1] == 0
  }

  predicate IsAacSequenceHeader(data: Bytes) {
    |data| >= 2 && data[0] / 16 == 10 && data[1] == 0
  }

  predicate LengthSizeOk(size: nat) {
    size == 1 || size == 2 || size == 4
  }

  function NaluLengthSize(data: Bytes): (r: Checked<nat>)
    ensures r.Good? ==> LengthSizeOk(r.value)
  {
    if !IsAvcSequenceHeader(data) then Bad(NotSequenceHeader)
    else if |data| < 10 then Bad(SequenceHeaderTooShort)
    else if data[5] != 1 then Bad(InvalidSequenceHeader)
    else if data[9] % 4 == 2 then Bad(InvalidNaluLengthSize)
    else Good(data[9] % 4 + 1)
  }

  // ----- NAL units and their framing -----

  type Nalu = Bytes

  /** A unit that a length field of `size` bytes can announce, with the forbidden bit clear. */
  predicate NaluOk(nalu: Nalu, size: nat) {
    0 < |nalu| < Span(size) && nalu[0] < 128
  }

  predicate NalusOk(nalus: seq<Nalu>, size: nat) {
    forall i | 0 <= i < |nalus| :: NaluOk(nalus[i], size)
  }

  function NaluType(nalu: Nalu): nat
    requires nalu != []
  {
    nalu[0] % 32
  }

  predicate IsFiller(nalu: Nalu) {
    nalu != [] && NaluType(nalu) == FILLER
  }

  function Framed(nalu: Nalu, size: nat): Bytes {
    BigEndian(|nalu|, size) + nalu
  }

  function Join(nalus: seq<Nalu>, size: nat): Bytes {
    if nalus == [] then [] else Framed(nalus[0], size) + Join(nalus[1..], size)
  }

  /** The first unit of a payload. */
  function FirstNalu(payload: Bytes, size: nat): (r: Checked<Nalu>)
    ensures r.Good? ==> r.value != [] && size + |r.value| <= |payload|
  {
    if |payload| < size then Bad(TruncatedNaluLength)
    else
      var length := Unsigned(payload[..size]);
      if length == 0 then Bad(ZeroNaluLength)
      else if |payload| - size < length then Bad(TruncatedNalu)
      else if payload[size] >= 128 then Bad(InvalidNaluHeader)
      else Good(payload[size..size + length])
  }

  function Split(payload: Bytes, size: nat): Checked<seq<Nalu>>
    decreases |payload|
  {
    if payload == [] then Good([])
    else
      var nalu :- FirstNalu(payload, size);
      var others :- Split(payload[size + |nalu|..], size);
      Good([nalu] + others)
  }

  predicate StartsWithAnnexB(payload: Bytes) {
    StartsWith(payload, [0, 0, 1]) || StartsWith(payload, [0, 0, 0, 1])
  }

  /** The units of a packet, or why the packet is refused. */
  function Nalus(data: Bytes, size: nat): Checked<seq<Nalu>> {
    if !IsAvcNaluPacket(data) then Bad(NotNaluPacket)
    else if !LengthSizeOk(size) then Bad(InvalidNaluLengthSize)
    else if |data| < PREFIX then Bad(NaluPacketTooShort)
    else
      var scanned := if |data| == PREFIX then Bad(EmptyNaluPayload) else Split(data[PREFIX..], size);
      if scanned.Bad? && StartsWithAnnexB(data[PREFIX..]) then Bad(UnsupportedAnnexBStartCode) else scanned
  }

  // ----- Framing round trips -----

  lemma FirstNaluOfFramed(nalu: Nalu, size: nat, rest: Bytes)
    requires NaluOk(nalu, size)
    ensures FirstNalu(Framed(nalu, size) + rest, size) == Good(nalu)
    ensures (Framed(nalu, size) + rest)[size + |nalu|..] == rest
  {
    UnsignedOfBigEndian(|nalu|, size);
    assert (Framed(nalu, size) + rest)[..size] == BigEndian(|nalu|, size);
  }

  lemma FramedOfFirstNalu(payload: Bytes, size: nat)
    requires FirstNalu(payload, size).Good?
    ensures var nalu := FirstNalu(payload, size).value;
            NaluOk(nalu, size) && payload == Framed(nalu, size) + payload[size + |nalu|..]
  {
    BigEndianOfUnsigned(payload[..size]);
  }

  lemma SplitStep(payload: Bytes, size: nat, nalu: Nalu, rest: seq<Nalu>)
    requires FirstNalu(payload, size) == Good(nalu)
    requires Split(payload[size + |nalu|..], size) == Good(rest)
    ensures Split(payload, size) == Good([nalu] + rest)
  {
  }

  /** Splitting undoes joining. */
  lemma {:induction false} SplitOfJoin(nalus: seq<Nalu>, size: nat)
    requires NalusOk(nalus, size)
    ensures Split(Join(nalus, size), size) == Good(nalus)
  {
    if nalus != [] {
      var rest := nalus[1..];
      FirstNaluOfFramed(nalus[0], size, Join(rest, size));
      SplitOfJoin(rest, size);
      SplitStep(Join(nalus, size), size, nalus[0], rest);
      assert nalus == [nalus[0]] + rest;
    }
  }

  /** Joining undoes splitting, so a payload that splits is exactly its units. */
  lemma {:induction false} JoinOfSplit(payload: Bytes, size: nat)
    requires Split(payload, size).Good?
    ensures NalusOk(Split(payload, size).value, size)
    ensures Join(Split(payload, size).value, size) == payload
    decreases |payload|
  {
    if payload != [] {
      var nalu := FirstNalu(payload, size).value;
      FramedOfFirstNalu(payload, size);
      JoinOfSplit(payload[size + |nalu|..], size);
      assert Split(payload, size).value[1..] == Split(payload[size + |nalu|..], size).value;
    }
  }

  lemma {:induction false} JoinOfConcat(a: seq<Nalu>, b: seq<Nalu>, size: nat)
    ensures Join(a + b, size) == Join(a, size) + Join(b, size)
  {
    if a == [] {
      NoneAdded(b);
      NoneAdded(Join(b, size));
    } else {
      Peel(a, b);
      JoinOfConcat(a[1..], b, size);
      Assoc(Framed(a[0], size), Join(a[1..], size), Join(b, size));
    }
  }

  // ----- Filler -----

  /** The units that stay. */
  function Kept(nalus: seq<Nalu>): (kept: seq<Nalu>)
    ensures |kept| <= |nalus|
    ensures forall n | n in kept :: !IsFiller(n)
  {
    if nalus == [] then []
    else if IsFiller(nalus[0]) then Kept(nalus[1..])
    else [nalus[0]] + Kept(nalus[1..])
  }

  function FillerBytes(nalus: seq<Nalu>): nat {
    if nalus == [] then 0
    else (if IsFiller(nalus[0]) then |nalus[0]| else 0) + FillerBytes(nalus[1..])
  }

  lemma {:induction false} KeptOfConcat(a: seq<Nalu>, b: seq<Nalu>)
    ensures Kept(a + b) == Kept(a) + Kept(b)
    ensures FillerBytes(a + b) == FillerBytes(a) + FillerBytes(b)
  {
    if a == [] {
      NoneAdded(b);
      NoneAdded(Kept(b));
    } else {
      Peel(a, b);
      KeptOfConcat(a[1..], b);
      Assoc([a[0]], Kept(a[1..]), Kept(b));
    }
  }

  lemma Distribute(a: nat, b: nat)
    ensures a * (b + 1) == a * b + a
  {
  }

  /** What stays is what was there, in order; what went is accounted for byte by byte. */
  lemma {:induction false} KeptAccounts(nalus: seq<Nalu>, size: nat)
    requires NalusOk(nalus, size)
    ensures NalusOk(Kept(nalus), size)
    ensures |Join(nalus, size)| == |Join(Kept(nalus), size)| + size * (|nalus| - |Kept(nalus)|) + FillerBytes(nalus)
  {
    if nalus != [] {
      var rest := nalus[1..];
      assert NalusOk(rest, size);
      KeptAccounts(rest, size);
      if IsFiller(nalus[0]) {
        Distribute(size, |rest| - |Kept(rest)|);
      } else {
        assert Kept(nalus)[0] == nalus[0] && Kept(nalus)[1..] == Kept(rest);
      }
    }
  }

  lemma {:induction false} KeptTwice(nalus: seq<Nalu>)
    requires forall n | n in nalus :: !IsFiller(n)
    ensures Kept(nalus) == nalus && FillerBytes(nalus) == 0
  {
    if nalus != [] {
      assert nalus[0] in nalus && forall n | n in nalus[1..] :: n in nalus;
      KeptTwice(nalus[1..]);
      assert nalus == [nalus[0]] + nalus[1..];
    }
  }

  /** Every unit but those of type 12, filler data in Table 7-1 of ITU-T H.264. */
  predicate NoFiller(nalu: Nalu) {
    nalu == [] || nalu[0] % 32 != 12
  }

  lemma {:induction false} KeptUnits(nalus: seq<Nalu>) returns (from: seq<nat>)
    ensures Picks(nalus, Kept(nalus), from, NoFiller)
  {
    if nalus == [] {
      from := [];
    } else {
      from := KeptUnits(nalus[1..]);
      from := PicksNext(nalus, Kept(nalus[1..]), from, NoFiller);
    }
  }

  /** A unit of this type, numbered as in Table 7-1 of ITU-T H.264. */
  predicate Has(nalus: seq<Nalu>, kind: nat) {
    exists i :: 0 <= i < |nalus| && nalus[i] != [] && nalus[i][0] % 32 == kind
  }

  datatype Inspection = Inspection(hasSps: bool, hasPps: bool)

  datatype FillerRemoval = FillerRemoval(
    inspection: Inspection,
    retainedNalus: nat,
    removedNalus: nat,
    removedPayloadBytes: nat,
    removedTotalBytes: nat)
  {
    predicate Changed() {
      removedNalus > 0
    }

    predicate EmptyAfterRemoval() {
      retainedNalus == 0
    }
  }

  /** The packet without its filler. */
  function Cleaned(data: Bytes, size: nat): Bytes
    requires Nalus(data, size).Good?
  {
    data[..PREFIX] + Join(Kept(Nalus(data, size).value), size)
  }

  /**
    The cleaned packet holds exactly the units whose type is not 12, each once and in order, so
    cleaning it again finds nothing to do.
   */
  lemma CleanedReparses(data: Bytes, size: nat) returns (from: seq<nat>)
    requires Nalus(data, size).Good?
    ensures var kept := Kept(Nalus(data, size).value);
            && NalusOk(kept, size) && Picks(Nalus(data, size).value, kept, from, NoFiller)
            && Cleaned(data, size)[..PREFIX] == data[..PREFIX]
            && Nalus(Cleaned(data, size), size) == (if kept == [] then Bad(EmptyNaluPayload) else Good(kept))
            && (kept != [] ==> Cleaned(Cleaned(data, size), size) == Cleaned(data, size))
  {
    var kept, clean := Kept(Nalus(data, size).value), Cleaned(data, size);
    JoinOfSplit(data[PREFIX..], size);
    KeptAccounts(Nalus(data, size).value, size);
    SplitOfJoin(kept, size);
    KeptTwice(kept);
    from := KeptUnits(Nalus(data, size).value);
    assert clean[..PREFIX] == data[..PREFIX] && clean[PREFIX..] == Join(kept, size);
  }

  // ----- Removal in place -----

  /** A growable byte buffer: the first `length` cells of an array. */
  class Buffer {
    var cells: array<Byte>
    var length: nat

    ghost predicate Valid()
      reads this
    {
      length <= cells.Length
    }

    ghost function Contents(): Bytes
      reads this, cells
      requires Valid()
    {
      cells[..length]
    }

    ghost function Front(n: nat): Bytes
      reads this, cells
      requires n <= cells.Length
    {
      cells[..n]
    }

    ghost function Behind(n: nat): Bytes
      reads this, cells
      requires n <= length <= cells.Length
    {
      cells[n..length]
    }

    constructor (bytes: Bytes)
      ensures Valid() && fresh(cells) && Contents() == bytes
    {
      var a := new Byte[|bytes|](i requires 0 <= i < |bytes| => bytes[i]);
      cells, length := a, |bytes|;
    }

    /** Moves the cells from `start` to `end` down to `target`. */
    method CopyDown(start: nat, end: nat, target: nat)
      requires Valid() && target <= start <= end <= length
      modifies cells
      ensures forall k | 0 <= k < cells.Length && (k < target || target + (end - start) <= k) ::
                cells[k] == old(cells[k])
      ensures cells[target..target + (end - start)] == old(cells[start..end])
    {
      ghost var was := cells[..];
      for i := 0 to end - start
        invariant forall k | 0 <= k < cells.Length && (k < target || target + i <= k) :: cells[k] == was[k]
        invariant cells[target..target + i] == was[start..start + i]
      {
        assert cells[start + i] == was[start + i];
        cells[target + i] := cells[start + i];
      }
    }
  }

  datatype NaluSpan = NaluSpan(lengthOffset: nat, payloadOffset: nat, payloadLength: nat, naluType: nat) {
    function End(): nat {
      payloadOffset + payloadLength
    }
  }

  /** The unit at `offset` into the payload that starts at `PREFIX`. */
  method ReadNaluSpan(b: Buffer, size: nat, offset: nat) returns (r: Checked<NaluSpan>)
    requires b.Valid() && PREFIX + offset <= b.length
    ensures var first := FirstNalu(b.Behind(PREFIX + offset), size);
            if first.Good? then
              && r.Good? && r.value.lengthOffset == offset && r.value.payloadOffset == offset + size
              && r.value.payloadLength == |first.value| && r.value.naluType == NaluType(first.value)
            else r == Bad(first.error)
  {
    if b.length - PREFIX - offset < size {
      return Bad(TruncatedNaluLength);
    }
    var n: nat := 0;
    ghost var payload := b.Behind(PREFIX + offset);
    for i := 0 to size
      invariant n == Unsigned(payload[..i])
    {
      assert payload[..i + 1][..i] == payload[..i];
      n := 256 * n + b.cells[PREFIX + offset + i];
    }
    if n == 0 {
      return Bad(ZeroNaluLength);
    }
    if b.length - PREFIX - offset - size < n {
      return Bad(TruncatedNalu);
    }
    var first := b.cells[PREFIX + offset + size];
    assert first == payload[size];
    if first >= 128 {
      return Bad(InvalidNaluHeader);
    }
    return Good(NaluSpan(offset, offset + size, n, first % 32));
  }

  /** Units already passed in front of what is still to be split. */
  function Passed(seen: seq<Nalu>, rest: Checked<seq<Nalu>>): Checked<seq<Nalu>> {
    if rest.Good? then Good(seen + rest.value) else rest
  }

  lemma NonePassed(rest: Checked<seq<Nalu>>)
    ensures Passed([], rest) == rest
  {
    if rest.Good? {
      NoneAdded(rest.value);
    }
  }

  lemma NoneLeft(seen: seq<Nalu>)
    ensures Passed(seen, Good([])) == Good(seen)
  {
    NoneAdded(seen);
  }

  /** Reading one more unit moves it from what is left to what is passed. */
  lemma SplitNext(left: Bytes, size: nat, seen: seq<Nalu>)
    requires left != []
    ensures var first := FirstNalu(left, size);
            Passed(seen, Split(left, size)) ==
              if first.Bad? then Bad(first.error)
                  else Passed(seen + [first.value], Split(left[size + |first.value|..], size))
  {
    var first := FirstNalu(left, size);
    if first.Good? {
      var rest := Split(left[size + |first.value|..], size);
      if rest.Good? {
        Assoc(seen, [first.value], rest.value);
      }
    }
  }

  /** What the scan has counted over the units seen so far. */
  ghost predicate Counts(c: FillerRemoval, seen: seq<Nalu>, size: nat) {
    && c.retainedNalus == |Kept(seen)|
    && c.removedNalus == |seen| - |Kept(seen)|
    && c.removedPayloadBytes == FillerBytes(seen)
    && c.removedTotalBytes == size * (|seen| - |Kept(seen)|) + FillerBytes(seen)
    && c.inspection.hasSps == Has(seen, 7)
    && c.inspection.hasPps == Has(seen, 8)
  }

  lemma CountsNext(c: FillerRemoval, seen: seq<Nalu>, nalu: Nalu, size: nat)
    requires Counts(c, seen, size) && nalu != []
    ensures Counts(Counted(c, |nalu|, NaluType(nalu), size), seen + [nalu], size)
  {
    KeptOfConcat(seen, [nalu]);
    HasNext(seen, nalu, 7);
    HasNext(seen, nalu, 8);
    Distribute(size, |seen| - |Kept(seen)|);
  }

  lemma HasNext(seen: seq<Nalu>, nalu: Nalu, kind: nat)
    requires nalu != []
    ensures Has(seen + [nalu], kind) <==> Has(seen, kind) || NaluType(nalu) == kind
  {
    var all := seen + [nalu];
    assert all[|seen|] == nalu;
    assert forall i | 0 <= i < |seen| :: all[i] == seen[i];
  }

  function Counted(c: FillerRemoval, length: nat, kind: nat, size: nat): FillerRemoval {
    if kind == FILLER then
      c.(removedNalus := c.removedNalus + 1,
         removedPayloadBytes := c.removedPayloadBytes + length,
         removedTotalBytes := c.removedTotalBytes + size + length)
    else
      c.(retainedNalus := c.retainedNalus + 1,
         inspection := Inspection(c.inspection.hasSps || kind == SPS, c.inspection.hasPps || kind == PPS))
  }

  /** How far the scan has come: what is passed is counted, what is left decides the rest. */
  ghost predicate Scanning(left: Bytes, scanned: Checked<seq<Nalu>>, size: nat, seen: seq<Nalu>) {
    scanned == Passed(seen, Split(left, size))
  }

  method ScanNalus(b: Buffer, size: nat) returns (r: Checked<FillerRemoval>)
    requires b.Valid() && b.length >= PREFIX
    ensures var payload := b.Behind(PREFIX);
            var scanned := if payload == [] then Bad(EmptyNaluPayload) else Split(payload, size);
            if scanned.Good? then r.Good? && Counts(r.value, scanned.value, size) else r == Bad(scanned.error)
  {
    if b.length == PREFIX {
      return Bad(EmptyNaluPayload);
    }
    ghost var left := b.Behind(PREFIX);
    ghost var scanned, seen: seq<Nalu> := Split(left, size), [];
    var c := FillerRemoval(Inspection(false, false), 0, 0, 0, 0);
    var offset: nat := 0;
    NonePassed(scanned);
    while offset < b.length - PREFIX
      invariant PREFIX + offset <= b.length && b.Behind(PREFIX + offset) == left
      invariant Scanning(left, scanned, size, seen)
      invariant Counts(c, seen, size)
    {
      var r := ReadNaluSpan(b, size, offset);
      SplitNext(left, size, seen);
      if r.Bad? {
        return Bad(r.error);
      }
      var span := r.value;
      CountsNext(c, seen, FirstNalu(left, size).value, size);
      c := Counted(c, span.payloadLength, span.naluType, size);
      seen := seen + [FirstNalu(left, size).value];
      left := left[size + span.payloadLength..];
      offset := span.End();
    }
    NoneLeft(seen);
    return Good(c);
  }

  /** Where the compaction stands: the units kept so far are in front, those to do are left. */
  ghost predicate Compacting(front: Bytes, left: Bytes, prefix: Bytes, size: nat, done: seq<Nalu>, todo: seq<Nalu>) {
    && NalusOk(todo, size)
    && left == Join(todo, size)
    && front == prefix + Join(Kept(done), size)
  }

  /** The next unit reads, as the scan promised, and goes to the front unless it is filler. */
  lemma CompactStep(front: Bytes, left: Bytes, prefix: Bytes, size: nat, done: seq<Nalu>, todo: seq<Nalu>)
    requires Compacting(front, left, prefix, size, done, todo) && left != []
    ensures todo != [] && FirstNalu(left, size) == Good(todo[0])
    ensures var unit := Framed(todo[0], size);
            && left[..|unit|] == unit
            && Compacting(if IsFiller(todo[0]) then front
                else front + unit, left[|unit|..], prefix, size, done + [todo[0]], todo[1..])
  {
    var nalu, rest := todo[0], Join(todo[1..], size);
    var unit := Framed(nalu, size);
    FirstNaluOfFramed(nalu, size, rest);
    Parts(unit, rest);
    KeptJoins(done, nalu, size);
    Assoc(prefix, Join(Kept(done), size), unit);
  }

  lemma KeptJoins(done: seq<Nalu>, nalu: Nalu, size: nat)
    ensures Join(Kept(done + [nalu]), size) == Join(Kept(done), size) + if IsFiller(nalu) then []
            else Framed(nalu, size)
  {
    KeptOfConcat(done, [nalu]);
    JoinOfConcat(Kept(done), Kept([nalu]), size);
    if IsFiller(nalu) {
      assert Kept([nalu]) == [];
      NoneAdded(Join(Kept(done), size));
    } else {
      assert Kept([nalu]) == [nalu];
      NoneAdded(Framed(nalu, size));
    }
  }

  method KeepUnit(b: Buffer, source: nat, length: nat, write: nat, keep: bool) returns (write': nat)
    requires b.Valid() && source + length <= b.length && write <= source
    modifies b.cells
    ensures write' == if keep then write + length else write
    ensures b.Front(write') == old(if keep then b.Front(write) + b.Behind(source)[..length] else b.Front(write))
    ensures b.Behind(source + length) == old(b.Behind(source)[length..])
  {
    assert b.Behind(source)[..length] == b.cells[source..source + length];
    assert b.Behind(source)[length..] == b.cells[source + length..b.length];
    if !keep {
      return write;
    }
    if source != write {
      b.CopyDown(source, source + length, write);
      ghost var tail := write + length;
      assert b.cells[..tail] == b.cells[..write] + b.cells[write..tail];
    } else {
      assert b.cells[..write + length] == b.cells[..write] + b.cells[write..write + length];
    }
    return write + length;
  }

  method CompactUnit(b: Buffer, size: nat, read: nat, write: nat, ghost nalu: Nalu) returns (read': nat, write': nat)
    requires b.Valid() && PREFIX <= write <= PREFIX + read <= b.length
    requires FirstNalu(b.Behind(PREFIX + read), size) == Good(nalu)
    requires b.Behind(PREFIX + read)[..size + |nalu|] == Framed(nalu, size)
    modifies b.cells
    ensures read < read' == read + size + |nalu| && PREFIX <= write' <= PREFIX + read' <= b.length
    ensures b.Front(write') == old(if IsFiller(nalu) then b.Front(write) else b.Front(write) + Framed(nalu, size))
    ensures b.Behind(PREFIX + read') == old(b.Behind(PREFIX + read)[size + |nalu|..])
  {
    var r := ReadNaluSpan(b, size, read);
    var span := r.value;
    write' := KeepUnit(b, PREFIX + span.lengthOffset, span.End() - span.lengthOffset, write, span.naluType != FILLER);
    read' := span.End();
  }

  method Compact(b: Buffer, size: nat)
    requires b.Valid() && Nalus(b.Contents(), size).Good?
    modifies b, b.cells
    ensures b.Valid() && b.cells == old(b.cells)
    ensures b.Contents() == Cleaned(old(b.Contents()), size)
  {
    ghost var front, left, prefix := b.Front(PREFIX), b.Behind(PREFIX), b.Front(PREFIX);
    ghost var done: seq<Nalu>, todo := [], Nalus(b.Contents(), size).value;
    var read: nat, write: nat := 0, PREFIX;
    CompactStart(b.Contents(), size);
    while read < b.length - PREFIX
      invariant b.Valid() && b.cells == old(b.cells) && b.length == old(b.length)
      invariant PREFIX <= write <= PREFIX + read <= b.length
      invariant b.Front(write) == front && b.Behind(PREFIX + read) == left
      invariant done + todo == Nalus(old(b.Contents()), size).value
      invariant Compacting(front, left, prefix, size, done, todo)
    {
      CompactStep(front, left, prefix, size, done, todo);
      ghost var unit := Framed(todo[0], size);
      read, write := CompactUnit(b, size, read, write, todo[0]);
      front, left := if IsFiller(todo[0]) then front else front + unit, left[|unit|..];
      Shift(done, todo);
      done, todo := done + [todo[0]], todo[1..];
    }
    CompactEnd(front, left, prefix, size, done, todo);
    b.length := write;
  }

  lemma CompactStart(data: Bytes, size: nat)
    requires Nalus(data, size).Good?
    ensures Compacting(data[..PREFIX], data[PREFIX..], data[..PREFIX], size, [], Nalus(data, size).value)
  {
    JoinOfSplit(data[PREFIX..], size);
    NoneAdded(data[..PREFIX]);
    NoneAdded(Nalus(data, size).value);
  }

  lemma CompactEnd(front: Bytes, left: Bytes, prefix: Bytes, size: nat, done: seq<Nalu>, todo: seq<Nalu>)
    requires Compacting(front, left, prefix, size, done, todo) && left == []
    ensures front == prefix + Join(Kept(done + todo), size)
  {
    NoneAdded(done);
  }

  lemma Shift(done: seq<Nalu>, todo: seq<Nalu>)
    requires todo != []
    ensures (done + [todo[0]]) + todo[1..] == done + todo
  {
    Cons(todo);
    Assoc(done, [todo[0]], todo[1..]);
  }

  /**
    Takes the filler out of a packet in place. A packet that is refused stays as it was, for the
    reason the scan gives; the read inside the compaction cannot fail, because the scan has
    already accepted every unit it meets.
   */
  method RemoveFiller(b: Buffer, size: nat) returns (r: Checked<FillerRemoval>)
    requires b.Valid()
    modifies b, b.cells
    ensures b.Valid() && b.cells == old(b.cells)
    ensures var data := old(b.Contents());
            match Nalus(data, size)
            case Bad(error) => r == Bad(error) && b.Contents() == data
            case Good(nalus) =>
              && r.Good? && Counts(r.value, nalus, size)
              && b.Contents() == Cleaned(data, size)
              && |data| == |b.Contents()| + r.value.removedTotalBytes
              && (!r.value.Changed() ==> b.Contents() == data)
  {
    ghost var data := b.Contents();
    if b.length < 2 || b.cells[0] % 16 != 7 || b.cells[1] != 1 {
      return Bad(NotNaluPacket);
    }
    if size != 1 && size != 2 && size != 4 {
      return Bad(InvalidNaluLengthSize);
    }
    if b.length < PREFIX {
      return Bad(NaluPacketTooShort);
    }
    r := ScanNalus(b, size);
    if r.Bad? {
      if StartsWithAnnexB(b.cells[PREFIX..b.length]) {
        r := Bad(UnsupportedAnnexBStartCode);
      }
      return;
    }
    CleanedAccounts(data, size);
    if r.value.removedNalus > 0 {
      Compact(b, size);
    }
  }

  lemma CleanedAccounts(data: Bytes, size: nat)
    requires Nalus(data, size).Good?
    ensures var nalus := Nalus(data, size).value;
            && |data| == |Cleaned(data, size)| + size * (|nalus| - |Kept(nalus)|) + FillerBytes(nalus)
            && (|Kept(nalus)| == |nalus| ==> Cleaned(data, size) == data)
  {
    var nalus := Nalus(data, size).value;
    JoinOfSplit(data[PREFIX..], size);
    KeptAccounts(nalus, size);
    if |Kept(nalus)| == |nalus| {
      NothingToRemove(nalus);
    }
  }

  lemma {:induction false} NothingToRemove(nalus: seq<Nalu>)
    requires |Kept(nalus)| == |nalus|
    ensures Kept(nalus) == nalus
  {
    if nalus != [] {
      NothingToRemove(nalus[1..]);
    }
  }
}
