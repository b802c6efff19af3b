/** The names of a recording's files (src/recorder/segment.rs). */
module FileLayout {
  import opened Sequences
  import opened Numerals
  import opened Model

  const UUID_DIGITS: nat := 32
  const INDEX_WIDTH: nat := 10

  /** The ids that fit in the 128 bits of an identifier. */
  predicate IsUuid(id: Uuid) {
    id < Power(16, UUID_DIGITS)
  }

  predicate IsKey(key: SegmentKey) {
    IsUuid(key.sid) && key.index <= MAX_U32
  }

  lemma IndexFits(n: nat)
    requires n <= MAX_U32
    ensures n < Power(10, INDEX_WIDTH)
  {
    assert Power(10, 4) == Times(10, Power(10, 3)) && Power(10, 3) == Times(10, Power(10, 2));
    assert Power(10, 7) == Times(10, Power(10, 6)) && Power(10, 6) == Times(10, Power(10, 5));
  }

  // ----- Names -----

  /** How many digits `n` takes, `width` at least. */
  function Width(n: nat, width: nat): (w: nat)
    requires width <= INDEX_WIDTH && n < Power(10, INDEX_WIDTH)
    ensures n < Power(10, w)
    decreases INDEX_WIDTH - width
  {
    if n < Power(10, width) then width else Width(n, width + 1)
  }

  const LEAST_WIDTH: nat := 4

  function IndexText(index: nat): string
    requires index <= MAX_U32
  {
    IndexFits(index);
    Numeral(index, 10, Width(index, LEAST_WIDTH))
  }

  /** The session's identifier without hyphens, and the index in four digits or more. */
  function NameText(key: SegmentKey): string
    requires IsKey(key)
  {
    Numeral(key.sid, 16, UUID_DIGITS) + (['-'] + IndexText(key.index))
  }

  function FilePath(dir: Path, key: SegmentKey, extension: string): Path
    requires IsKey(key)
  {
    dir + (['/'] + (NameText(key) + extension))
  }

  function PartPath(dir: Path, key: SegmentKey): Path
    requires IsKey(key)
  {
    FilePath(dir, key, ".part")
  }

  function FinalPath(dir: Path, key: SegmentKey): Path
    requires IsKey(key)
  {
    FilePath(dir, key, ".flv")
  }

  /** The segment has the names its key gives it in some directory. */
  ghost predicate LaidOut(segment: Segment) {
    && IsKey(segment.Key())
    && exists dir ::
          segment.partPath == PartPath(dir, segment.Key()) && segment.finalPath == FinalPath(dir, segment.Key())
  }

  // ----- No two segments share a name -----

  lemma NameTellsKey(a: SegmentKey, b: SegmentKey)
    requires IsKey(a) && IsKey(b) && NameText(a) == NameText(b)
    ensures a == b
  {
    hide Numeral, Power;
    var (s, t) := (Numeral(a.sid, 16, UUID_DIGITS), Numeral(b.sid, 16, UUID_DIGITS));
    Parts(s, ['-'] + IndexText(a.index));
    Parts(t, ['-'] + IndexText(b.index));
    Parts(['-'], IndexText(a.index));
    Parts(['-'], IndexText(b.index));
    NumeralsInOrder(a.sid, b.sid, 16, UUID_DIGITS);
    IndexFits(a.index);
    IndexFits(b.index);
    NumeralsInOrder(a.index, b.index, 10, Width(a.index, LEAST_WIDTH));
  }

  /** A text that is no path of more than one step. */
  predicate OneStep(s: string) {
    forall i | 0 <= i < |s| :: s[i] != '/'
  }

  lemma {:induction false} NumeralIsOneStep(n: nat, base: nat, width: nat)
    requires IsBase(base)
    ensures OneStep(Numeral(n, base, width))
  {
    if width > 0 {
      NumeralIsOneStep(Quotient(n, base), base, width - 1);
    }
  }

  lemma NameIsOneStep(key: SegmentKey)
    requires IsKey(key)
    ensures OneStep(NameText(key))
  {
    hide Numeral, Power;
    IndexFits(key.index);
    NumeralIsOneStep(key.sid, 16, UUID_DIGITS);
    NumeralIsOneStep(key.index, 10, Width(key.index, LEAST_WIDTH));
  }

  lemma LastSlash(d: string, s: string, at: nat)
    requires OneStep(s) && at < |d| + 1 + |s| && (d + (['/'] + s))[at] == '/'
    ensures at <= |d|
  {
    Parts(d, ['/'] + s);
    Parts(['/'], s);
  }

  /** Whatever directories lead there, the last step of a path is its own. */
  lemma LastStep(d: string, s: string, e: string, t: string)
    requires OneStep(s) && OneStep(t) && d + (['/'] + s) == e + (['/'] + t)
    ensures s == t
  {
    assert |d + (['/'] + s)| == |d| + 1 + |s| && |e + (['/'] + t)| == |e| + 1 + |t|;
    LastSlash(d, s, |e|);
    LastSlash(e, t, |d|);
    Parts(d, ['/'] + s);
    Parts(e, ['/'] + t);
    Parts(['/'], s);
    Parts(['/'], t);
  }

  lemma SameExtension(a: string, b: string, extension: string)
    requires a + extension == b + extension
    ensures a == b
  {
    assert |a| == |b|;
    Parts(a, extension);
    Parts(b, extension);
  }

  lemma OtherExtension(a: string, b: string)
    ensures a + ".part" != b + ".flv"
  {
    var (s, t) := (a + ".part", b + ".flv");
    assert s[|s| - 1] == 't' && t[|t| - 1] == 'v';
  }

  lemma PathTellsKey(d: Path, a: SegmentKey, x: string, e: Path, b: SegmentKey, y: string)
    requires IsKey(a) && IsKey(b) && {x, y} <= {".part", ".flv"}
    requires FilePath(d, a, x) == FilePath(e, b, y)
    ensures a == b && x == y
  {
    hide NameText;
    var (s, t) := (NameText(a) + x, NameText(b) + y);
    NameIsOneStep(a);
    NameIsOneStep(b);
    LastStep(d, s, e, t);
    OtherExtension(NameText(a), NameText(b));
    OtherExtension(NameText(b), NameText(a));
    SameExtension(NameText(a), NameText(b), x);
    NameTellsKey(a, b);
  }

  /** No two segments, in whatever directories, ever share a file name, and no segment's two files do. */
  lemma NamesNeverMeet(a: Segment, b: Segment)
    requires LaidOut(a) && LaidOut(b)
    ensures a.partPath != b.finalPath && b.partPath != a.finalPath
    ensures a.Key() != b.Key() ==> a.partPath != b.partPath && a.finalPath != b.finalPath
  {
    hide FilePath;
    var d :| a.partPath == PartPath(d, a.Key()) && a.finalPath == FinalPath(d, a.Key());
    var e :| b.partPath == PartPath(e, b.Key()) && b.finalPath == FinalPath(e, b.Key());
    if a.partPath == b.finalPath {
      PathTellsKey(d, a.Key(), ".part", e, b.Key(), ".flv");
    }
    if b.partPath == a.finalPath {
      PathTellsKey(e, b.Key(), ".part", d, a.Key(), ".flv");
    }
    if a.partPath == b.partPath {
      PathTellsKey(d, a.Key(), ".part", e, b.Key(), ".part");
    }
    if a.finalPath == b.finalPath {
      PathTellsKey(d, a.Key(), ".flv", e, b.Key(), ".flv");
    }
  }
}
