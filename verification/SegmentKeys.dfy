/** How segment rows are keyed in the table, and how one session's rows are found again. */
module SegmentKeys {
  import opened Sequences
  import opened Numerals
  import opened Model
  import opened Database
  import opened FileLayout
  import opened StateStore

  // ----- Keys -----

  predicate HasPrefix(key: string, prefix: string) {
    |prefix| <= |key| && key[..|prefix|] == prefix
  }

  function Hyphenated(s: string, at: nat): (t: string)
    requires at <= |s|
    ensures |t| == |s| + 1
  {
    s[..at] + (['-'] + s[at..])
  }

  /** An identifier as text: 32 hexadecimal digits in groups of 8, 4, 4, 4 and 12. */
  function UuidText(id: Uuid): (s: string)
    ensures |s| == UUID_DIGITS + 4
  {
    Hyphenated(Hyphenated(Hyphenated(Hyphenated(Numeral(id, 16, UUID_DIGITS), 8), 13), 18), 23)
  }

  function SessionPrefix(sid: Uuid): string {
    UuidText(sid) + [':']
  }

  function TableKey(key: SegmentKey): string {
    SessionPrefix(key.sid) + Numeral(key.index, 10, INDEX_WIDTH)
  }

  lemma HyphenKeepsOrder(a: string, b: string, at: nat)
    requires |a| == |b| && at <= |a|
    ensures Before(Hyphenated(a, at), Hyphenated(b, at)) <==> Before(a, b)
    ensures Hyphenated(a, at) == Hyphenated(b, at) <==> a == b
  {
    FrontDecides(a[..at], b[..at], ['-'] + a[at..], ['-'] + b[at..]);
    FrontDecides(['-'], ['-'], a[at..], b[at..]);
    NotBeforeItself(['-']);
    FrontDecides(a[..at], b[..at], a[at..], b[at..]);
    Halves(a, at);
    Halves(b, at);
    Parts(a[..at], ['-'] + a[at..]);
    Parts(b[..at], ['-'] + b[at..]);
    Parts(['-'], a[at..]);
    Parts(['-'], b[at..]);
  }

  lemma Halves(s: string, at: nat)
    requires at <= |s|
    ensures s == s[..at] + s[at..]
  {
  }

  /** Identifiers are ordered, and told apart, by their text. */
  lemma UuidsInOrder(a: Uuid, b: Uuid)
    requires IsUuid(a) && IsUuid(b)
    ensures Before(UuidText(a), UuidText(b)) <==> a < b
    ensures UuidText(a) == UuidText(b) <==> a == b
  {
    hide Before, Hyphenated;
    var (s, t) := (Numeral(a, 16, UUID_DIGITS), Numeral(b, 16, UUID_DIGITS));
    NumeralsInOrder(a, b, 16, UUID_DIGITS);
    HyphenKeepsOrder(s, t, 8);
    var (s1, t1) := (Hyphenated(s, 8), Hyphenated(t, 8));
    HyphenKeepsOrder(s1, t1, 13);
    var (s2, t2) := (Hyphenated(s1, 13), Hyphenated(t1, 13));
    HyphenKeepsOrder(s2, t2, 18);
    HyphenKeepsOrder(Hyphenated(s2, 18), Hyphenated(t2, 18), 23);
  }

  lemma PrefixesInOrder(a: Uuid, b: Uuid)
    requires IsUuid(a) && IsUuid(b)
    ensures Before(SessionPrefix(a), SessionPrefix(b)) <==> a < b
    ensures SessionPrefix(a) == SessionPrefix(b) <==> a == b
  {
    hide UuidText;
    UuidsInOrder(a, b);
    FrontDecides(UuidText(a), UuidText(b), [':'], [':']);
    NotBeforeItself([':']);
    SameEnds(UuidText(a), UuidText(b), ':', ':');
  }

  /** The table's order is that of sessions, and within a session that of indices. */
  lemma KeysInOrder(a: SegmentKey, b: SegmentKey)
    requires IsKey(a) && IsKey(b)
    ensures Before(TableKey(a), TableKey(b)) <==> a.sid < b.sid || (a.sid == b.sid && a.index < b.index)
  {
    hide Before, UuidText;
    IndexFits(a.index);
    IndexFits(b.index);
    PrefixesInOrder(a.sid, b.sid);
    NumeralsInOrder(a.index, b.index, 10, INDEX_WIDTH);
    FrontDecides(SessionPrefix(a.sid), SessionPrefix(b.sid), Numeral(a.index, 10, INDEX_WIDTH),
        Numeral(b.index, 10, INDEX_WIDTH));
  }

  /** A key carries the prefix of its own session and of no other, and comes before the prefixes of later sessions. */
  lemma PrefixTellsSession(key: SegmentKey, sid: Uuid)
    requires IsKey(key) && IsUuid(sid)
    ensures HasPrefix(TableKey(key), SessionPrefix(sid)) <==> key.sid == sid
    ensures Before(TableKey(key), SessionPrefix(sid)) <==> key.sid < sid
  {
    hide Before, UuidText;
    var digits := Numeral(key.index, 10, INDEX_WIDTH);
    PrefixesInOrder(key.sid, sid);
    Parts(SessionPrefix(key.sid), digits);
    FrontDecides(SessionPrefix(key.sid), SessionPrefix(sid), digits, []);
    NoneAdded(SessionPrefix(sid));
    NothingBeforeNothing(digits);
  }

  // ----- The scan -----

  /** The rows of the table, in the order of their keys. */
  ghost predicate IsTable(db: Db, table: seq<Segment>) {
    && (forall i | 0 <= i < |table| :: table[i].Key() in db.segments && db.segments[table[i].Key()] == table[i])
    && (forall k | k in db.segments :: db.segments[k] in table)
    && (forall i, j | 0 <= i < j < |table| :: Before(TableKey(table[i].Key()), TableKey(table[j].Key())))
  }

  ghost predicate AllKeys(table: seq<Segment>) {
    forall i | 0 <= i < |table| :: IsKey(table[i].Key())
  }

  /** The first row whose key is not before the session's prefix. */
  method RangeStart(table: seq<Segment>, sid: Uuid) returns (start: nat)
    requires AllKeys(table) && IsUuid(sid)
    ensures start <= |table|
    ensures forall i | 0 <= i < start :: table[i].sid < sid
    ensures start < |table| ==> sid <= table[start].sid
  {
    hide Before, TableKey, SessionPrefix, HasPrefix, IsUuid;
    start := 0;
    while start < |table|
      invariant start <= |table|
      invariant forall i | 0 <= i < start :: table[i].sid < sid
    {
      PrefixTellsSession(table[start].Key(), sid);
      if !Before(TableKey(table[start].Key()), SessionPrefix(sid)) {
        return;
      }
      start := start + 1;
    }
  }

  /** Reads on until a key lacks the prefix. */
  method ReadRun(table: seq<Segment>, sid: Uuid, start: nat) returns (rows: seq<Segment>, ghost end: nat)
    requires AllKeys(table) && IsUuid(sid) && start <= |table|
    ensures start <= end <= |table| && rows == table[start..end]
    ensures forall j | start <= j < end :: table[j].sid == sid
    ensures end < |table| ==> table[end].sid != sid
  {
    hide Before, TableKey, SessionPrefix, HasPrefix, IsUuid;
    rows := [];
    var i := start;
    while i < |table|
      invariant start <= i <= |table| && rows == table[start..i]
      invariant forall j | start <= j < i :: table[j].sid == sid
    {
      PrefixTellsSession(table[i].Key(), sid);
      if !HasPrefix(TableKey(table[i].Key()), SessionPrefix(sid)) {
        return rows, i;
      }
      rows := rows + [table[i]];
      i := i + 1;
    }
    return rows, i;
  }

  /** The scan of one session: exactly its rows, in index order. */
  method DecodeSegments(ghost db: Db, table: seq<Segment>, sid: Uuid) returns (rows: seq<Segment>)
    requires db.Keyed() && IsTable(db, table) && IsUuid(sid)
    requires forall k | k in db.segments :: IsKey(k)
    ensures Lists(db, sid, rows)
  {
    hide Before, TableKey, SessionPrefix, Lists, IsUuid;
    var start := RangeStart(table, sid);
    ghost var end;
    rows, end := ReadRun(table, sid, start);
    RunIsListed(db, table, sid, start, end);
  }

  lemma RowsInOrder(db: Db, table: seq<Segment>, i: nat, j: nat)
    requires IsTable(db, table) && AllKeys(table) && i < j < |table|
    ensures table[i].sid < table[j].sid || (table[i].sid == table[j].sid && table[i].index < table[j].index)
  {
    hide Before, TableKey;
    KeysInOrder(table[i].Key(), table[j].Key());
  }

  lemma InTable(db: Db, table: seq<Segment>, i: nat)
    requires IsTable(db, table) && i < |table|
    ensures table[i].Key() in db.segments && db.segments[table[i].Key()] == table[i]
  {
  }

  lemma PlaceOf(db: Db, table: seq<Segment>, k: SegmentKey) returns (i: nat)
    requires db.Keyed() && IsTable(db, table) && k in db.segments
    ensures i < |table| && table[i] == db.segments[k] && table[i].sid == k.sid
  {
    i :| 0 <= i < |table| && table[i] == db.segments[k];
    assert table[i].Key() == k;
  }

  lemma RunInOrder(db: Db, table: seq<Segment>, start: nat, end: nat)
    requires IsTable(db, table) && AllKeys(table) && start <= end <= |table|
    requires forall i, j | start <= i < end && start <= j < end :: table[i].sid == table[j].sid
    ensures forall i, j | 0 <= i < j < end - start :: table[start..end][i].index < table[start..end][j].index
  {
    hide IsTable, IsKey;
    forall i, j | 0 <= i < j < end - start ensures table[start..end][i].index < table[start..end][j].index {
      RowsInOrder(db, table, start + i, start + j);
    }
  }

  lemma RunIsListed(db: Db, table: seq<Segment>, sid: Uuid, start: nat, end: nat)
    requires db.Keyed() && IsTable(db, table) && AllKeys(table) && start <= end <= |table|
    requires forall i | 0 <= i < start :: table[i].sid < sid
    requires start < |table| ==> sid <= table[start].sid
    requires forall j | start <= j < end :: table[j].sid == sid
    requires end < |table| ==> table[end].sid != sid
    ensures Lists(db, sid, table[start..end])
  {
    hide IsUuid, IsKey, IsTable;
    RunInOrder(db, table, start, end);
    var rows := table[start..end];
    forall k | k in db.segments && k.sid == sid ensures db.segments[k] in rows {
      var i := PlaceOf(db, table, k);
      RowOfSession(db, table, sid, start, end, i);
      assert rows[i - start] == table[i];
    }
    forall i | 0 <= i < |rows| ensures rows[i].Key() in db.segments && db.segments[rows[i].Key()] == rows[i] {
      InTable(db, table, start + i);
    }
  }

  lemma RowOfSession(db: Db, table: seq<Segment>, sid: Uuid, start: nat, end: nat, i: nat)
    requires IsTable(db, table) && AllKeys(table) && start <= end <= |table| && i < |table| && table[i].sid == sid
    requires forall j | 0 <= j < start :: table[j].sid < sid
    requires start < |table| ==> sid <= table[start].sid
    requires end < |table| ==> table[end].sid != sid
    ensures start <= i < end
  {
    hide IsUuid;
    if end < i {
      RowsInOrder(db, table, end, i);
      if start < end {
        RowsInOrder(db, table, start, end);
      }
    }
  }
}
