/** The cursor that reads AMF0 values and the buffer that collects them. */
module AmfStreams {
  import opened Wrappers
  import opened ByteStrings
  import opened Sequences
  import opened Amf

  /** Values already read in front of what is still to come. */
  function Prepended<T>(done: seq<T>, rest: Read<seq<T>>): Read<seq<T>> {
    if rest.Got? then Got(done + rest.value, rest.rest) else Nothing
  }

  lemma PrependNone<T>(rest: Read<seq<T>>)
    ensures Prepended([], rest) == rest
  {
    if rest.Got? {
      NoneAdded(rest.value);
    }
  }

  lemma PrependNext<T>(done: seq<T>, next: T, rest: Read<seq<T>>)
    ensures Prepended(done, Prepended([next], rest)) == Prepended(done + [next], rest)
  {
    if rest.Got? {
      Assoc(done, [next], rest.value);
    }
  }

  lemma EntriesStep(done: seq<Entry>, s: Bytes, room: nat, open: bool, depth: nat)
    requires room > 0 && !StartsWith(s, OBJECT_END)
    ensures var e := ReadEntry(s, depth);
            Prepended(done, ReadEntries(s, room, open, depth)) ==
              if e.Got? then Prepended(done + [e.value], ReadEntries(e.rest, room - 1, open, depth)) else Nothing
  {
    var e := ReadEntry(s, depth);
    if e.Got? {
      var others := ReadEntries(e.rest, room - 1, open, depth);
      assert ReadEntries(s, room, open, depth) == Prepended([e.value], others);
      PrependNext(done, e.value, others);
    }
  }

  lemma EntriesEnd(done: seq<Entry>, s: Bytes, room: nat, open: bool, depth: nat)
    ensures StartsWith(s, OBJECT_END) ==> Prepended(done, ReadEntries(s, room, open, depth)) == Got(done, s[3..])
    ensures !StartsWith(s, OBJECT_END) && room == 0 ==>
              Prepended(done, ReadEntries(s, room, open, depth)) == if open then Nothing else Got(done, s)
  {
    NoneAdded(done);
  }

  lemma ItemsStep(done: seq<Value>, s: Bytes, count: nat, depth: nat)
    requires count > 0
    ensures var item := ReadValue(s, depth);
            Prepended(done, ReadItems(s, count, depth)) ==
              if item.Got? then Prepended(done + [item.value], ReadItems(item.rest, count - 1, depth)) else Nothing
  {
    var item := ReadValue(s, depth);
    if item.Got? {
      var others := ReadItems(item.rest, count - 1, depth);
      assert ReadItems(s, count, depth) == Prepended([item.value], others);
      PrependNext(done, item.value, others);
    }
  }

  /** A cursor over a metadata body. After a failed read the cursor is not used again. */
  class Reader {
    const data: Bytes
    var pos: nat

    ghost predicate Valid()
      reads this
    {
      pos <= |data|
    }

    ghost function Rest(): Bytes
      reads this
      requires Valid()
    {
      data[pos..]
    }

    /** The outcome and the new position are those of a read of what was left. */
    ghost predicate Follows<T>(r: Option<T>, read: Read<T>)
      reads this
    {
      Valid() && if read.Got? then r == Some(read.value) && Rest() == read.rest else r.None?
    }

    constructor (data: Bytes)
      ensures Valid() && Rest() == data && this.data == data
    {
      this.data, pos := data, 0;
    }

    method Take(n: nat) returns (r: Option<Bytes>)
      requires Valid()
      modifies this
      ensures Valid()
      ensures var s := old(Rest());
              if n <= |s| then r == Some(s[..n]) && Rest() == s[n..] else r.None?
    {
      if |data| - pos < n {
        return None;
      }
      r := Some(data[pos..pos + n]);
      assert data[pos..pos + n] == Rest()[..n];
      DropTwice(data, pos, n);
      pos := pos + n;
    }

    method ReadNumberOf(width: nat) returns (r: Option<nat>)
      requires Valid()
      modifies this
      ensures Follows(r, ReadUnsigned(old(Rest()), width))
    {
      var bytes := Take(width);
      if bytes.None? {
        return None;
      }
      return Some(Unsigned(bytes.value));
    }

    method ReadUtf8() returns (r: Option<Bytes>)
      requires Valid()
      modifies this
      ensures Follows(r, ReadText(old(Rest())))
    {
      var length := ReadNumberOf(2);
      if length.None? {
        return None;
      }
      r := Take(length.value);
      if r.Some? && !IsUtf8(r.value) {
        r := None;
      }
    }

    method ConsumeObjectEnd() returns (found: bool)
      requires Valid()
      modifies this
      ensures Valid() && found == StartsWith(old(Rest()), OBJECT_END)
      ensures Rest() == if found then old(Rest())[3..] else old(Rest())
    {
      found := |data| - pos >= 3 && data[pos..pos + 3] == OBJECT_END;
      assert |data| - pos >= 3 ==> data[pos..pos + 3] == Rest()[..3];
      if found {
        DropTwice(data, pos, 3);
        pos := pos + 3;
      }
    }

    method ReadValueAt(depth: nat) returns (r: Option<Value>)
      requires Valid()
      modifies this
      ensures Follows(r, ReadValue(old(Rest()), depth))
      decreases |data| - pos, 2
    {
      if depth > MAX_DEPTH {
        return None;
      }
      var marker := Take(1);
      if marker.None? {
        return None;
      }
      match marker.value[0]
      case 0x00 =>
        var bits := ReadNumberOf(8);
        r := NumberOf(bits, old(Rest()[1..]));
      case 0x01 =>
        var on := Take(1);
        r := if on.None? then None else Some(Boolean(on.value[0] != 0));
      case 0x02 =>
        var text := ReadUtf8();
        r := if text.None? then None else Some(Text(text.value));
      case 0x03 =>
        ghost var goal := ReadEntries(Rest(), MAX_OBJECT_ENTRIES, true, depth + 1);
        PrependNone(goal);
        var entries := ReadOpenEntries(depth + 1, goal);
        r := if entries.None? then None else Some(Object(entries.value));
      case 0x05 => r := Some(Null);
      case 0x06 => r := Some(Undefined);
      case 0x08 => r := ReadEcmaArray(depth);
      case 0x0A => r := ReadStrictArray(depth);
      case _ => r := None;
    }

    static function NumberOf(bits: Option<nat>, ghost s: Bytes): (r: Option<Value>)
      requires bits.Some? ==> ReadUnsigned(s, 8).Got? && bits.value == ReadUnsigned(s, 8).value
      ensures r == if bits.Some? then Some(ReadNumber(s).value) else None
    {
      if bits.None? then None
      else
        Spans();
        BigEndianOfUnsigned(s[..8]);
        Some(Number(bits.value))
    }

    method ReadEcmaArray(depth: nat) returns (r: Option<Value>)
      requires Valid()
      modifies this
      ensures var count := ReadUnsigned(old(Rest()), 4);
              if count.Nothing? || count.value > MAX_OBJECT_ENTRIES then Valid() && r.None?
              else
                var entries := ReadEntries(count.rest, count.value, false, depth + 1);
                Follows(r, if entries.Got? then Got(EcmaArray(entries.value), entries.rest) else Nothing)
      decreases |data| - pos, 3
    {
      var count := ReadNumberOf(4);
      if count.None? || count.value > MAX_OBJECT_ENTRIES {
        return None;
      }
      ghost var goal := ReadEntries(Rest(), count.value, false, depth + 1);
      PrependNone(goal);
      var entries := ReadCountedEntries(count.value, depth + 1, goal);
      return if entries.None? then None else Some(EcmaArray(entries.value));
    }

    method ReadStrictArray(depth: nat) returns (r: Option<Value>)
      requires Valid()
      modifies this
      ensures var count := ReadUnsigned(old(Rest()), 4);
              if count.Nothing? || count.value > MAX_ARRAY_ITEMS then Valid() && r.None?
              else
                var items := ReadItems(count.rest, count.value, depth + 1);
                Follows(r, if items.Got? then Got(StrictArray(items.value), items.rest) else Nothing)
      decreases |data| - pos, 3
    {
      var count := ReadNumberOf(4);
      if count.None? || count.value > MAX_ARRAY_ITEMS {
        return None;
      }
      var items := ReadArrayItems(count.value, depth + 1);
      return if items.None? then None else Some(StrictArray(items.value));
    }

    method ReadNextEntry(depth: nat) returns (r: Option<Entry>)
      requires Valid()
      modifies this
      ensures Follows(r, ReadEntry(old(Rest()), depth))
      decreases |data| - pos, 3
    {
      var key := ReadUtf8();
      if key.None? {
        return None;
      }
      var value := ReadValueAt(depth);
      return if value.None? then None else Some(Entry(key.value, value.value));
    }

    /** One turn of an entry loop: `goal` is what the whole loop is to read. */
    ghost predicate Reading(goal: Read<seq<Entry>>, entries: seq<Entry>, room: nat, open: bool, depth: nat)
      reads this
    {
      Valid() && goal == Prepended(entries, ReadEntries(Rest(), room, open, depth))
    }

    method ReadOneMore(entries: seq<Entry>, room: nat, open: bool, depth: nat, ghost goal: Read<seq<Entry>>)
      returns (entries': Option<seq<Entry>>)
      requires room > 0 && Reading(goal, entries, room, open, depth) && !StartsWith(Rest(), OBJECT_END)
      modifies this
      ensures Valid()
      ensures if entries'.None? then goal.Nothing?
              else
                && pos >= old(pos) && |entries'.value| == |entries| + 1
                && Reading(goal, entries'.value, room - 1, open, depth)
      decreases |data| - pos, 4
    {
      EntriesStep(entries, Rest(), room, open, depth);
      var e := ReadNextEntry(depth);
      return if e.None? then None else Some(entries + [e.value]);
    }

    method AtEnd(entries: seq<Entry>, room: nat, open: bool, depth: nat, ghost goal: Read<seq<Entry>>)
      returns (found: bool)
      requires Reading(goal, entries, room, open, depth)
      modifies this
      ensures Valid() && pos >= old(pos)
      ensures found ==> Follows(Some(entries), goal)
      ensures !found ==> pos == old(pos) && !StartsWith(Rest(), OBJECT_END) && Reading(goal, entries, room, open, depth)
      ensures !found && room == 0 ==> if open then goal.Nothing? else Follows(Some(entries), goal)
    {
      EntriesEnd(entries, Rest(), room, open, depth);
      found := ConsumeObjectEnd();
    }

    /** The entries of an array that announced their number; the end marker may be missing. */
    method ReadCountedEntries(count: nat, depth: nat, ghost goal: Read<seq<Entry>>) returns (r: Option<seq<Entry>>)
      requires Reading(goal, [], count, false, depth)
      modifies this
      ensures Follows(r, goal)
      decreases |data| - pos, 5
    {
      hide ReadEntry, ReadValue, KeyOk, StartsWith;
      var entries: seq<Entry> := [];
      while |entries| < count
        invariant pos >= old(pos) && |entries| <= count && Reading(goal, entries, count - |entries|, false, depth)
      {
        var ended := AtEnd(entries, count - |entries|, false, depth, goal);
        if ended {
          return Some(entries);
        }
        var more := ReadOneMore(entries, count - |entries|, false, depth, goal);
        if more.None? {
          return None;
        }
        entries := more.value;
      }
      var _ := AtEnd(entries, 0, false, depth, goal);
      return Some(entries);
    }

    /** The entries of an object, up to its end marker. */
    method ReadOpenEntries(depth: nat, ghost goal: Read<seq<Entry>>) returns (r: Option<seq<Entry>>)
      requires Reading(goal, [], MAX_OBJECT_ENTRIES, true, depth)
      modifies this
      ensures Follows(r, goal)
      decreases |data| - pos, 5
    {
      hide ReadEntry, ReadValue, KeyOk, StartsWith;
      var entries: seq<Entry> := [];
      while true
        invariant pos >= old(pos) && |entries| <= MAX_OBJECT_ENTRIES
        invariant Reading(goal, entries, MAX_OBJECT_ENTRIES - |entries|, true, depth)
        decreases MAX_OBJECT_ENTRIES - |entries|
      {
        var ended := AtEnd(entries, MAX_OBJECT_ENTRIES - |entries|, true, depth, goal);
        if ended {
          return Some(entries);
        }
        if |entries| >= MAX_OBJECT_ENTRIES {
          return None;
        }
        var more := ReadOneMore(entries, MAX_OBJECT_ENTRIES - |entries|, true, depth, goal);
        if more.None? {
          return None;
        }
        entries := more.value;
      }
    }

    method ReadArrayItems(count: nat, depth: nat) returns (r: Option<seq<Value>>)
      requires Valid()
      modifies this
      ensures Follows(r, ReadItems(old(Rest()), count, depth))
      decreases |data| - pos, 4
    {
      var items: seq<Value> := [];
      PrependNone(ReadItems(Rest(), count, depth));
      while |items| < count
        invariant Valid() && old(pos) <= pos && |items| <= count
        invariant ReadItems(old(Rest()), count, depth) == Prepended(items, ReadItems(Rest(), count - |items|, depth))
      {
        ItemsStep(items, Rest(), count - |items|, depth);
        var item := ReadValueAt(depth);
        if item.None? {
          return None;
        }
        items := items + [item.value];
      }
      NoneAdded(items);
      return Some(items);
    }
  }

  lemma {:induction false} EncodeMoreEntries(entries: seq<Entry>, i: nat)
    requires EntriesWritable(entries) && i < |entries|
    ensures EncodeEntries(entries[..i + 1]) == EncodeEntries(entries[..i]) + EncodeEntry(entries[i])
    decreases i
  {
    if i == 0 {
      assert entries[..1] == [entries[0]];
      NoneAdded(EncodeEntry(entries[0]));
    } else {
      var tail := entries[1..];
      EncodeMoreEntries(tail, i - 1);
      assert entries[..i + 1][1..] == tail[..i] && entries[..i][1..] == tail[..i - 1];
      Assoc(EncodeEntry(entries[0]), EncodeEntries(tail[..i - 1]), EncodeEntry(entries[i]));
    }
  }

  lemma {:induction false} EncodeMoreItems(items: seq<Value>, i: nat)
    requires Writable(StrictArray(items)) && i < |items|
    ensures EncodeItems(items[..i + 1]) == EncodeItems(items[..i]) + Encode(items[i])
    decreases i
  {
    if i == 0 {
      assert items[..1] == [items[0]];
      NoneAdded(Encode(items[0]));
    } else {
      var tail := items[1..];
      EncodeMoreItems(tail, i - 1);
      assert items[..i + 1][1..] == tail[..i] && items[..i][1..] == tail[..i - 1];
      Assoc(Encode(items[0]), EncodeItems(tail[..i - 1]), Encode(items[i]));
    }
  }

  /** The growing output buffer that every writer appends to. */
  class Writer {
    var out: Bytes

    constructor ()
      ensures out == []
    {
      out := [];
    }

    method Append(bytes: Bytes)
      modifies this
      ensures out == old(out) + bytes
    {
      out := out + bytes;
    }

    method WriteKey(key: Bytes)
      requires KeyFits(key)
      modifies this
      ensures out == old(out) + EncodeKey(key)
    {
      out := out + BigEndian(|key|, 2);
      Assoc(old(out), BigEndian(|key|, 2), key);
      out := out + key;
    }

    method WriteValue(v: Value)
      requires Writable(v)
      modifies this
      ensures out == old(out) + Encode(v)
      decreases v, 0
    {
      ghost var before := out;
      match v
      case Number(bits) =>
        out := out + [0x00];
        Append(BigEndian(bits, 8));
      case Boolean(on) =>
        out := out + [0x01, if on then 1 else 0];
      case Text(text) =>
        out := out + [0x02];
        WriteKey(text);
        Assoc(before, [0x02], EncodeKey(text));
      case Object(entries) =>
        out := out + [0x03];
        WriteEntries(entries);
        Append(OBJECT_END);
        Assoc(before, [0x03], EncodeEntries(entries));
        Assoc(before, [0x03] + EncodeEntries(entries), OBJECT_END);
      case Null =>
        out := out + [0x05];
      case Undefined =>
        out := out + [0x06];
      case EcmaArray(entries) =>
        out := out + [0x08] + BigEndian(|entries|, 4);
        WriteEntries(entries);
        Append(OBJECT_END);
        EcmaPieces(before, entries);
      case StrictArray(items) =>
        out := out + [0x0A] + BigEndian(|items|, 4);
        WriteItems(items);
        Assoc(before, [0x0A], BigEndian(|items|, 4));
        Assoc(before, [0x0A] + BigEndian(|items|, 4), EncodeItems(items));
    }

    static lemma EcmaPieces(before: Bytes, entries: seq<Entry>)
      requires EntriesWritable(entries)
      ensures before + [0x08] + BigEndian(|entries|, 4) + EncodeEntries(entries) + OBJECT_END ==
                before + Encode(EcmaArray(entries))
    {
      var count, es := BigEndian(|entries|, 4), EncodeEntries(entries);
      Assoc(before, [0x08], count);
      Assoc(before, [0x08] + count, es);
      Assoc(before, [0x08] + count + es, OBJECT_END);
    }

    method WriteEntries(entries: seq<Entry>)
      requires EntriesWritable(entries)
      modifies this
      ensures out == old(out) + EncodeEntries(entries)
      decreases entries, 0
    {
      NoneAdded(out);
      for i := 0 to |entries|
        invariant out == old(out) + EncodeEntries(entries[..i])
      {
        ghost var before, front := out, EncodeEntries(entries[..i]);
        WriteKey(entries[i].key);
        WriteValue(entries[i].value);
        Assoc(before, EncodeKey(entries[i].key), Encode(entries[i].value));
        Assoc(old(out), front, EncodeEntry(entries[i]));
        EncodeMoreEntries(entries, i);
      }
      assert entries[..|entries|] == entries;
    }

    method WriteItems(items: seq<Value>)
      requires Writable(StrictArray(items))
      modifies this
      ensures out == old(out) + EncodeItems(items)
      decreases items, 0
    {
      NoneAdded(out);
      for i := 0 to |items|
        invariant out == old(out) + EncodeItems(items[..i])
      {
        ghost var front := EncodeItems(items[..i]);
        WriteValue(items[i]);
        Assoc(old(out), front, Encode(items[i]));
        EncodeMoreItems(items, i);
      }
      assert items[..|items|] == items;
    }
  }
}
