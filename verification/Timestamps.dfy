/** Rebasing of media timestamps onto a continuous clock that starts at zero with each file. */
module Timestamps {
  import opened ByteStrings
  import opened FlvFormat

  const JUMP_THRESHOLD_MS: int := 500
  const MAX_U32: nat := 0xFFFF_FFFF

  function FallbackDelta(kind: TagType): nat {
    match kind
    case Audio => 22
    case Video => 33
    case ScriptData => 0
  }

  /** The rebaser's state: the offset to subtract, the last input and the largest output so far. */
  datatype Clock = Clock(initialized: bool, offset: int, lastOriginal: U32, lastOutput: U32) {
    predicate Jumps(original: U32) {
      !(-JUMP_THRESHOLD_MS <= original - lastOriginal <= JUMP_THRESHOLD_MS)
    }

    /** Where a jump lands. */
    function Target(kind: TagType): (t: U32) {
      if lastOutput + FallbackDelta(kind) > MAX_U32 then MAX_U32 else lastOutput + FallbackDelta(kind)
    }

    function OffsetAfter(kind: TagType, original: U32): int {
      if !initialized then original
      else
        var rebased := if Jumps(original) then original - Target(kind) else offset;
        if original - rebased < 0 then original else rebased
    }

    function Output(kind: TagType, original: U32): (output: U32) {
      var output := original - OffsetAfter(kind, original);
      if output > MAX_U32 then MAX_U32 else output
    }

    function Next(kind: TagType, original: U32): Clock {
      var output := Output(kind, original);
      Clock(true, OffsetAfter(kind, original), original, if initialized && lastOutput > output then lastOutput
          else output)
    }
  }

  const FRESH: Clock := Clock(false, 0, 0, 0)

  /** One media tag as the clock sees it. */
  datatype Stamp = Stamp(kind: TagType, original: U32)

  function After(c: Clock, stamps: seq<Stamp>): Clock {
    if stamps == [] then c
    else
      var last := stamps[|stamps| - 1];
      After(c, stamps[..|stamps| - 1]).Next(last.kind, last.original)
  }

  /** The timestamps written for a run of tags. */
  function Outputs(c: Clock, stamps: seq<Stamp>): (outputs: seq<U32>)
    ensures |outputs| == |stamps|
  {
    if stamps == [] then []
    else
      var last := stamps[|stamps| - 1];
      Outputs(c, stamps[..|stamps| - 1]) + [After(c, stamps[..|stamps| - 1]).Output(last.kind, last.original)]
  }

  function Max(outputs: seq<U32>): nat {
    if outputs == [] then 0
    else
      var earlier, last := Max(outputs[..|outputs| - 1]), outputs[|outputs| - 1];
      if last > earlier then last else earlier
  }

  lemma {:induction false} MaxBounds(outputs: seq<U32>)
    ensures forall i | 0 <= i < |outputs| :: outputs[i] <= Max(outputs)
  {
    if outputs != [] {
      MaxBounds(outputs[..|outputs| - 1]);
      forall i | 0 <= i < |outputs| ensures outputs[i] <= Max(outputs) {
        assert i < |outputs| - 1 ==> outputs[i] == outputs[..|outputs| - 1][i];
      }
    }
  }

  /** What every reachable state keeps: the largest output is remembered and the offset explains the last one. */
  ghost predicate ClockOk(c: Clock, outputs: seq<U32>) {
    && c.lastOutput == Max(outputs)
    && c.initialized == (outputs != [])
    && -(U32_SPAN as int) < c.offset < U32_SPAN
    && (c.initialized ==>
          && c.lastOriginal >= c.offset
          && outputs[|outputs| - 1] == if c.lastOriginal - c.offset > MAX_U32 then MAX_U32
              else c.lastOriginal - c.offset)
  }

  lemma {:induction false} ReachableClock(stamps: seq<Stamp>)
    ensures ClockOk(After(FRESH, stamps), Outputs(FRESH, stamps))
  {
    if stamps != [] {
      var earlier := stamps[..|stamps| - 1];
      ReachableClock(earlier);
      ClockStep(After(FRESH, earlier), Outputs(FRESH, earlier), stamps[|stamps| - 1]);
    }
  }

  lemma ClockStep(c: Clock, outputs: seq<U32>, s: Stamp)
    requires ClockOk(c, outputs)
    ensures ClockOk(c.Next(s.kind, s.original), outputs + [c.Output(s.kind, s.original)])
  {
    var all := outputs + [c.Output(s.kind, s.original)];
    assert all[..|all| - 1] == outputs;
    if c.initialized {
      MaxBounds(outputs);
      assert outputs[|outputs| - 1] <= Max(outputs);
    }
  }

  lemma {:induction false} PrefixOutputs(c: Clock, stamps: seq<Stamp>, n: nat)
    requires n <= |stamps|
    ensures Outputs(c, stamps)[..n] == Outputs(c, stamps[..n])
    decreases |stamps|
  {
    if n < |stamps| {
      PrefixOutputs(c, stamps[..|stamps| - 1], n);
      assert stamps[..|stamps| - 1][..n] == stamps[..n];
    } else {
      assert stamps[..n] == stamps;
    }
  }

  /** The output of one tag, seen from the state its predecessors leave. */
  lemma OutputAt(stamps: seq<Stamp>, i: nat)
    requires i < |stamps|
    ensures Outputs(FRESH, stamps)[..i] == Outputs(FRESH, stamps[..i])
    ensures Outputs(FRESH, stamps)[i] == After(FRESH, stamps[..i]).Output(stamps[i].kind, stamps[i].original)
    ensures i > 0 ==> After(FRESH, stamps[..i]).lastOriginal == stamps[i - 1].original
  {
    PrefixOutputs(FRESH, stamps, i);
    PrefixOutputs(FRESH, stamps, i + 1);
    assert stamps[..i + 1][..i] == stamps[..i];
    assert Outputs(FRESH, stamps)[i] == Outputs(FRESH, stamps)[..i + 1][i];
  }

  function Clamp(t: int): (u: U32) {
    if t < 0 then 0 else if t > MAX_U32 then MAX_U32 else t
  }

  /**
    How one output follows from the last one and the latest: a gap of at most half a second is
    kept, short of the ends of the 32-bit range; a wider one lands one frame behind the latest.
   */
  predicate Lawful(last: U32, gap: int, latest: nat, kind: TagType, output: U32) {
    if -500 <= gap <= 500 then last < MAX_U32 ==> output == Clamp(last + gap)
    else output == Clamp(latest + match kind case Video => 33 case Audio => 22 case ScriptData => 0)
  }

  lemma StateLaw(c: Clock, outputs: seq<U32>, s: Stamp)
    requires ClockOk(c, outputs) && outputs != []
    ensures Lawful(outputs[|outputs| - 1], s.original - c.lastOriginal, Max(outputs), s.kind,
            c.Output(s.kind, s.original))
  {
  }

  /** Every step of every run is lawful, and the first tag of a file is at zero. */
  lemma StepLaw(stamps: seq<Stamp>, i: nat)
    requires i < |stamps|
    ensures i == 0 ==> Outputs(FRESH, stamps)[0] == 0
    ensures i > 0 ==>
              var outputs := Outputs(FRESH, stamps);
              Lawful(outputs[i - 1], stamps[i].original - stamps[i - 1].original, Max(outputs[..i]), stamps[i].kind,
                  outputs[i])
  {
    OutputAt(stamps, i);
    var c, earlier := After(FRESH, stamps[..i]), Outputs(FRESH, stamps[..i]);
    if i == 0 {
      assert c == FRESH;
    } else {
      ReachableClock(stamps[..i]);
      StateLaw(c, earlier, stamps[i]);
      assert earlier[i - 1] == Outputs(FRESH, stamps)[i - 1];
    }
  }

  /** No tag runs more than half a second ahead of every tag before it. */
  lemma StepBound(stamps: seq<Stamp>, i: nat)
    requires i < |stamps|
    ensures Outputs(FRESH, stamps)[i] <= Max(Outputs(FRESH, stamps)[..i]) + JUMP_THRESHOLD_MS
  {
    OutputAt(stamps, i);
    ReachableClock(stamps[..i]);
    MaxBounds(Outputs(FRESH, stamps[..i]));
  }

  /** So a file of n tags spans at most n - 1 half seconds. */
  lemma {:induction false} SpanBound(stamps: seq<Stamp>)
    requires stamps != []
    ensures Max(Outputs(FRESH, stamps)) <= JUMP_THRESHOLD_MS * (|stamps| - 1)
  {
    var earlier, outputs := stamps[..|stamps| - 1], Outputs(FRESH, stamps);
    StepBound(stamps, |stamps| - 1);
    PrefixOutputs(FRESH, stamps, |stamps| - 1);
    if earlier == [] {
      StepLaw(stamps, 0);
    } else {
      SpanBound(earlier);
    }
  }

  class TimestampNormalizer {
    var initialized: bool
    var currentOffset: int
    var lastOriginal: U32
    var lastOutput: U32

    ghost function State(): Clock
      reads this
    {
      Clock(initialized, currentOffset, lastOriginal, lastOutput)
    }

    constructor ()
      ensures State() == FRESH
    {
      initialized, currentOffset, lastOriginal, lastOutput := false, 0, 0, 0;
    }

    method Reset()
      modifies this
      ensures State() == FRESH
    {
      initialized, currentOffset, lastOriginal, lastOutput := false, 0, 0, 0;
    }

    method Normalize(tag: Tag) returns (r: Tag)
      modifies this
      ensures State() == old(State()).Next(tag.header.tagType, tag.header.timestamp)
      ensures r == tag.(header :=
                tag.header.(timestamp := old(State()).Output(tag.header.tagType, tag.header.timestamp)))
    {
      var original := tag.header.timestamp;
      if !initialized {
        initialized, currentOffset, lastOriginal, lastOutput := true, original, original, 0;
        return tag.(header := tag.header.(timestamp := 0));
      }
      var diff := original - lastOriginal;
      var output := original - currentOffset;
      if !(-JUMP_THRESHOLD_MS <= diff <= JUMP_THRESHOLD_MS) {
        var target := lastOutput + FallbackDelta(tag.header.tagType);
        if target > MAX_U32 {
          target := MAX_U32;
        }
        currentOffset := original - target;
        output := target;
      }
      if output < 0 {
        output, currentOffset := 0, original;
      }
      if output > MAX_U32 {
        output := MAX_U32;
      }
      lastOriginal := original;
      if output > lastOutput {
        lastOutput := output;
      }
      return tag.(header := tag.header.(timestamp := output));
    }
  }
}
