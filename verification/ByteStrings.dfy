/** Bytes, and unsigned numbers laid out most significant byte first. */
module ByteStrings {

  type Byte = b: int | 0 <= b < 256

  type Bytes = seq<Byte>

  const U16_SPAN: nat := 0x1_0000
  const U24_SPAN: nat := 0x100_0000
  const U32_SPAN: nat := 0x1_0000_0000
  const U64_SPAN: nat := 0x1_0000_0000_0000_0000

  type U32 = n: nat | n < U32_SPAN
  type U64 = n: nat | n < U64_SPAN

  /** How many numbers fit in `width` bytes. */
  function Span(width: nat): (n: nat)
    ensures n > 0
  {
    if width == 0 then 1 else 256 * Span(width - 1)
  }

  /** The low `width` bytes of `n`. */
  function BigEndian(n: nat, width: nat): (s: Bytes)
    ensures |s| == width
  {
    if width == 0 then [] else BigEndian(n / 256, width - 1) + [n % 256]
  }

  function Unsigned(s: Bytes): nat {
    if s == [] then 0 else 256 * Unsigned(s[..|s| - 1]) + s[|s| - 1]
  }

  lemma {:induction false} UnsignedOfBigEndian(n: nat, width: nat)
    requires n < Span(width)
    ensures Unsigned(BigEndian(n, width)) == n
  {
    if width > 0 {
      UnsignedOfBigEndian(n / 256, width - 1);
      assert BigEndian(n, width)[..width - 1] == BigEndian(n / 256, width - 1);
    }
  }

  lemma {:induction false} BigEndianOfUnsigned(s: Bytes)
    ensures Unsigned(s) < Span(|s|)
    ensures BigEndian(Unsigned(s), |s|) == s
  {
    if s != [] {
      BigEndianOfUnsigned(s[..|s| - 1]);
      assert s == s[..|s| - 1] + [s[|s| - 1]];
    }
  }

  lemma Spans()
    ensures Span(1) == 256 && Span(2) == U16_SPAN && Span(3) == U24_SPAN && Span(4) == U32_SPAN && Span(8) == U64_SPAN
  {
    assert Span(4) == 256 * Span(3);
    assert Span(6) == 256 * (256 * Span(4));
  }

  predicate StartsWith(s: Bytes, prefix: Bytes) {
    |s| >= |prefix| && s[..|prefix|] == prefix
  }
}
