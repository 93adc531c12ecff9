/** Memory as the C++ code sees it: bytes, the integer codec of mq_util
    (network byte order), the host layout of an int inside a struct that is
    copied with memcpy (x86, little endian), and NUL-terminated names. */
module Bytes {

  type byte = x: int | 0 <= x < 256

  const INT_MIN := -0x8000_0000
  const INT_MAX := 0x7fff_ffff

  predicate IsInt(v: int) {
    INT_MIN <= v <= INT_MAX
  }

  predicate IsShort(v: int) {
    -0x8000 <= v < 0x8000
  }

  // ---------------------------------------------------------------- shorts

  /** WriteShort: both overloads store the two low bytes, high byte first. */
  function EncodeShort(v: int): (b: seq<byte>)
    ensures |b| == 2
  {
    var u := v % 0x1_0000;
    [u / 0x100, u % 0x100]
  }

  /** ReadShort into an unsigned short. */
  function DecodeShort(b: seq<byte>): (v: int)
    requires |b| == 2
    ensures 0 <= v < 0x1_0000
  {
    var hi: int, lo: int := b[0], b[1];
    hi * 0x100 + lo
  }

  /** ReadShort into a short. */
  function DecodeSignedShort(b: seq<byte>): (v: int)
    requires |b| == 2
    ensures IsShort(v)
  {
    var u := DecodeShort(b);
    if u < 0x8000 then u else u - 0x1_0000
  }

  lemma ShortRoundTrip(v: int)
    ensures 0 <= v < 0x1_0000 ==> DecodeShort(EncodeShort(v)) == v
    ensures IsShort(v) ==> DecodeSignedShort(EncodeShort(v)) == v
  {
  }

  // ------------------------------------------------------------------ ints

  /** The 32-bit two's complement pattern of v, high byte first (WriteInt). */
  function EncodeInt(v: int): (b: seq<byte>)
    ensures |b| == 4
  {
    var u := v % 0x1_0000_0000;
    EncodeShort(u / 0x1_0000) + EncodeShort(u % 0x1_0000)
  }

  /** ReadInt. */
  function DecodeInt(b: seq<byte>): (v: int)
    requires |b| == 4
    ensures IsInt(v)
  {
    var u := DecodeShort(b[..2]) * 0x1_0000 + DecodeShort(b[2..]);
    if u < 0x8000_0000 then u else u - 0x1_0000_0000
  }

  lemma IntRoundTrip(v: int)
    requires IsInt(v)
    ensures DecodeInt(EncodeInt(v)) == v
  {
    var u := v % 0x1_0000_0000;
    ShortRoundTrip(u / 0x1_0000);
    ShortRoundTrip(u % 0x1_0000);
    assert EncodeInt(v)[..2] == EncodeShort(u / 0x1_0000);
    assert EncodeInt(v)[2..] == EncodeShort(u % 0x1_0000);
  }

  /** An int inside a struct, as memcpy moves it on a little-endian host. */
  function StoreInt(v: int): (b: seq<byte>)
    ensures |b| == 4
  {
    var e := EncodeInt(v);
    [e[3], e[2], e[1], e[0]]
  }

  function LoadInt(b: seq<byte>): (v: int)
    requires |b| == 4
    ensures IsInt(v)
  {
    DecodeInt([b[3], b[2], b[1], b[0]])
  }

  lemma StoreLoad(v: int)
    requires IsInt(v)
    ensures LoadInt(StoreInt(v)) == v
  {
    var b := StoreInt(v);
    assert [b[3], b[2], b[1], b[0]] == EncodeInt(v);
    IntRoundTrip(v);
  }

  // ---------------------------------------------------------------- copies

  /** memcpy(m + at, bytes, |bytes|). */
  function Splice(m: seq<byte>, at: nat, bytes: seq<byte>): (r: seq<byte>)
    requires at + |bytes| <= |m|
    ensures |r| == |m|
  {
    m[..at] + bytes + m[at + |bytes|..]
  }

  /** memset(buffer, 0, n). */
  function Zeros(n: nat): (z: seq<byte>)
    ensures |z| == n
  {
    seq(n, _ => 0)
  }

  // ------------------------------------------------------------- C strings

  /** What std::string(p) reads: the bytes before the first NUL, or all of
      them when there is none in reach. */
  function CString(b: seq<byte>): (s: seq<byte>)
    ensures s <= b
    ensures 0 !in s
    ensures |s| < |b| ==> b[|s|] == 0
  {
    if b == [] || b[0] == 0 then [] else [b[0]] + CString(b[1..])
  }

  /** A name or body without NUL is read back exactly when a NUL, or the end
      of the field, follows it. */
  lemma {:induction false} CStringReadsBack(s: seq<byte>, tail: seq<byte>)
    requires 0 !in s
    ensures CString(s + tail) == s <==> tail == [] || tail[0] == 0
    ensures s <= CString(s + tail)
  {
    if s == [] {
      assert s + tail == tail;
    } else {
      assert (s + tail)[1..] == s[1..] + tail;
      CStringReadsBack(s[1..], tail);
      assert s == [s[0]] + s[1..];
    }
  }
}
