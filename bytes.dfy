/** Fixed-width JVM integers and the byte-level helpers shared by the RTP
    packetizers and the NAL scanner.  Bytes are the unsigned view (0..255)
    of Kotlin's signed `Byte`: the code only compares them with 0 and 1 and
    masks them, and both agree on the unsigned view. */
module Bytes {

  type byte = b: int | 0 <= b < 0x100
  type uint16 = x: int | 0 <= x < 0x1_0000
  type int32 = x: int | -0x8000_0000 <= x < 0x8000_0000
  type int64 = x: int | -0x8000_0000_0000_0000 <= x < 0x8000_0000_0000_0000

  const TwoTo16: int := 0x1_0000
  const TwoTo32: int := 0x1_0000_0000
  const TwoTo64: int := 0x1_0000_0000_0000_0000

  function Abs(x: int): nat { if x < 0 then -x else x }

  function Min(a: int, b: int): int { if a <= b then a else b }

  function Max(a: int, b: int): int { if a <= b then b else a }

  /** Kotlin `Int` arithmetic: the two's-complement value of the low 32 bits. */
  function Int32(x: int): (r: int32)
    ensures (r - x) % TwoTo32 == 0
    ensures -0x8000_0000 <= x < 0x8000_0000 ==> r == x
  {
    (x + 0x8000_0000) % TwoTo32 - 0x8000_0000
  }

  /** Kotlin `Long` arithmetic: the two's-complement value of the low 64 bits. */
  function Long(x: int): (r: int64)
    ensures (r - x) % TwoTo64 == 0
    ensures -0x8000_0000_0000_0000 <= x < 0x8000_0000_0000_0000 ==> r == x
  {
    (x + 0x8000_0000_0000_0000) % TwoTo64 - 0x8000_0000_0000_0000
  }

  /** JVM integer division, which rounds toward zero (Dafny's `/` is Euclidean). */
  function TruncDiv(a: int, b: int): (q: int)
    requires b != 0
    ensures a >= 0 && b > 0 ==> q == a / b
    ensures a < 0 && b > 0 ==> q == -((-a) / b)
    ensures b > 0 ==> Abs(q) <= Abs(a)
  {
    var m := Abs(a) / Abs(b);
    DivShrinks(Abs(a), Abs(b));
    if (a < 0) == (b < 0) then m else -m
  }

  lemma DivShrinks(x: nat, y: nat)
    requires y >= 1
    ensures x / y <= x
  {
    if y > 1 {
      var q := x / y;
      assert q * y <= x;
      MulGrows(q, y);
    }
  }

  lemma MulGrows(q: nat, y: nat)
    requires y >= 1
    ensures q <= q * y
  {
    if y > 1 {
      MulGrows(q, y - 1);
      assert q * y == q * (y - 1) + q;
    }
  }

  lemma MulMonotonic(a: int, b: int, c: nat)
    requires 0 <= a <= b
    ensures 0 <= a * c <= b * c
  {
  }

  /** `b & 0x1F`: the five low bits (the H.264 NAL unit type). */
  function Low5(b: byte): (r: byte)
    ensures r < 32 && (b - r) % 32 == 0
  {
    (b as int) % 32
  }

  /** `b & 0x60`: bits 5 and 6 (the H.264 NRI field, in place). */
  function Nri(b: byte): (r: byte)
    ensures r % 32 == 0 && r < 128 && 0 <= b % 128 - r < 32
  {
    (b as int) / 32 % 4 * 32
  }

  /** `b & 0x7F`: the byte with its top bit cleared. */
  function Low7(b: byte): (r: byte)
    ensures r < 128 && (b - r) % 128 == 0
  {
    (b as int) % 128
  }

  /** `(b & 0x80) != 0`: the top bit. */
  predicate TopBit(b: byte)
  {
    b >= 0x80
  }

  /** `(b & 0x40) != 0`: the second-highest bit. */
  predicate Bit6(b: byte)
  {
    b % 0x80 >= 0x40
  }

  /** `ByteBuffer.putShort(v.toShort())`: the low 16 bits of `v`, big-endian. */
  function PutShort(v: int): (r: seq<byte>)
    ensures |r| == 2
    ensures GetShort(r) == v % TwoTo16
  {
    var u := v % TwoTo16;
    [u / 0x100, u % 0x100]
  }

  /** `ByteBuffer.putInt(v.toInt())`: the low 32 bits of `v`, big-endian,
      that is the high and then the low 16-bit half. */
  function PutInt(v: int): (r: seq<byte>)
    ensures |r| == 4
    ensures GetInt(r) == v % TwoTo32
  {
    var u := v % TwoTo32;
    var r := PutShort(u / TwoTo16) + PutShort(u % TwoTo16);
    assert r[..2] == PutShort(u / TwoTo16) && r[2..] == PutShort(u % TwoTo16);
    GetIntHalves(r);
    r
  }

  /** Reads an unsigned big-endian 16-bit number. */
  function GetShort(s: seq<byte>): (v: uint16)
    requires |s| == 2
  {
    (s[0] as int) * 0x100 + s[1]
  }

  /** Reads an unsigned big-endian 32-bit number. */
  function GetInt(s: seq<byte>): (v: int)
    requires |s| == 4
    ensures 0 <= v < TwoTo32
  {
    (((s[0] as int) * 0x100 + s[1]) * 0x100 + s[2]) * 0x100 + s[3]
  }

  /** A 32-bit number is its high half times 65536 plus its low half. */
  lemma GetIntHalves(s: seq<byte>)
    requires |s| == 4
    ensures GetInt(s) == GetShort(s[..2]) * TwoTo16 + GetShort(s[2..])
  {
  }

  /** Incrementing a 16-bit counter and masking (`(n + 1) and 0xFFFF`)
      advances it by one modulo 65536. */
  lemma CounterStep(start: int, k: int)
    ensures ((start + k) % TwoTo16 + 1) % TwoTo16 == (start + k + 1) % TwoTo16
  {
  }

  /** The concatenation of a sequence of byte strings. */
  function Flatten(ss: seq<seq<byte>>): (r: seq<byte>)
  {
    if ss == [] then [] else ss[0] + Flatten(ss[1..])
  }

  lemma {:induction false} FlattenAppend(ss: seq<seq<byte>>, s: seq<byte>)
    ensures Flatten(ss + [s]) == Flatten(ss) + s
  {
    if ss == [] {
      assert ss + [s] == [s];
    } else {
      assert (ss + [s])[1..] == ss[1..] + [s];
      FlattenAppend(ss[1..], s);
    }
  }
}
