/** Little-endian fixed-width integers. */
module Bytes {
  import opened Numeric

  const TWO_TO_63: int := 0x8000_0000_0000_0000
  const TWO_TO_64: int := 0x1_0000_0000_0000_0000

  function Power256(n: nat): (p: nat)
    ensures 0 < p
  {
    if n == 0 then 1 else 256 * Power256(n - 1)
  }

  /** The `n` low bytes of `x`, least significant first. */
  function ToLE(x: nat, n: nat): (b: seq<byte>)
    ensures |b| == n
  {
    if n == 0 then [] else [x % 256] + ToLE(x / 256, n - 1)
  }

  function FromLE(b: seq<byte>): (x: nat)
    ensures x < Power256(|b|)
  {
    if b == [] then 0 else b[0] + 256 * FromLE(b[1..])
  }

  lemma {:induction false} FromToLE(x: nat, n: nat)
    requires x < Power256(n)
    ensures FromLE(ToLE(x, n)) == x
  {
    if n > 0 {
      assert ToLE(x, n)[1..] == ToLE(x / 256, n - 1);
      FromToLE(x / 256, n - 1);
    }
  }

  lemma {:induction false} ToFromLE(b: seq<byte>)
    ensures ToLE(FromLE(b), |b|) == b
  {
    if b != [] {
      assert FromLE(b) % 256 == b[0] && FromLE(b) / 256 == FromLE(b[1..]);
      ToFromLE(b[1..]);
    }
  }

  lemma Power256Of8()
    ensures Power256(8) == TWO_TO_64
  {
  }

  function EncodeU64(x: u64): (b: seq<byte>)
    ensures |b| == 8
  {
    ToLE(x, 8)
  }

  function DecodeU64(b: seq<byte>): (x: u64)
    requires |b| == 8
    ensures EncodeU64(x) == b
  {
    Power256Of8();
    ToFromLE(b);
    FromLE(b)
  }

  /** Two's complement. */
  function EncodeI64(x: i64): (b: seq<byte>)
    ensures |b| == 8
  {
    ToLE(if x < 0 then x + TWO_TO_64 else x, 8)
  }

  function DecodeI64(b: seq<byte>): (x: i64)
    requires |b| == 8
    ensures EncodeI64(x) == b
  {
    Power256Of8();
    ToFromLE(b);
    if FromLE(b) >= TWO_TO_63 then FromLE(b) - TWO_TO_64 else FromLE(b)
  }

  lemma U64RoundTrip(x: u64)
    ensures DecodeU64(EncodeU64(x)) == x
  {
    Power256Of8();
    FromToLE(x, 8);
  }

  lemma I64RoundTrip(x: i64)
    ensures DecodeI64(EncodeI64(x)) == x
  {
    Power256Of8();
    FromToLE(if x < 0 then x + TWO_TO_64 else x, 8);
  }

  /** Reading the first piece of what is left, and what is left after it. */
  lemma Peel(data: seq<byte>, at: nat, piece: seq<byte>, rest: seq<byte>)
    requires at <= |data| && data[at..] == piece + rest
    ensures at + |piece| <= |data|
    ensures data[at..at + |piece|] == piece && data[at + |piece|..] == rest
  {
  }

  /** The value of eight bytes, least significant first. */
  function Valued(b: seq<byte>): (x: nat)
    requires |b| == 8
  {
    (b[0] as int) + 0x100 * (b[1] as int) + 0x1_0000 * (b[2] as int) + 0x100_0000 * (b[3] as int)
    + 0x1_0000_0000 * (b[4] as int) + 0x100_0000_0000 * (b[5] as int)
    + 0x1_0000_0000_0000 * (b[6] as int) + 0x100_0000_0000_0000 * (b[7] as int)
  }

  lemma EightBytes(b: seq<byte>)
    requires |b| == 8
    ensures FromLE(b) == Valued(b)
  {
    var b1 := b[1..];
    var b2 := b1[1..];
    var b3 := b2[1..];
    var b4 := b3[1..];
    var b5 := b4[1..];
    var b6 := b5[1..];
    var b7 := b6[1..];
    assert FromLE(b7) == b[7];
    assert FromLE(b6) == b[6] + 256 * FromLE(b7);
    assert FromLE(b5) == b[5] + 256 * FromLE(b6) && FromLE(b4) == b[4] + 256 * FromLE(b5);
    assert FromLE(b3) == b[3] + 256 * FromLE(b4) && FromLE(b2) == b[2] + 256 * FromLE(b3);
    assert FromLE(b1) == b[1] + 256 * FromLE(b2) && FromLE(b) == b[0] + 256 * FromLE(b1);
    hide FromLE;
  }

  /** Which byte is which: the first is the least significant, and a negative number is stored as itself plus
      two to the 64th. */
  lemma ByteOrder(x: u64, y: i64)
    ensures Valued(EncodeU64(x)) == x
    ensures Valued(EncodeI64(y)) == if y < 0 then y + 0x1_0000_0000_0000_0000 else y
  {
    Power256Of8();
    FromToLE(x, 8);
    FromToLE(if y < 0 then y + TWO_TO_64 else y, 8);
    EightBytes(EncodeU64(x));
    EightBytes(EncodeI64(y));
    hide Valued, FromLE, ToLE;
  }
}
