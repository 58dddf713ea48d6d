/** Bytes, big-endian numbers and masking. */
module Bytes {

  type byte = bv8

  lemma ByteValue(b: byte)
    ensures 0 <= b as int < 256 && (b as int) as byte == b
  {
  }

  /** Every number below 256 is the value of a byte. */
  function ByteOf(n: nat): (b: byte)
    requires n < 256
    ensures b as int == n
  {
    if n == 0 then 0 else ByteOf(n - 1) + 1
  }

  lemma ValueByte(n: nat)
    requires n < 256
    ensures (n as byte) as int == n
  {
    ByteValue(ByteOf(n));
  }

  function Pow256(k: nat): nat {
    if k == 0 then 1 else 256 * Pow256(k - 1)
  }

  function BigEndian(b: seq<byte>): nat {
    if b == [] then 0 else BigEndian(b[..|b| - 1]) * 256 + (b[|b| - 1] as int)
  }

  /** The conversion to eight bits, which keeps the low ones. */
  function Low(n: nat): byte {
    (n % 256) as byte
  }

  function ToBytes(n: nat, k: nat): (r: seq<byte>)
    ensures |r| == k
  {
    if k == 0 then [] else ToBytes(n / 256, k - 1) + [Low(n)]
  }

  lemma {:induction false} BigEndianBound(b: seq<byte>)
    ensures BigEndian(b) < Pow256(|b|)
  {
    if b != [] {
      BigEndianBound(b[..|b| - 1]);
      ByteValue(b[|b| - 1]);
    }
  }

  lemma {:induction false} BigEndianOfBytes(n: nat, k: nat)
    requires n < Pow256(k)
    ensures BigEndian(ToBytes(n, k)) == n
  {
    if k > 0 {
      BigEndianOfBytes(n / 256, k - 1);
      ValueByte(n % 256);
      assert ToBytes(n, k)[..k - 1] == ToBytes(n / 256, k - 1);
    }
  }

  lemma BigEndianLast(b: seq<byte>)
    requires b != []
    ensures BigEndian(b) / 256 == BigEndian(b[..|b| - 1]) && BigEndian(b) % 256 == b[|b| - 1] as int
  {
    ByteValue(b[|b| - 1]);
  }

  lemma ToBytesLast(n: nat, k: nat)
    requires k > 0
    ensures ToBytes(n, k) == ToBytes(n / 256, k - 1) + [Low(n)]
  {
  }

  lemma {:induction false} BytesOfBigEndian(b: seq<byte>)
    ensures ToBytes(BigEndian(b), |b|) == b
  {
    if b != [] {
      var init := b[..|b| - 1];
      BytesOfBigEndian(init);
      ByteValue(b[|b| - 1]);
      hide BigEndian, ToBytes;
      assert BigEndian(b) / 256 == BigEndian(init) && BigEndian(b) % 256 == b[|b| - 1] as int by { BigEndianLast(b); }
      assert ToBytes(BigEndian(b), |b|) == ToBytes(BigEndian(init), |init|) + [Low(BigEndian(b))]
          by { ToBytesLast(BigEndian(b), |b|); }
      assert b == init + [b[|b| - 1]];
    }
  }

  /** The top bit of the first byte tells whether the number reaches half of its range. */
  lemma {:induction false} TopByte(b: seq<byte>)
    requires b != []
    ensures BigEndian(b) < 128 * Pow256(|b| - 1) <==> b[0] & 0x80 == 0
  {
    var init := b[..|b| - 1];
    ByteValue(b[|b| - 1]);
    if init == [] {
      TopBit(b[0]);
    } else {
      TopByte(init);
    }
  }

  lemma TopBit(x: byte)
    ensures x & 0x80 == 0 <==> x as int < 128
  {
  }

  lemma Powers()
    ensures Pow256(2) == 0x1_0000 && Pow256(7) == 0x100_0000_0000_0000 && Pow256(8) == 0x1_0000_0000_0000_0000
  {
    assert Pow256(2) == 0x1_0000;
    assert Pow256(4) == 0x1_0000_0000;
    assert Pow256(6) == 0x1_0000_0000_0000;
  }

  /** Byte `i` is combined with byte `i` modulo 4 of the mask. */
  function Masked(payload: seq<byte>, mask: seq<byte>): (r: seq<byte>)
    requires |mask| == 4
    ensures |r| == |payload|
  {
    seq(|payload|, i requires 0 <= i < |payload| => payload[i] ^ mask[i % 4])
  }

  lemma MaskedTwice(payload: seq<byte>, mask: seq<byte>)
    requires |mask| == 4
    ensures Masked(Masked(payload, mask), mask) == payload
  {
  }
}
