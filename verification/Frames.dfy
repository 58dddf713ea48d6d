/** The client frame codec of section 5.2 of RFC 6455. */
module Frames {
  import opened Bytes

  const OP_CONTINUATION: byte := 0x0
  const OP_TEXT: byte := 0x1
  const OP_BINARY: byte := 0x2
  const OP_CLOSE: byte := 0x8
  const OP_PING: byte := 0x9
  const OP_PONG: byte := 0xA

  const TWO_64: nat := 0x1_0000_0000_0000_0000
  const TWO_63: nat := 0x8000_0000_0000_0000

  datatype Frame = Frame(fin: bool, opcode: byte, payload: seq<byte>)

  /** A frame, the mask it came under and the bytes after it; a refusal with its close code;
      or an end of input inside the frame. */
  datatype Parsed =
    | Parsed(frame: Frame, mask: seq<byte>, rest: seq<byte>)
    | Refused(code: nat, reason: string)
    | Truncated

  predicate KnownOpcode(op: byte) {
    !((op >= 0x3 && op <= 0x7) || op >= 0xB)
  }

  predicate Control(op: byte) {
    op >= OP_CLOSE
  }

  /** Frames a client may send under a size limit. */
  predicate Legal(f: Frame, max: int) {
    && KnownOpcode(f.opcode)
    && (Control(f.opcode) ==> f.fin && |f.payload| <= 125)
    && 0 < max && |f.payload| <= max && |f.payload| < TWO_63
  }

  // ---------------------------------------------------------- canonical form

  /** The seven-bit length field. */
  function ShortLength(n: nat): byte {
    if n < 126 then n as byte else if n <= 0xffff then 126 else 127
  }

  /** The extended length: none, two bytes or eight. */
  function ExtendedLength(n: nat): seq<byte> {
    if n < 126 then [] else if n <= 0xffff then ToBytes(n, 2) else ToBytes(n, 8)
  }

  function FirstByte(f: Frame): byte {
    (if f.fin then 0x80 else 0) | f.opcode
  }

  /** The one encoding of a frame under a mask: minimal length, masked payload. */
  function Encode(f: Frame, mask: seq<byte>): seq<byte>
    requires |mask| == 4
  {
    [FirstByte(f), 0x80 | ShortLength(|f.payload|)] + ExtendedLength(|f.payload|) + mask + Masked(f.payload, mask)
  }

  // ----------------------------------------------------------------- parsing

  datatype Length = Length(n: nat, used: nat) | BadLength(reason: string) | ShortInput

  /** The payload length that follows the two header bytes. */
  function ParseLength(short: byte, rest: seq<byte>): Length
    requires short < 0x80
  {
    if short == 126 then
      if |rest| < 2 then ShortInput
      else if BigEndian(rest[..2]) < 126 then BadLength("non-minimal payload length")
      else Length(BigEndian(rest[..2]), 2)
    else if short == 127 then
      if |rest| < 8 then ShortInput
      else if rest[0] & 0x80 != 0 then BadLength("invalid 64-bit payload length")
      else if BigEndian(rest[..8]) <= 0xffff then BadLength("non-minimal payload length")
      else Length(BigEndian(rest[..8]), 8)
    else Length(short as nat, 0)
  }

  function ParseBody(fin: bool, opcode: byte, n: nat, rest: seq<byte>, max: int): Parsed {
    if Control(opcode) && (!fin || n > 125) then Refused(1002, "invalid control frame")
    else if max <= 0 || n > max then Refused(1009, "message too large")
    else if |rest| < 4 + n then Truncated
    else Parsed(Frame(fin, opcode, Masked(rest[4..4 + n], rest[..4])), rest[..4], rest[4 + n..])
  }

  // The fields of the two header bytes.

  predicate Reserved(b: byte) {
    b & 0x70 != 0
  }

  predicate Fin(b: byte) {
    b & 0x80 != 0
  }

  function Opcode(b: byte): byte {
    b & 0x0f
  }

  predicate MaskBit(b: byte) {
    b & 0x80 != 0
  }

  function Short(b: byte): (r: byte)
    ensures r < 0x80
  {
    b & 0x7f
  }

  function Parse(input: seq<byte>, max: int): (p: Parsed)
    ensures p.Parsed? ==> |p.rest| + 6 <= |input|
  {
    if |input| < 2 then Truncated
    else if Reserved(input[0]) then Refused(1002, "RSV bits are not supported")
    else if !KnownOpcode(Opcode(input[0])) then Refused(1002, "reserved opcode")
    else if !MaskBit(input[1]) then Refused(1002, "client frame is not masked")
    else match ParseLength(Short(input[1]), input[2..])
      case ShortInput => Truncated
      case BadLength(reason) => Refused(1002, reason)
      case Length(n, used) => ParseBody(Fin(input[0]), Opcode(input[0]), n, input[2 + used..], max)
  }

  // --------------------------------------------------------------- exactness

  lemma LengthOfCanonical(n: nat, rest: seq<byte>)
    requires n < TWO_63
    ensures ShortLength(n) < 0x80
    ensures ParseLength(ShortLength(n), ExtendedLength(n) + rest) == Length(n, |ExtendedLength(n)|)
  {
    hide BigEndian, ToBytes, Pow256;
    var ext := ExtendedLength(n);
    Powers();
    if n < 126 {
      ShortByte(n);
    } else if n <= 0xffff {
      assert (ext + rest)[..2] == ext;
      BigEndianOfBytes(n, 2);
    } else {
      assert (ext + rest)[..8] == ext && (ext + rest)[0] == ext[0];
      BigEndianOfBytes(n, 8);
      TopByte(ext);
    }
  }

  lemma ShortByte(n: nat)
    requires n < 126
    ensures (n as byte) < 126 && (n as byte) as nat == n
  {
    ValueByte(n);
  }

  lemma CanonicalOfLength(short: byte, rest: seq<byte>)
    requires short < 0x80 && ParseLength(short, rest).Length?
    ensures var l := ParseLength(short, rest);
            && l.n < TWO_63 && short == ShortLength(l.n)
            && l.used <= |rest| && rest[..l.used] == ExtendedLength(l.n)
  {
    hide BigEndian, ToBytes, Pow256;
    Powers();
    if short == 126 {
      BytesOfBigEndian(rest[..2]);
      BigEndianBound(rest[..2]);
    } else if short == 127 {
      BytesOfBigEndian(rest[..8]);
      TopByte(rest[..8]);
    } else {
      SmallByte(short);
    }
  }

  lemma SmallByte(short: byte)
    requires short < 126
    ensures (short as nat) < 126 && (short as nat) as byte == short
  {
    ByteValue(short);
  }

  /** What the header bytes of an encoding decode to. */
  lemma HeaderOfFrame(f: Frame, short: byte)
    requires KnownOpcode(f.opcode) && short < 0x80
    ensures var b := FirstByte(f);
            !Reserved(b) && Opcode(b) == f.opcode && Fin(b) == f.fin
    ensures MaskBit(0x80 | short) && Short(0x80 | short) == short
  {
  }

  /** Header bytes that pass the checks are the header of what they decode to. */
  lemma FrameOfHeader(f: Frame, b: byte, c: byte)
    requires !Reserved(b) && MaskBit(c) && f.fin == Fin(b) && f.opcode == Opcode(b)
    ensures FirstByte(f) == b && 0x80 | Short(c) == c
  {
  }

  /** The parser past the header, length still encoded. */
  lemma ParseHeader(f: Frame, tail: seq<byte>, max: int)
    requires KnownOpcode(f.opcode) && |f.payload| < TWO_63
    ensures var n := |f.payload|;
            Parse([FirstByte(f), 0x80 | ShortLength(n)] + ExtendedLength(n) + tail, max)
            == ParseBody(f.fin, f.opcode, n, tail, max)
  {
    hide BigEndian, ToBytes, ParseBody, FirstByte, ShortLength, ExtendedLength, ParseLength, KnownOpcode, Reserved,
      Fin, Opcode, MaskBit, Short;
    var n := |f.payload|;
    var ext := ExtendedLength(n);
    LengthOfCanonical(n, tail);
    HeaderOfFrame(f, ShortLength(n));
    var input := [FirstByte(f), 0x80 | ShortLength(n)] + ext + tail;
    assert input[2..] == ext + tail;
    assert input[2 + |ext|..] == tail;
  }

  lemma ParseMasked(f: Frame, mask: seq<byte>, rest: seq<byte>, max: int)
    requires Legal(f, max) && |mask| == 4
    ensures ParseBody(f.fin, f.opcode, |f.payload|, mask + Masked(f.payload, mask) + rest, max)
            == Parsed(f, mask, rest)
  {
    hide Masked;
    var n := |f.payload|;
    var body := mask + Masked(f.payload, mask) + rest;
    assert body[..4] == mask && body[4..4 + n] == Masked(f.payload, mask) && body[4 + n..] == rest;
    MaskedTwice(f.payload, mask);
  }

  /** Decoding an encoding: every legal frame comes back under any mask, and what follows
      it is left unread. */
  lemma ParseEncode(f: Frame, mask: seq<byte>, rest: seq<byte>, max: int)
    requires Legal(f, max) && |mask| == 4
    ensures Parse(Encode(f, mask) + rest, max) == Parsed(f, mask, rest)
  {
    hide Parse, ParseBody, Masked, FirstByte, ShortLength, ExtendedLength;
    var n := |f.payload|;
    var header := [FirstByte(f), 0x80 | ShortLength(n)] + ExtendedLength(n);
    var body := mask + Masked(f.payload, mask) + rest;
    assert Encode(f, mask) + rest == header + body;
    ParseHeader(f, body, max);
    ParseMasked(f, mask, rest, max);
  }

  /** Encoding a decoding: whatever is accepted is the canonical encoding, under its own
      mask, of the legal frame that is returned. */
  lemma ParseSound(input: seq<byte>, max: int)
    requires Parse(input, max).Parsed?
    ensures var p := Parse(input, max);
            Legal(p.frame, max) && |p.mask| == 4 && input == Encode(p.frame, p.mask) + p.rest
  {
    hide BigEndian, ToBytes, Masked, ParseLength, ParseBody, FirstByte, ShortLength, ExtendedLength, KnownOpcode,
      Legal, Encode, Reserved, Fin, Opcode, MaskBit, Short;
    var b, c := input[0], input[1];
    CanonicalOfLength(Short(c), input[2..]);
    var l := ParseLength(Short(c), input[2..]);
    var tail := input[2 + l.used..];
    BodySound(Fin(b), Opcode(b), l.n, tail, max);
    var p := Parse(input, max);
    FrameOfHeader(p.frame, b, c);
    assert input == [b, c] + input[2..][..l.used] + tail;
    EncodeParts(p.frame, p.mask, p.rest, tail);
  }

  lemma EncodeParts(f: Frame, mask: seq<byte>, rest: seq<byte>, tail: seq<byte>)
    requires |mask| == 4 && tail == mask + Masked(f.payload, mask) + rest
    ensures Encode(f, mask) + rest
            == [FirstByte(f), 0x80 | ShortLength(|f.payload|)] + ExtendedLength(|f.payload|) + tail
  {
    hide Masked, FirstByte, ShortLength, ExtendedLength;
  }

  lemma BodySound(fin: bool, opcode: byte, n: nat, tail: seq<byte>, max: int)
    requires ParseBody(fin, opcode, n, tail, max).Parsed? && KnownOpcode(opcode) && n < TWO_63
    ensures var p := ParseBody(fin, opcode, n, tail, max);
            && p.frame.fin == fin && p.frame.opcode == opcode && |p.frame.payload| == n
            && Legal(p.frame, max) && |p.mask| == 4
            && tail == p.mask + Masked(p.frame.payload, p.mask) + p.rest
  {
    hide Masked, KnownOpcode;
    MaskedTwice(tail[4..4 + n], tail[..4]);
    assert tail == tail[..4] + tail[4..4 + n] + tail[4 + n..];
  }

  /** The accepted inputs are exactly the encodings of legal frames. */
  lemma ParseExact(input: seq<byte>, max: int)
    ensures Parse(input, max).Parsed? <==>
            exists f, mask, rest :: Legal(f, max) && |mask| == 4 && input == Encode(f, mask) + rest
  {
    if Parse(input, max).Parsed? {
      ParseSound(input, max);
      var p := Parse(input, max);
      assert Legal(p.frame, max) && |p.mask| == 4 && input == Encode(p.frame, p.mask) + p.rest;
    }
    forall f, mask, rest | Legal(f, max) && |mask| == 4 && input == Encode(f, mask) + rest
        ensures Parse(input, max).Parsed? {
      ParseEncode(f, mask, rest, max);
    }
  }

  /** No input starts with two encodings. */
  lemma EncodeUnambiguous(f: Frame, mask: seq<byte>, rest: seq<byte>, g: Frame, mask2: seq<byte>, rest2: seq<byte>,
                          max: int)
    requires Legal(f, max) && Legal(g, max) && |mask| == |mask2| == 4
    requires Encode(f, mask) + rest == Encode(g, mask2) + rest2
    ensures f == g && mask == mask2 && rest == rest2
  {
    ParseEncode(f, mask, rest, max);
    ParseEncode(g, mask2, rest2, max);
  }

  /** A frame that has not arrived completely is never refused: the reader waits for more. */
  lemma PrefixTruncated(f: Frame, mask: seq<byte>, k: nat, max: int)
    requires Legal(f, max) && |mask| == 4 && k < |Encode(f, mask)|
    ensures Parse(Encode(f, mask)[..k], max) == Truncated
  {
    hide Parse, ParseBody, Masked, FirstByte, ShortLength, ExtendedLength;
    var n := |f.payload|;
    var header := [FirstByte(f), 0x80 | ShortLength(n)] + ExtendedLength(n);
    var body := mask + Masked(f.payload, mask);
    assert Encode(f, mask) == header + body;
    if k >= |header| {
      assert Encode(f, mask)[..k] == header + body[..k - |header|];
      ParseHeader(f, body[..k - |header|], max);
      BodyTruncated(f, body[..k - |header|], max);
    } else {
      assert Encode(f, mask)[..k] == header[..k];
      HeaderTruncated(f, k, max);
    }
  }

  lemma BodyTruncated(f: Frame, tail: seq<byte>, max: int)
    requires Legal(f, max) && |tail| < 4 + |f.payload|
    ensures ParseBody(f.fin, f.opcode, |f.payload|, tail, max) == Truncated
  {
  }

  lemma HeaderTruncated(f: Frame, k: nat, max: int)
    requires KnownOpcode(f.opcode) && k < 2 + |ExtendedLength(|f.payload|)|
    ensures Parse(([FirstByte(f), 0x80 | ShortLength(|f.payload|)] + ExtendedLength(|f.payload|))[..k], max)
        == Truncated
  {
    hide FirstByte, KnownOpcode, ToBytes, BigEndian, Reserved, Fin, Opcode, MaskBit, Short;
    var n := |f.payload|;
    if k >= 2 {
      assert n >= 126;
      HeaderOfFrame(f, ShortLength(n));
    }
  }
}
