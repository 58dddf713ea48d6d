/** The loops that read one client frame, proved against the codec. */
module FrameReader {
  import opened Bytes
  import opened Frames

  datatype ReadError = Protocol(code: nat, reason: string) | EndOfInput

  datatype ReadFrame = Read(frame: Frame) | Failed(error: ReadError)

  /** The byte stream of one connection. */
  class ByteReader {
    const data: seq<byte>
    var pos: nat

    ghost predicate Valid()
      reads this
    {
      pos <= |data|
    }

    ghost function Rest(): seq<byte>
      reads this
      requires Valid()
    {
      data[pos..]
    }

    constructor (input: seq<byte>)
      ensures Valid() && Rest() == input
    {
      data, pos := input, 0;
    }

    /** Fill the buffer, or consume what is left and fail. */
    method ReadFull(buffer: array<byte>) returns (ok: bool)
      requires Valid()
      modifies this, buffer
      ensures Valid() && ok == (buffer.Length <= |old(Rest())|)
      ensures ok ==> buffer[..] == old(Rest())[..buffer.Length] && Rest() == old(Rest())[buffer.Length..]
      ensures !ok ==> Rest() == []
    {
      var available := |data| - pos;
      ok := buffer.Length <= available;
      var count := if ok then buffer.Length else available;
      for i := 0 to count
        invariant forall k :: 0 <= k < i ==> buffer[k] == data[pos + k]
        modifies buffer
      {
        buffer[i] := data[pos + i];
      }
      assert ok ==> buffer[..] == data[pos..][..buffer.Length];
      pos := pos + count;
    }
  }

  /** Combine every byte with its byte of the mask, in place. */
  method Unmask(payload: array<byte>, mask: array<byte>)
    requires mask.Length == 4 && payload != mask
    modifies payload
    ensures payload[..] == Masked(old(payload[..]), mask[..])
  {
    for i := 0 to payload.Length
      invariant forall k :: 0 <= k < i ==> payload[k] == Masked(old(payload[..]), mask[..])[k]
      invariant forall k :: i <= k < payload.Length ==> payload[k] == old(payload[k])
      invariant mask[..] == old(mask[..])
    {
      payload[i] := payload[i] ^ mask[i % 4];
    }
  }

  /** One shift of a 64-bit accumulator computes the same residue as the unbounded number. */
  lemma ShiftStep(x: nat, b: nat)
    requires b < 256
    ensures (x % TWO_64) * 256 % TWO_64 + b == (x * 256 + b) % TWO_64
  {
    var q, r := x / TWO_64, x % TWO_64;
    var k, s := r / (TWO_64 / 256), r % (TWO_64 / 256);
    assert r * 256 == k * TWO_64 + s * 256;
    assert x * 256 + b == (q * 256 + k) * TWO_64 + (s * 256 + b);
    Residue(k, s * 256);
    Residue(q * 256 + k, s * 256 + b);
  }

  lemma Residue(q: nat, r: nat)
    requires r < TWO_64
    ensures (q * TWO_64 + r) % TWO_64 == r
  {
  }

  lemma LengthStart(start: nat, none: seq<byte>)
    requires start < 128 && none == []
    ensures (start * Pow256(0) + BigEndian(none)) % TWO_64 == start
  {
  }

  lemma LengthStep(start: nat, b: seq<byte>, i: nat)
    requires i < |b|
    ensures (start * Pow256(i) + BigEndian(b[..i])) % TWO_64 * 256 % TWO_64 + (b[i] as nat)
            == (start * Pow256(i + 1) + BigEndian(b[..i + 1])) % TWO_64
  {
    var x, y := start * Pow256(i) + BigEndian(b[..i]), start * Pow256(i + 1) + BigEndian(b[..i + 1]);
    assert y == x * 256 + b[i] as nat by {
      assert b[..i + 1][..i] == b[..i];
      Reassociate(start, Pow256(i));
    }
    ByteValue(b[i]);
    hide Pow256, BigEndian;
    ShiftStep(x, b[i] as nat);
  }

  lemma Reassociate(start: nat, p: nat)
    ensures start * (256 * p) == start * p * 256
  {
  }

  lemma LengthEnd(start: nat, b: seq<byte>)
    requires |b| == 8
    ensures (start * Pow256(8) + BigEndian(b)) % TWO_64 == BigEndian(b)
  {
    Powers();
    BigEndianBound(b);
    Residue(start, BigEndian(b));
  }

  /** The 64-bit length loop: the accumulator starts with the short length still in it, which
      eight shifts push out. */
  method LongLength(start: nat, ext: array<byte>) returns (length: nat)
    requires start < 128 && ext.Length == 8
    ensures length == BigEndian(ext[..])
  {
    hide Pow256, BigEndian;
    length := start;
    LengthStart(start, ext[..0]);
    for i := 0 to ext.Length
      invariant length == (start * Pow256(i) + BigEndian(ext[..i])) % TWO_64
    {
      LengthStep(start, ext[..], i);
      assert ext[..][..i] == ext[..i] && ext[..][..i + 1] == ext[..i + 1];
      length := length * 256 % TWO_64 + (ext[i] as nat);
    }
    assert ext[..8] == ext[..];
    LengthEnd(start, ext[..]);
  }

  /** The payload length after the header. */
  method ReadLength(reader: ByteReader, short: byte) returns (l: Length)
    requires reader.Valid() && short < 0x80
    modifies reader
    ensures reader.Valid() && l == ParseLength(short, old(reader.Rest()))
    ensures l.Length? ==> reader.Rest() == old(reader.Rest())[l.used..]
  {
    hide BigEndian;
    if short == 126 {
      var ext := new byte[2];
      var ok := reader.ReadFull(ext);
      if !ok { return ShortInput; }
      TwoBytes(ext[..]);
      var n := (ext[0] as nat) * 256 + (ext[1] as nat);
      if n < 126 { return BadLength("non-minimal payload length"); }
      return Length(n, 2);
    } else if short == 127 {
      var ext := new byte[8];
      var ok := reader.ReadFull(ext);
      if !ok { return ShortInput; }
      assert old(reader.Rest())[0] == ext[..][0];
      if ext[0] & 0x80 != 0 { return BadLength("invalid 64-bit payload length"); }
      var n := LongLength(127, ext);
      if n <= 0xffff { return BadLength("non-minimal payload length"); }
      return Length(n, 8);
    }
    return Length(short as nat, 0);
  }

  lemma TwoBytes(b: seq<byte>)
    requires |b| == 2
    ensures BigEndian(b) == (b[0] as nat) * 256 + (b[1] as nat)
  {
    assert BigEndian(b[..1]) == b[0] as nat;
  }

  /** What a read must return for what was left to read. */
  ghost predicate Answers(p: Parsed, out: ReadFrame, rest: seq<byte>) {
    match p
    case Parsed(frame, _, left) => out == Read(frame) && rest == left
    case Refused(code, reason) => out == Failed(Protocol(code, reason))
    case Truncated => out == Failed(EndOfInput)
  }

  /** Mask and payload, once the length is known. */
  method ReadBody(reader: ByteReader, fin: bool, opcode: byte, length: nat, max: int) returns (out: ReadFrame)
    requires reader.Valid()
    modifies reader
    ensures reader.Valid()
    ensures Answers(ParseBody(fin, opcode, length, old(reader.Rest()), max), out, reader.Rest())
  {
    var control := opcode >= OP_CLOSE;
    if control && (!fin || length > 125) {
      return Failed(Protocol(1002, "invalid control frame"));
    }
    if max <= 0 || length > max {
      return Failed(Protocol(1009, "message too large"));
    }
    ghost var rest := reader.Rest();
    var mask := new byte[4];
    var ok := reader.ReadFull(mask);
    if !ok { return Failed(EndOfInput); }
    var payload := new byte[length];
    ok := reader.ReadFull(payload);
    if !ok { return Failed(EndOfInput); }
    assert payload[..] == rest[4..4 + length] && reader.Rest() == rest[4 + length..];
    Unmask(payload, mask);
    return Read(Frame(fin, opcode, payload[..]));
  }

  /** Read one frame: the answer, and what is left unread, are those of the codec. */
  method ReadClientFrame(reader: ByteReader, max: int) returns (out: ReadFrame)
    requires reader.Valid()
    modifies reader
    ensures reader.Valid()
    ensures Answers(Parse(old(reader.Rest()), max), out, reader.Rest())
  {
    ghost var rest := reader.Rest();
    var header := new byte[2];
    var ok := reader.ReadFull(header);
    if !ok { return Failed(EndOfInput); }
    assert header[..][0] == rest[0] && header[..][1] == rest[1];
    if header[0] & 0x70 != 0 {
      return Failed(Protocol(1002, "RSV bits are not supported"));
    }
    var fin, opcode := header[0] & 0x80 != 0, header[0] & 0x0f;
    if (opcode >= 0x3 && opcode <= 0x7) || opcode >= 0xB {
      return Failed(Protocol(1002, "reserved opcode"));
    }
    if header[1] & 0x80 == 0 {
      return Failed(Protocol(1002, "client frame is not masked"));
    }
    var length := ReadLength(reader, Short(header[1]));
    match length {
      case ShortInput => return Failed(EndOfInput);
      case BadLength(reason) => return Failed(Protocol(1002, reason));
      case Length(n, used) =>
        assert rest[2..][used..] == rest[2 + used..];
        out := ReadBody(reader, fin, opcode, n, max);
    }
  }
}
