/** Frames to the client: the short-write loop, the frame encoder and the shared writer. */
module FrameWriter {
  import opened Bytes
  import opened Frames

  // ------------------------------------------------------------------ the network

  /** A connection that takes any part of what it is given and may fail at any time. */
  class Sink {
    /** The bytes taken so far. */
    var sent: seq<byte>
    /** Whether some write reported an error or no progress. */
    ghost var failed: bool

    constructor ()
      ensures sent == [] && !failed
    {
      sent, failed := [], false;
    }

    method Write(payload: seq<byte>) returns (written: int, err: bool)
      modifies this
      ensures written <= |payload|
      ensures sent == old(sent) + if written > 0 then payload[..written] else []
      ensures failed == (old(failed) || err || written <= 0)
    {
      written, err := *, *;
      if written > |payload| { written := |payload|; }
      if written > 0 { sent := sent + payload[..written]; }
      failed := failed || err || written <= 0;
    }
  }

  /** What a failed write leaves: some first part of the payload was taken. */
  predicate PartlySent(before: seq<byte>, payload: seq<byte>, after: seq<byte>) {
    before <= after <= before + payload
  }

  /** Write everything unless the connection errs or stalls. */
  method WriteAll(sink: Sink, payload: seq<byte>) returns (ok: bool)
    modifies sink
    ensures PartlySent(old(sink.sent), payload, sink.sent)
    ensures ok ==> sink.sent == old(sink.sent) + payload && sink.failed == old(sink.failed)
    ensures !ok ==> sink.failed
  {
    var rest := payload;
    while |rest| > 0
      invariant sink.sent + rest == old(sink.sent) + payload
      invariant PartlySent(old(sink.sent), payload, sink.sent)
      invariant sink.failed == old(sink.failed)
      decreases |rest|
    {
      ghost var sent := sink.sent;
      var written, err := sink.Write(rest);
      assert sink.sent <= sent + rest;
      if err { return false; }
      if written <= 0 { return false; }
      assert rest == rest[..written] + rest[written..];
      rest := rest[written..];
    }
    ok := true;
  }

  // ---------------------------------------------------------------- server frames

  /** A frame from the relay to the client; it is final and not masked. */
  datatype Out = Out(opcode: byte, payload: seq<byte>)

  function Head(opcode: byte, n: nat): seq<byte> {
    [0x80 | opcode, ShortLength(n)] + ExtendedLength(n)
  }

  function EncodeOut(f: Out): seq<byte> {
    Head(f.opcode, |f.payload|) + f.payload
  }

  /** What section 5.5 of RFC 6455 allows a server to send. */
  predicate LegalOut(f: Out) {
    KnownOpcode(f.opcode) && |f.payload| < TWO_63 && (Control(f.opcode) ==> |f.payload| <= 125)
  }

  datatype ParsedOut = ParsedOut(frame: Out, rest: seq<byte>) | BadOut | ShortOut

  /** The receiving side of section 5.2 for unfragmented server frames: no reserved bit, a known
      opcode, no mask, a minimal length, and a short final control frame. */
  function ParseOut(input: seq<byte>): (p: ParsedOut)
    ensures p.ParsedOut? ==> |p.rest| + 2 <= |input|
  {
    if |input| < 2 then ShortOut
    else if Reserved(input[0]) || !Fin(input[0]) || !KnownOpcode(Opcode(input[0])) || MaskBit(input[1]) then BadOut
    else match ParseLength(Short(input[1]), input[2..])
      case ShortInput => ShortOut
      case BadLength(_) => BadOut
      case Length(n, used) =>
        var body := input[2 + used..];
        if Control(Opcode(input[0])) && n > 125 then BadOut
        else if |body| < n then ShortOut
        else ParsedOut(Out(Opcode(input[0]), body[..n]), body[n..])
  }

  /** A legal frame is read back, and what follows it is left unread. */
  lemma ParseEncodeOut(f: Out, rest: seq<byte>)
    requires LegalOut(f)
    ensures ParseOut(EncodeOut(f) + rest) == ParsedOut(f, rest)
  {
    hide Fin, Reserved, Opcode, MaskBit, Short, KnownOpcode, Control, ParseLength, ExtendedLength, ShortLength;
    var n := |f.payload|;
    var input := EncodeOut(f) + rest;
    var body := f.payload + rest;
    LengthOfCanonical(n, body);
    HeadBits(f.opcode, ShortLength(n));
    assert input[2..] == ExtendedLength(n) + body;
    assert input[2 + |ExtendedLength(n)|..] == body;
    assert body[..n] == f.payload && body[n..] == rest;
  }

  lemma HeadBits(opcode: byte, short: byte)
    requires KnownOpcode(opcode) && short < 0x80
    ensures var b := 0x80 | opcode; !Reserved(b) && Fin(b) && Opcode(b) == opcode
    ensures !MaskBit(short) && Short(short) == short
  {
  }

  function EncodeOuts(frames: seq<Out>): seq<byte> {
    if frames == [] then [] else EncodeOuts(frames[..|frames| - 1]) + EncodeOut(frames[|frames| - 1])
  }

  /** Read frames until something else comes. */
  function ParseOuts(input: seq<byte>): seq<Out>
    decreases |input|
  {
    match ParseOut(input)
    case ParsedOut(f, rest) => [f] + ParseOuts(rest)
    case _ => []
  }

  lemma {:induction false} ParseEncodeOuts(frames: seq<Out>, tail: seq<byte>)
    requires forall f :: f in frames ==> LegalOut(f)
    ensures ParseOuts(EncodeOuts(frames) + tail) == frames + ParseOuts(tail)
    decreases |frames|
  {
    hide LegalOut, EncodeOut, ParseOut;
    if frames == [] {
      assert EncodeOuts(frames) + tail == tail;
    } else {
      var k := |frames| - 1;
      ParseEncodeOut(frames[k], tail);
      ParseEncodeOuts(frames[..k], EncodeOut(frames[k]) + tail);
      assert EncodeOuts(frames) + tail == EncodeOuts(frames[..k]) + (EncodeOut(frames[k]) + tail);
      assert ParseOuts(EncodeOut(frames[k]) + tail) == [frames[k]] + ParseOuts(tail);
      assert frames[..k] + ([frames[k]] + ParseOuts(tail)) == frames + ParseOuts(tail);
    }
  }

  lemma ShortBytes(n: nat)
    ensures ToBytes(n, 2) == [Low(n / 0x100), Low(n)]
  {
    hide Low;
    assert ToBytes(n / 0x100, 1) == ToBytes(n / 0x100 / 0x100, 0) + [Low(n / 0x100)];
  }

  lemma FourBytes(n: nat, k: nat)
    requires k >= 4
    ensures ToBytes(n, k) == ToBytes(n / 0x1_0000_0000, k - 4)
                             + [Low(n / 0x100_0000), Low(n / 0x1_0000), Low(n / 0x100), Low(n)]
  {
    hide Low;
    TwoMore(n, k);
    TwoMore(n / 0x1_0000, k - 2);
    assert n / 0x1_0000 / 0x1_0000 == n / 0x1_0000_0000 && n / 0x1_0000 / 0x100 == n / 0x100_0000;
    hide ToBytes;
  }

  lemma TwoMore(n: nat, k: nat)
    requires k >= 2
    ensures ToBytes(n, k) == ToBytes(n / 0x1_0000, k - 2) + [Low(n / 0x100), Low(n)]
  {
    hide Low;
    assert n / 0x100 / 0x100 == n / 0x1_0000;
    assert ToBytes(n / 0x100, k - 1) == ToBytes(n / 0x100 / 0x100, k - 2) + [Low(n / 0x100)];
  }

  lemma LongBytes(n: nat)
    ensures ToBytes(n, 8) ==
            [Low(n / 0x100_0000_0000_0000), Low(n / 0x1_0000_0000_0000), Low(n / 0x100_0000_0000),
             Low(n / 0x1_0000_0000),
             Low(n / 0x100_0000), Low(n / 0x1_0000), Low(n / 0x100), Low(n)]
  {
    hide ToBytes, Low;
    var d := n / 0x1_0000_0000;
    FourBytes(n, 8);
    FourBytes(d, 4);
    assert d / 0x100 == n / 0x100_0000_0000 by { DivDiv(n, 0x100); }
    assert d / 0x1_0000 == n / 0x1_0000_0000_0000 by { DivDiv(n, 0x1_0000); }
    assert d / 0x100_0000 == n / 0x100_0000_0000_0000 by { DivDiv(n, 0x100_0000); }
    assert |ToBytes(d / 0x1_0000_0000, 0)| == 0;
  }

  lemma DivDiv(n: nat, m: nat)
    requires m == 0x100 || m == 0x1_0000 || m == 0x100_0000
    ensures n / 0x1_0000_0000 / m == n / (0x1_0000_0000 * m)
  {
  }

  /** The header, with the shortest length that holds the payload. */
  method Header(opcode: byte, length: nat) returns (header: seq<byte>)
    requires length < TWO_63
    ensures header == Head(opcode, length)
  {
    hide ToBytes, Low;
    header := [0x80 | opcode];
    if length < 126 {
      header := header + [length as byte];
    } else if length <= 0xffff {
      ShortBytes(length);
      header := header + [126, Low(length / 0x100), Low(length)];
    } else {
      LongBytes(length);
      header := header + [127,
        Low(length / 0x100_0000_0000_0000), Low(length / 0x1_0000_0000_0000),
        Low(length / 0x100_0000_0000), Low(length / 0x1_0000_0000),
        Low(length / 0x100_0000), Low(length / 0x1_0000), Low(length / 0x100), Low(length)];
    }
  }

  /** One frame: the header, then the payload, in two short-write loops. */
  method SendFrame(sink: Sink, opcode: byte, payload: seq<byte>) returns (ok: bool)
    requires |payload| < TWO_63
    modifies sink
    ensures PartlySent(old(sink.sent), EncodeOut(Out(opcode, payload)), sink.sent)
    ensures ok ==> sink.sent == old(sink.sent) + EncodeOut(Out(opcode, payload)) && sink.failed == old(sink.failed)
    ensures !ok ==> sink.failed
  {
    hide Head;
    var header := Header(opcode, |payload|);
    ok := WriteAll(sink, header);
    assert old(sink.sent) + EncodeOut(Out(opcode, payload)) == old(sink.sent) + header + payload;
    if !ok { return; }
    ok := WriteAll(sink, payload);
  }

  /** The connection as the writer sees it: the bytes taken, the frames written before the first
      write error, and whether there was one. */
  datatype Line = Line(sent: seq<byte>, frames: seq<Out>, broken: bool)

  /** What one locked write of a frame does: it is taken and logged, or a first part of it is taken
      and the line is broken; on a broken line nothing is logged. */
  predicate Wrote(before: Line, f: Out, ok: bool, after: Line) {
    && after.broken == (before.broken || !ok)
    && after.frames == before.frames + (if after.broken then [] else [f])
    && PartlySent(before.sent, EncodeOut(f), after.sent)
    && (ok ==> after.sent == before.sent + EncodeOut(f))
  }

  /** The writer that all loops of one connection share. Its lock makes each frame one step. */
  class WebsocketWriter {
    const conn: Sink
    /** The frames written before the first write error. */
    ghost var frames: seq<Out>
    ghost var broken: bool

    ghost predicate Valid()
      reads this, conn
    {
      if broken then EncodeOuts(frames) <= conn.sent else !conn.failed && conn.sent == EncodeOuts(frames)
    }

    ghost function View(): Line
      reads this, conn
    {
      Line(conn.sent, frames, broken)
    }

    constructor (conn: Sink)
      requires conn.sent == [] && !conn.failed
      ensures this.conn == conn && Valid() && frames == [] && !broken
    {
      this.conn, frames, broken := conn, [], false;
    }

    /** Write one frame. Until the first error the bytes sent are the whole frames logged; the
        first error leaves a first part of its frame, and then the log is fixed. */
    method WriteFrame(opcode: byte, payload: seq<byte>) returns (ok: bool)
      requires Valid() && |payload| < TWO_63
      modifies this, conn
      ensures Valid() && broken == (old(broken) || !ok)
      ensures frames == old(frames) + if broken then [] else [Out(opcode, payload)]
      ensures PartlySent(old(conn.sent), EncodeOut(Out(opcode, payload)), conn.sent)
      ensures Wrote(old(View()), Out(opcode, payload), ok, View())
    {
      hide EncodeOut;
      ok := SendFrame(conn, opcode, payload);
      if !broken && ok {
        ghost var f := Out(opcode, payload);
        assert (frames + [f])[..|frames|] == frames;
        frames := frames + [f];
      }
      broken := broken || !ok;
    }
  }
}
