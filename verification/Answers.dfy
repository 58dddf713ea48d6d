/** What the relay answers to a client stream: an echo for every ping, in order, and in the end one
    Close that says why. */
module Answers {
  import opened Bytes
  import opened Frames
  import opened FrameReader
  import opened Reassembly
  import opened FrameWriter
  import opened Closing
  import opened Bridge

  // -------------------------------------------------------------------- a Close

  /** The number in two bytes, the high one first. */
  function Number(high: byte, low: byte): nat {
    256 * (high as int) + (low as int)
  }

  /** A Close of the relay carries its code in two bytes and then its reason, character by character. */
  lemma CloseOutExact(code: nat, reason: string)
    requires code < 0x1_0000 && Ascii(reason) && |reason| <= 123
    ensures var f := CloseOut(code, reason);
            && f.opcode == 0x8 && |f.payload| == 2 + |reason| && Number(f.payload[0], f.payload[1]) == code
            && forall i :: 0 <= i < |reason| ==> f.payload[2 + i] as int == reason[i] as int
  {
    hide Low, ToBytes, BigEndian;
    var p := CloseOut(code, reason).payload;
    var head := ToBytes(code, 2);
    assert p == head + AsciiBytes(reason);
    TwoBytes(code);
    forall i | 0 <= i < |reason| ensures p[2 + i] as int == reason[i] as int {
      assert p[2 + i] == AsciiBytes(reason)[i];
      LowExact(reason[i] as int);
    }
  }

  lemma LowExact(n: nat)
    requires n < 256
    ensures Low(n) as int == n
  {
    ValueByte(n);
  }

  lemma TwoBytes(n: nat)
    requires n < 0x1_0000
    ensures var b := ToBytes(n, 2); Number(b[0], b[1]) == n
  {
    hide Low;
    assert ToBytes(n, 2) == ToBytes(n / 256, 1) + [Low(n)];
    assert ToBytes(n / 256, 1) == ToBytes(n / 256 / 256, 0) + [Low(n / 256)];
    LowExact(n / 256);
    LowOfAny(n);
  }

  lemma LowOfAny(n: nat)
    ensures Low(n) as int == n % 256
  {
    ValueByte(n % 256);
  }

  /** The codes that may be in a Close (section 7.4 of RFC 6455): those the protocol defines for use
      in one, and those of libraries and applications. */
  predicate MaySay(code: nat) {
    1000 <= code <= 1003 || 1007 <= code <= 1014 || 3000 <= code <= 4999
  }

  lemma ValidCloseCodeExact(code: nat)
    ensures ValidCloseCode(code) <==> MaySay(code)
  {
  }

  /** The answer to a Close of the client: the same Close, unless it has a single byte, a code that may
      not be said, or a reason that is not text. */
  lemma CloseReplyExact(payload: seq<byte>)
    ensures CloseReply(payload)
            == if |payload| == 1 then CloseOut(1002, "invalid close payload")
               else if |payload| > 1 && !MaySay(Number(payload[0], payload[1])) then
                 CloseOut(1002, "invalid close code")
               else if |payload| > 1 && !Utf8(payload[2..]) then CloseOut(1007, "invalid close reason")
               else Out(0x8, payload)
  {
    hide Utf8, CloseOut, BigEndian;
    if |payload| > 1 {
      ReadNumber(payload[..2]);
      ValidCloseCodeExact(Number(payload[0], payload[1]));
    }
  }

  lemma ReadNumber(b: seq<byte>)
    requires |b| == 2
    ensures BigEndian(b) == Number(b[0], b[1])
  {
    assert b[..1][..0] == [];
    assert b[..1][0] == b[0];
    assert BigEndian(b) == BigEndian(b[..1]) * 256 + (b[1] as int);
    assert BigEndian(b[..1]) == BigEndian(b[..1][..0]) * 256 + (b[..1][0] as int);
  }

  // ----------------------------------------------------------- refused frames

  /** What is wrong with the two header bytes of a frame. */
  lemma HeaderRefusals(input: seq<byte>, max: int)
    requires |input| >= 2
    ensures var op := input[0] & 0x0f;
            var p := Parse(input, max);
            if input[0] & 0x70 != 0 then p == Refused(1002, "RSV bits are not supported")
            else if op !in {0x0, 0x1, 0x2, 0x8, 0x9, 0xA} then p == Refused(1002, "reserved opcode")
            else if input[1] & 0x80 == 0 then p == Refused(1002, "client frame is not masked")
            else if input[0] & 0x80 == 0 && op >= 0x8 && input[1] & 0x7f < 126 then
              p == Refused(1002, "invalid control frame")
            else true
  {
    hide ParseLength;
    OpcodesKnown(input[0] & 0x0f);
    if input[1] & 0x7f < 126 {
      ShortLengths(input[1] & 0x7f, input[2..]);
    }
  }

  lemma OpcodesKnown(op: byte)
    requires op <= 0x0f
    ensures KnownOpcode(op) <==> op in {0x0, 0x1, 0x2, 0x8, 0x9, 0xA}
    ensures op in {0x0, 0x1, 0x2, 0x8, 0x9, 0xA} ==> (Control(op) <==> op >= 0x8)
  {
  }

  lemma ShortLengths(short: byte, rest: seq<byte>)
    requires short < 126
    ensures ParseLength(short, rest) == Length(short as nat, 0)
  {
  }

  /** A data frame whose payload is over the limit is refused with 1009, a control frame of more than
      125 bytes with 1002, as soon as the header is there. */
  lemma OverlongFrame(f: Frame, mask: seq<byte>, rest: seq<byte>, max: int)
    requires KnownOpcode(f.opcode) && |mask| == 4 && |f.payload| < TWO_63
    requires if Control(f.opcode) then |f.payload| > 125 else |f.payload| > max
    ensures Parse(Encode(f, mask) + rest, max)
            == if Control(f.opcode) then Refused(1002, "invalid control frame") else Refused(1009, "message too large")
  {
    hide Parse, ParseBody, Masked, FirstByte, ShortLength, ExtendedLength;
    var n := |f.payload|;
    var header := [FirstByte(f), 0x80 | ShortLength(n)] + ExtendedLength(n);
    var body := mask + Masked(f.payload, mask) + rest;
    assert Encode(f, mask) + rest == header + body;
    ParseHeader(f, body, max);
    OverlongBody(f.fin, f.opcode, n, body, max);
  }

  lemma OverlongBody(fin: bool, opcode: byte, n: nat, rest: seq<byte>, max: int)
    requires if Control(opcode) then n > 125 else n > max
    ensures ParseBody(fin, opcode, n, rest, max)
            == if Control(opcode) then Refused(1002, "invalid control frame") else Refused(1009, "message too large")
  {
  }

  /** Which well-formed frames are refused where they come, and how. */
  lemma AcceptRefusals(a: Assembly, f: Frame, max: int)
    requires f.opcode in {0x0, 0x1, 0x2, 0x8, 0x9, 0xA} && a.opcode in {0x0, 0x2}
    ensures var o := Accept(a, f, max);
            if f.opcode == 0x1 then o == Refuse(1002, "text frames are not supported")
            else if f.opcode == 0x2 && a.opcode != 0 then
              o == Refuse(1002, "new data frame before fragmented message completed")
            else if f.opcode == 0x0 && a.opcode == 0 then o == Refuse(1002, "unexpected continuation frame")
            else if f.opcode == 0x0 && |a.buffer| + |f.payload| > max then o == Refuse(1009, "message too large")
            else !o.Refuse?
  {
  }

  // ------------------------------------------------------------------ the stream

  /** Traffic for the events of a stream, one step at a time: a stream that stops is told why with one
      Close, a message goes up, a ping is echoed, a pong is only noted, a Close is answered and ends it. */
  lemma TrafficExact(a: Assembly, input: seq<byte>, max: int)
    ensures var t := ServeFrom(a, input, max);
            match Parse(input, max)
            case Truncated => t == Traffic([], [CloseOut(1002, "protocol error")])
            case Refused(code, reason) => t == Traffic([], [CloseOut(code, reason)])
            case Parsed(f, _, rest) =>
              match Accept(a, f, max)
              case Refuse(code, reason) => t == Traffic([], [CloseOut(code, reason)])
              case Skip(next) => t == ServeFrom(next, rest, max)
              case Emit(next, e) =>
                var later := ServeFrom(next, rest, max);
                if e.opcode == 0x2 then t == Traffic(e.payload + later.upstream, later.replies)
                else if e.opcode == 0x9 then t == Traffic(later.upstream, [Out(0xA, e.payload)] + later.replies)
                else if e.opcode == 0xA then t == later
                else if e.opcode == 0x8 then t == Traffic([], [CloseReply(e.payload)])
                else true
  {
    hide Parse, Accept, CloseReply, CloseOut, Session;
    ServeStep(a, input, max);
    var p := Parse(input, max);
    if p.Parsed? && Accept(a, p.frame, max).Skip? {
      SkipsTogether(a, input, max);
    }
  }

  lemma SkipsTogether(a: Assembly, input: seq<byte>, max: int)
    requires Parse(input, max).Parsed?
    requires Accept(a, Parse(input, max).frame, max).Skip?
    ensures ServeFrom(a, input, max)
            == ServeFrom(Accept(a, Parse(input, max).frame, max).next, Parse(input, max).rest, max)
  {
  }

  // --------------------------------------------------------------------- echoes

  /** The echoes that a run of events calls for. */
  function Echoes(events: seq<Event>): seq<Out> {
    if events == [] then []
    else
      var last := events[|events| - 1];
      Echoes(events[..|events| - 1]) + if last.opcode == OP_PING then [Out(OP_PONG, last.payload)] else []
  }

  lemma EchoesCons(e: Event, events: seq<Event>)
    ensures Echoes([e] + events) == (if e.opcode == OP_PING then [Out(OP_PONG, e.payload)] else []) + Echoes(events)
  {
    var all := [e] + events;
    if events == [] {
      assert all == [e] && all[..0] == [];
    } else {
      var k := |events| - 1;
      assert all[..|all| - 1] == [e] + events[..k] && all[|all| - 1] == events[k];
      EchoesCons(e, events[..k]);
    }
  }

  /** Up to the first Close the replies are the echoes of the pings, in order. */
  lemma {:induction false} ServeEchoes(events: seq<Event>, later: seq<Event>, error: ReadError)
    requires forall e :: e in events ==> e.opcode == OP_BINARY || e.opcode == OP_PING || e.opcode == OP_PONG
    ensures Serve(events + later, error).replies == Echoes(events) + Serve(later, error).replies
  {
    hide Serve, Echoes, Then;
    if events == [] {
      assert events + later == later && Echoes(events) == [] by { NoEchoes(); }
    } else {
      var e, rest := events[0], events[1..];
      ServeEchoes(rest, later, error);
      assert events == [e] + rest && e in events;
      EchoesCons(e, rest);
      assert events + later == [e] + (rest + later);
      ServeCons(e, rest + later, error);
      ThenReplies(e, Serve(rest + later, error));
    }
  }

  lemma NoEchoes()
    ensures Echoes([]) == []
  {
  }

  lemma ServeCons(e: Event, events: seq<Event>, error: ReadError)
    ensures Serve([e] + events, error) == Then(e, Serve(events, error))
  {
    hide Then;
    assert ([e] + events)[1..] == events;
  }

  lemma ThenReplies(e: Event, rest: Traffic)
    requires e.opcode == OP_BINARY || e.opcode == OP_PING || e.opcode == OP_PONG
    ensures Then(e, rest).replies == (if e.opcode == OP_PING then [Out(OP_PONG, e.payload)] else []) + rest.replies
  {
  }

  /** Every ping of a client is echoed with its own payload, in order and at once, wherever it falls
      between the pieces of messages and whatever the masks. */
  lemma PingsAreEchoed(items: seq<Item>, masks: seq<seq<byte>>, tail: seq<byte>, max: int)
    requires forall i :: i in items ==> Proper(i) && Plain(i) && Fits(i, max)
    requires forall f :: f in Wire(items) ==> Legal(f, max)
    requires |masks| == |Wire(items)| && forall m :: m in masks ==> |m| == 4
    ensures ServeFrom(IDLE, EncodeAll(Wire(items), masks) + tail, max).replies
            == Echoes(Events(items)) + ServeFrom(IDLE, tail, max).replies
  {
    hide Session, Plain, Legal, Serve, Echoes;
    DeliveryOnBytes(items, masks, tail, max);
    ItemsCarry(items);
    RepliesSendable(IDLE, tail, max);
    var s := Session(IDLE, tail, max);
    ServeEchoes(Events(items), s.events, s.error.value);
  }

  /** A client whose message outgrows the limit is told so with 1009, after the echoes of the pings
      that came before. */
  lemma OversizedIsTold(item: Item, masks: seq<seq<byte>>, tail: seq<byte>, max: nat)
    requires Proper(item) && Plain(item) && !Fits(item, max) && |item.pieces[0].bytes| <= max
    requires forall f :: f in ItemWire(item) ==> Legal(f, max)
    requires |masks| == |ItemWire(item)| && forall m :: m in masks ==> |m| == 4
    ensures var before := AsEvents(Controls(item.pieces[..Fitting(item.pieces, max) + 1]));
            ServeFrom(IDLE, EncodeAll(ItemWire(item), masks) + tail, max).replies
            == Echoes(before) + [CloseOut(1009, "message too large")]
  {
    hide Session, Legal, Serve, Echoes, Whole, CloseOut, Deliver, ItemWire, Controls, AsEvents,
      EncodeAll;
    var before := AsEvents(Controls(item.pieces[..Fitting(item.pieces, max) + 1]));
    DeliverOversized(item, max);
    SessionOfFrames(IDLE, ItemWire(item), masks, tail, max);
    BeforeIsQuiet(item, Fitting(item.pieces, max) + 1);
    ServeEchoes(before, [], Protocol(1009, "message too large"));
    assert before + [] == before;
    NothingMore(Protocol(1009, "message too large"));
  }

  lemma NothingMore(error: ReadError)
    ensures Serve([], error).replies == [ErrorReply(error)]
  {
  }

  lemma BeforeIsQuiet(item: Item, k: nat)
    requires item.Message? && Proper(item) && Plain(item) && k <= |item.pieces|
    ensures forall e :: e in AsEvents(Controls(item.pieces[..k])) ==> e.opcode == OP_PING || e.opcode == OP_PONG
  {
    hide Controls, AllControl, NoClose;
    var pieces := item.pieces[..k];
    assert forall p :: p in pieces ==> p in item.pieces;
    ControlsOfPieces(pieces);
    QuietControls(Controls(pieces));
  }

  lemma QuietControls(frames: seq<Frame>)
    requires AllControl(frames) && NoClose(frames)
    ensures forall e :: e in AsEvents(frames) ==> e.opcode == OP_PING || e.opcode == OP_PONG
  {
    forall e | e in AsEvents(frames) ensures e.opcode == OP_PING || e.opcode == OP_PONG {
      var i :| 0 <= i < |frames| && AsEvents(frames)[i] == e;
      assert frames[i] in frames;
    }
  }

  // ----------------------------------------------------------------- downstream

  /** A data frame for every read that brings something, up to the read with which the connection ends. */
  function DataFrames(chunks: seq<Chunk>): seq<Out> {
    if chunks == [] then []
    else
      (if chunks[0].bytes == [] then [] else [Out(0x2, chunks[0].bytes)])
      + if chunks[0].end.More? then DataFrames(chunks[1..]) else []
  }

  /** How the reads end, if they do. */
  function LastEnd(chunks: seq<Chunk>): ReadEnd {
    if chunks == [] then More else if chunks[0].end.More? then LastEnd(chunks[1..]) else chunks[0].end
  }

  /** The Close with which the reads end. */
  function LastWords(end: ReadEnd): seq<Out> {
    match end
    case More => []
    case Eof => [CloseOut(1000, "telegram closed")]
    case Broken => [CloseOut(1011, "telegram read failed")]
  }

  /** What comes from Telegram goes out read by read, and then one Close: 1000 when Telegram closed the
      connection and 1011 when reading failed. */
  lemma {:induction false} PumpExact(chunks: seq<Chunk>)
    ensures Pump(chunks) == DataFrames(chunks) + LastWords(LastEnd(chunks))
  {
    hide CloseOut, LastWords, EndOf, BinaryOf;
    if chunks == [] {
      NoLastWords();
    } else {
      var first, rest := chunks[0], chunks[1..];
      PumpExact(rest);
      FirstFrames(first);
      var data := BinaryOf(first.bytes);
      if first.end.More? {
        assert data + [] + Pump(rest) == data + DataFrames(rest) + LastWords(LastEnd(rest));
      } else {
        assert data + LastWords(first.end) + [] == data + [] + LastWords(first.end);
      }
    }
  }

  lemma NoLastWords()
    ensures LastWords(More) == []
  {
  }

  lemma FirstFrames(c: Chunk)
    ensures BinaryOf(c.bytes) == if c.bytes == [] then [] else [Out(0x2, c.bytes)]
    ensures EndOf(c.end) == LastWords(c.end) && (c.end.More? ==> EndOf(c.end) == [])
  {
  }
}
