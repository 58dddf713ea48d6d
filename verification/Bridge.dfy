/** The two loops that join a client and Telegram. */
module Bridge {
  import opened Bytes
  import opened Frames
  import opened FrameReader
  import opened Reassembly
  import opened FrameWriter
  import opened Closing

  // ------------------------------------------------------- client to Telegram

  /** What a client stream causes: bytes for Telegram and frames for the client. */
  datatype Traffic = Traffic(upstream: seq<byte>, replies: seq<Out>)

  function CloseReply(payload: seq<byte>): Out {
    match ValidateClosePayload(payload)
    case Accepted => Out(OP_CLOSE, payload)
    case Rejected(code, reason) => CloseOut(code, reason)
  }

  function ErrorReply(e: ReadError): Out {
    CloseOut(CloseForReadError(e).0, CloseForReadError(e).1)
  }

  /** Messages go up, pings are answered, pongs are only noted, and a Close ends the session. */
  function Then(e: Event, rest: Traffic): Traffic {
    if e.opcode == OP_BINARY then Traffic(e.payload + rest.upstream, rest.replies)
    else if e.opcode == OP_CLOSE then Traffic([], [CloseReply(e.payload)])
    else if e.opcode == OP_PING then Traffic(rest.upstream, [Out(OP_PONG, e.payload)] + rest.replies)
    else if e.opcode == OP_PONG then rest
    else Traffic([], [CloseOut(1002, "unsupported opcode")])
  }

  /** Messages go up, pings are answered, and the first Close or error ends the session. */
  function Serve(events: seq<Event>, error: ReadError): Traffic {
    if events == [] then Traffic([], [ErrorReply(error)])
    else Then(events[0], Serve(events[1..], error))
  }

  // ------------------------------------------------ everything sent is sendable

  predicate Reportable(e: ReadError) {
    Sayable(CloseForReadError(e).0, CloseForReadError(e).1)
  }

  predicate Deliverable(e: Event) {
    e.opcode == OP_BINARY
    || ((e.opcode == OP_CLOSE || e.opcode == OP_PING || e.opcode == OP_PONG) && |e.payload| <= 125)
  }

  lemma ParseReportable(input: seq<byte>, max: int)
    ensures var p := Parse(input, max);
            p.Refused? ==> Reportable(Protocol(p.code, p.reason))
  {
    hide Ascii, BigEndian;
    CodecReasons();
    LengthReasons();
  }

  lemma EndReportable()
    ensures Reportable(EndOfInput)
  {
    hide Ascii;
    CodecReasons();
  }

  lemma AcceptReportable(a: Assembly, f: Frame, max: int)
    requires Legal(f, max)
    ensures var o := Accept(a, f, max);
            (o.Refuse? ==> Reportable(Protocol(o.code, o.reason))) && (o.Emit? ==> Deliverable(o.event))
  {
    hide Ascii;
    CodecReasons();
    FragmentReasons();
    UnfinishedReason();
  }

  /** Every byte stream gives deliverable events and an error that can be reported. */
  lemma {:induction false} FirstEventReportable(a: Assembly, input: seq<byte>, max: int)
    ensures var n := FirstEvent(a, input, max);
            if n.Got? then Deliverable(n.event) else Reportable(n.error)
    decreases |input|
  {
    hide Parse, Accept, Deliverable, Sayable, Legal;
    var p := Parse(input, max);
    ParseReportable(input, max);
    if p.Parsed? {
      ParseSound(input, max);
      AcceptReportable(a, p.frame, max);
      if Accept(a, p.frame, max).Skip? {
        FirstEventReportable(Accept(a, p.frame, max).next, p.rest, max);
      }
    } else if p.Truncated? {
      EndReportable();
    }
  }

  lemma PongSendable(payload: seq<byte>)
    requires |payload| <= 125
    ensures Sendable(Out(OP_PONG, payload))
  {
  }

  lemma CloseReplySendable(payload: seq<byte>)
    requires |payload| <= 125
    ensures Sendable(CloseReply(payload))
  {
    if ValidateClosePayload(payload).Rejected? {
      LengthReasons();
      CloseSendable(ValidateClosePayload(payload).code, ValidateClosePayload(payload).reason);
    }
  }

  predicate AllSendable(frames: seq<Out>) {
    forall f :: f in frames ==> Sendable(f)
  }

  /** Every reply to every client stream is a legal frame, and every Close among them would
      pass the relay's own check. */
  lemma {:induction false} RepliesSendable(a: Assembly, input: seq<byte>, max: int)
    ensures var s := Session(a, input, max);
            s.error.Some? && AllSendable(Serve(s.events, s.error.value).replies)
    decreases |input|
  {
    hide FirstEvent, Session, Sendable, CloseReply, ErrorReply, CloseOut;
    FirstEventReportable(a, input, max);
    SessionByEvents(a, input, max);
    match FirstEvent(a, input, max)
    case Got(e, after, rest) =>
      RepliesSendable(after, rest, max);
      var t := Session(after, rest, max);
      assert ([e] + t.events)[1..] == t.events;
      if e.opcode == OP_CLOSE {
        CloseReplySendable(e.payload);
      } else if e.opcode == OP_PING {
        PongSendable(e.payload);
      }
    case Stopped(after, error) =>
      assert Sendable(ErrorReply(error)) by { ErrorReplySendable(error); }
  }

  lemma ErrorReplySendable(e: ReadError)
    requires Reportable(e)
    ensures Sendable(ErrorReply(e))
  {
    CloseSendable(CloseForReadError(e).0, CloseForReadError(e).1);
  }

  // --------------------------------------------------------------- the read loop

  /** The traffic of the bytes that are left to read. */
  function ServeFrom(a: Assembly, input: seq<byte>, max: int): Traffic {
    var s := Session(a, input, max);
    match s.error
    case Some(error) => Serve(s.events, error)
    case None => Traffic([], [])
  }

  lemma ServeStep(a: Assembly, input: seq<byte>, max: int)
    ensures var n := FirstEvent(a, input, max);
            ServeFrom(a, input, max)
            == if n.Got? then Then(n.event, ServeFrom(n.after, n.rest, max)) else Traffic([], [ErrorReply(n.error)])
    ensures FirstEvent(a, input, max).Got? ==> |FirstEvent(a, input, max).rest| < |input|
  {
    hide FirstEvent, Session, CloseReply, ErrorReply, CloseOut;
    SessionByEvents(a, input, max);
    var n := FirstEvent(a, input, max);
    if n.Got? {
      RepliesSendable(n.after, n.rest, max);
      assert ([n.event] + Session(n.after, n.rest, max).events)[1..] == Session(n.after, n.rest, max).events;
    }
  }

  /** Bytes go up only from the front of what the stream carries. */
  predicate Between(before: seq<byte>, upstream: seq<byte>, after: seq<byte>) {
    before <= after <= before + upstream
  }

  method WriteClose(writer: WebsocketWriter, code: nat, reason: string)
    requires writer.Valid() && AllSendable(writer.frames) && Sayable(code, reason)
    modifies writer, writer.conn
    ensures writer.Valid() && AllSendable(writer.frames) && (old(writer.broken) ==> writer.broken)
    ensures writer.frames == old(writer.frames) + if writer.broken then [] else [CloseOut(code, reason)]
  {
    hide Sendable;
    CloseSendable(code, reason);
    var payload := ClosePayload(code, AsciiBytes(reason));
    var _ := writer.WriteFrame(OP_CLOSE, payload);
  }

  /** Act on one event; `rest` is what the events after it call for. */
  method Handle(e: Event, writer: WebsocketWriter, telegram: Sink, ghost rest: Traffic) returns (more: bool)
    requires writer.Valid() && AllSendable(writer.frames) && telegram != writer.conn && !telegram.failed
        && Deliverable(e)
    modifies writer, writer.conn, telegram
    ensures writer.Valid() && AllSendable(writer.frames) && (old(writer.broken) ==> writer.broken)
    ensures Between(old(telegram.sent), Then(e, rest).upstream, telegram.sent)
    ensures more ==> !telegram.failed
                     && telegram.sent + rest.upstream == old(telegram.sent) + Then(e, rest).upstream
                     && (!writer.broken ==> writer.frames + rest.replies == old(writer.frames) + Then(e, rest).replies)
    ensures !more && !writer.broken && !telegram.failed
            ==> telegram.sent == old(telegram.sent) + Then(e, rest).upstream
                && writer.frames == old(writer.frames) + Then(e, rest).replies
    ensures !more && !writer.broken && telegram.failed
            ==> writer.frames == old(writer.frames) + [CloseOut(1011, "telegram write failed")]
  {
    hide Sendable, CloseReply, CloseOut, Then, Deliverable;
    ThenCases(e, rest);
    if e.opcode == OP_BINARY {
      more := Forward(e.payload, writer, telegram);
      assert old(telegram.sent) + (e.payload + rest.upstream) == old(telegram.sent) + e.payload + rest.upstream;
    } else if e.opcode == OP_CLOSE {
      AnswerClose(e.payload, writer);
      more := false;
    } else if e.opcode == OP_PING {
      PongSendable(e.payload);
      more := writer.WriteFrame(OP_PONG, e.payload);
    } else {
      more := true;
    }
  }

  /** A message goes to Telegram; if that fails the client is told. */
  method Forward(payload: seq<byte>, writer: WebsocketWriter, telegram: Sink) returns (ok: bool)
    requires writer.Valid() && AllSendable(writer.frames) && telegram != writer.conn && !telegram.failed
    modifies writer, writer.conn, telegram
    ensures writer.Valid() && AllSendable(writer.frames) && (old(writer.broken) ==> writer.broken)
    ensures Between(old(telegram.sent), payload, telegram.sent) && ok == !telegram.failed
    ensures ok ==>
            telegram.sent == old(telegram.sent) + payload && writer.frames == old(writer.frames)
                && writer.broken == old(writer.broken)
    ensures !ok && !writer.broken ==> writer.frames == old(writer.frames) + [CloseOut(1011, "telegram write failed")]
  {
    hide Sendable, CloseOut;
    ok := WriteAll(telegram, payload);
    if !ok {
      UpstreamReasons();
      WriteClose(writer, 1011, "telegram write failed");
    }
  }

  /** A Close is echoed, or answered with what is wrong with it. */
  method AnswerClose(payload: seq<byte>, writer: WebsocketWriter)
    requires writer.Valid() && AllSendable(writer.frames) && |payload| <= 125
    modifies writer, writer.conn
    ensures writer.Valid() && AllSendable(writer.frames) && (old(writer.broken) ==> writer.broken)
    ensures !writer.broken ==> writer.frames == old(writer.frames) + [CloseReply(payload)]
  {
    hide Sendable, CloseReply, CloseOut;
    CloseReplySendable(payload);
    ReplyToClose(payload);
    var check := ValidateClosePayload(payload);
    if check.Rejected? {
      WriteClose(writer, check.code, check.reason);
    } else {
      var _ := writer.WriteFrame(OP_CLOSE, payload);
    }
  }

  /** Read events and act on them until the session ends. Unless a write fails, Telegram has
      been sent, and the client answered, exactly what the client stream calls for; when
      Telegram's connection fails, it has been sent a first part and the client is told. */
  method ReadLoop(frames: ClientFrameReader, writer: WebsocketWriter, telegram: Sink)
    requires frames.reader.Valid() && writer.Valid() && AllSendable(writer.frames) && telegram != writer.conn
        && !telegram.failed
    modifies frames, frames.reader, writer, writer.conn, telegram
    ensures writer.Valid() && AllSendable(writer.frames)
    ensures var t := ServeFrom(old(frames.State()), old(frames.reader.Rest()), frames.maxMessageBytes);
            && Between(old(telegram.sent), t.upstream, telegram.sent)
            && (!writer.broken && !telegram.failed
                ==> telegram.sent == old(telegram.sent) + t.upstream && writer.frames == old(writer.frames) + t.replies)
    ensures !writer.broken && telegram.failed
            ==> writer.frames != [] && writer.frames[|writer.frames| - 1] == CloseOut(1011, "telegram write failed")
  {
    hide FirstEvent, Sendable, ErrorReply, CloseOut, Then, Deliverable, ServeFrom;
    ghost var max := frames.maxMessageBytes;
    ghost var all := ServeFrom(frames.State(), frames.reader.Rest(), max);
    ghost var left := all;
    while true
      invariant frames.reader.Valid() && writer.Valid() && AllSendable(writer.frames)
      invariant left == ServeFrom(frames.State(), frames.reader.Rest(), max)
      invariant telegram.sent + left.upstream == old(telegram.sent) + all.upstream
      invariant old(telegram.sent) <= telegram.sent
      invariant !writer.broken ==> writer.frames + left.replies == old(writer.frames) + all.replies
      invariant !telegram.failed
      decreases |frames.reader.Rest()|
    {
      ServeStep(frames.State(), frames.reader.Rest(), max);
      FirstEventReportable(frames.State(), frames.reader.Rest(), max);
      var event := frames.NextEvent();
      if event.Err? {
        var close := CloseForReadError(event.error);
        ReplyToError(event.error);
        WriteClose(writer, close.0, close.1);
        return;
      }
      ghost var next := ServeFrom(frames.State(), frames.reader.Rest(), max);
      var more := Handle(event.value, writer, telegram, next);
      if !more { return; }
      left := next;
    }
  }

  lemma ReplyToError(e: ReadError)
    ensures ErrorReply(e) == CloseOut(CloseForReadError(e).0, CloseForReadError(e).1)
  {
  }

  lemma ReplyToClose(payload: seq<byte>)
    ensures var check := ValidateClosePayload(payload);
            if check.Accepted? then CloseReply(payload) == Out(OP_CLOSE, payload)
            else CloseReply(payload) == CloseOut(check.code, check.reason) && Sayable(check.code, check.reason)
  {
    LengthReasons();
  }

  lemma ThenCases(e: Event, rest: Traffic)
    ensures e.opcode == OP_BINARY ==> Then(e, rest) == Traffic(e.payload + rest.upstream, rest.replies)
    ensures e.opcode == OP_CLOSE ==> Then(e, rest) == Traffic([], [CloseReply(e.payload)])
    ensures e.opcode == OP_PING ==> Then(e, rest) == Traffic(rest.upstream, [Out(OP_PONG, e.payload)] + rest.replies)
    ensures e.opcode == OP_PONG ==> Then(e, rest) == rest
    ensures Deliverable(e) ==>
            e.opcode == OP_BINARY || (|e.payload| <= 125
                && (e.opcode == OP_CLOSE || e.opcode == OP_PING || e.opcode == OP_PONG))
  {
  }

  // -------------------------------------------------------- Telegram to client

  datatype ReadEnd = More | Eof | Broken

  /** One read from Telegram: what came, and whether the connection ended with it. */
  datatype Chunk = Chunk(bytes: seq<byte>, end: ReadEnd)

  const BUFFER: nat := 32 * 1024

  function BinaryOf(bytes: seq<byte>): seq<Out> {
    if bytes == [] then [] else [Out(OP_BINARY, bytes)]
  }

  function EndOf(end: ReadEnd): seq<Out> {
    match end
    case More => []
    case Eof => [CloseOut(1000, "telegram closed")]
    case Broken => [CloseOut(1011, "telegram read failed")]
  }

  /** The frames that a run of reads calls for. */
  function Pump(chunks: seq<Chunk>): seq<Out> {
    if chunks == [] then []
    else BinaryOf(chunks[0].bytes) + EndOf(chunks[0].end) + if chunks[0].end.More? then Pump(chunks[1..]) else []
  }

  /** Some of these frames were logged, all of them unless the writer broke. */
  predicate Logged(before: seq<Out>, outs: seq<Out>, after: seq<Out>, broken: bool) {
    before <= after <= before + outs && (!broken ==> after == before + outs)
  }

  lemma LoggedThen(a: seq<Out>, x: seq<Out>, b: seq<Out>, y: seq<Out>, c: seq<Out>, broken: bool, later: bool)
    requires Logged(a, x, b, broken) && Logged(b, y, c, later) && (broken ==> later && c == b)
    ensures Logged(a, x + y, c, later)
  {
  }

  lemma LoggedFirst(a: seq<Out>, x: seq<Out>, y: seq<Out>, b: seq<Out>, broken: bool)
    requires Logged(a, x, b, broken) && (broken || y == [])
    ensures Logged(a, x + y, b, broken)
  {
  }

  method PumpEnd(end: ReadEnd, writer: WebsocketWriter)
    requires writer.Valid() && AllSendable(writer.frames)
    modifies writer, writer.conn
    ensures writer.Valid() && AllSendable(writer.frames)
        && (old(writer.broken) ==> writer.broken && writer.frames == old(writer.frames))
    ensures Logged(old(writer.frames), EndOf(end), writer.frames, writer.broken)
  {
    hide CloseOut, Sendable;
    UpstreamReasons();
    if end.Eof? {
      WriteClose(writer, 1000, "telegram closed");
    } else if end.Broken? {
      WriteClose(writer, 1011, "telegram read failed");
    }
  }

  /** Pass on one read. */
  method PumpChunk(chunk: Chunk, writer: WebsocketWriter) returns (more: bool)
    requires writer.Valid() && AllSendable(writer.frames) && |chunk.bytes| <= BUFFER
    modifies writer, writer.conn
    ensures writer.Valid() && AllSendable(writer.frames)
        && (old(writer.broken) ==> writer.broken && writer.frames == old(writer.frames))
    ensures Logged(old(writer.frames), BinaryOf(chunk.bytes) + EndOf(chunk.end), writer.frames, writer.broken)
    ensures (more ==> chunk.end.More?) && (!more && chunk.end.More? ==> writer.broken)
  {
    hide EndOf, Sendable;
    if |chunk.bytes| > 0 {
      BinarySendable(chunk.bytes);
      var ok := writer.WriteFrame(OP_BINARY, chunk.bytes);
      if !ok {
        LoggedFirst(old(writer.frames), BinaryOf(chunk.bytes), EndOf(chunk.end), writer.frames, writer.broken);
        return false;
      }
    }
    ghost var middle, broken := writer.frames, writer.broken;
    PumpEnd(chunk.end, writer);
    LoggedThen(old(writer.frames), BinaryOf(chunk.bytes), middle, EndOf(chunk.end), writer.frames, broken,
               writer.broken);
    more := chunk.end.More?;
  }

  /** Pass on what is read until the connection ends or a write fails. */
  method PumpLoop(chunks: seq<Chunk>, writer: WebsocketWriter)
    requires writer.Valid() && AllSendable(writer.frames)
    requires forall c :: c in chunks ==> |c.bytes| <= BUFFER
    modifies writer, writer.conn
    ensures writer.Valid() && AllSendable(writer.frames)
    ensures Logged(old(writer.frames), Pump(chunks), writer.frames, writer.broken)
  {
    hide EndOf, BinaryOf, Sendable, Logged;
    var i := 0;
    ghost var done: seq<Out> := [];
    assert chunks[0..] == chunks;
    LoggedNothing(writer.frames, writer.broken);
    while i < |chunks|
      invariant 0 <= i <= |chunks|
      invariant writer.Valid() && AllSendable(writer.frames)
      invariant Pump(chunks) == done + Pump(chunks[i..])
      invariant Logged(old(writer.frames), done, writer.frames, writer.broken)
    {
      assert chunks[i..][1..] == chunks[i + 1..];
      ghost var outs := BinaryOf(chunks[i].bytes) + EndOf(chunks[i].end);
      ghost var before, broken := writer.frames, writer.broken;
      var more := PumpChunk(chunks[i], writer);
      LoggedThen(old(writer.frames), done, before, outs, writer.frames, broken, writer.broken);
      ghost var rest := if chunks[i].end.More? then Pump(chunks[i + 1..]) else [];
      Outs(done, outs, rest);
      done := done + outs;
      if !more {
        LoggedFirst(old(writer.frames), done, rest, writer.frames, writer.broken);
        return;
      }
      i := i + 1;
    }
    assert done + Pump(chunks[i..]) == done;
  }

  lemma LoggedNothing(frames: seq<Out>, broken: bool)
    ensures Logged(frames, [], frames, broken)
  {
  }

  lemma Outs(a: seq<Out>, b: seq<Out>, c: seq<Out>)
    ensures a + (b + c) == a + b + c
  {
  }

  lemma BinarySendable(bytes: seq<byte>)
    requires |bytes| <= BUFFER
    ensures Sendable(Out(OP_BINARY, bytes))
  {
  }

  /** The bytes that a run of reads brings. */
  function BytesRead(chunks: seq<Chunk>): seq<byte> {
    if chunks == [] then []
    else chunks[0].bytes + if chunks[0].end.More? then BytesRead(chunks[1..]) else []
  }

  function FrameData(f: Out): seq<byte> {
    if f.opcode == OP_BINARY then f.payload else []
  }

  /** The data in a run of server frames. */
  function BinaryData(frames: seq<Out>): seq<byte> {
    if frames == [] then [] else FrameData(frames[0]) + BinaryData(frames[1..])
  }

  lemma {:induction false} BinaryDataAppend(a: seq<Out>, b: seq<Out>)
    ensures BinaryData(a + b) == BinaryData(a) + BinaryData(b)
  {
    hide FrameData;
    if a == [] {
      assert a + b == b;
    } else {
      BinaryDataAppend(a[1..], b);
      assert (a + b)[1..] == a[1..] + b;
      Joined(FrameData(a[0]), BinaryData(a[1..]), BinaryData(b));
    }
  }

  lemma Joined(a: seq<byte>, b: seq<byte>, c: seq<byte>)
    ensures a + (b + c) == a + b + c
  {
  }

  lemma ChunkData(c: Chunk)
    ensures BinaryData(BinaryOf(c.bytes) + EndOf(c.end)) == c.bytes
  {
    BinaryDataAppend(BinaryOf(c.bytes), EndOf(c.end));
    assert BinaryOf(c.bytes) != [] ==> BinaryOf(c.bytes)[1..] == [];
    assert EndOf(c.end) != [] ==> EndOf(c.end)[1..] == [];
  }

  lemma {:induction false} PumpKeepsBytes(chunks: seq<Chunk>)
    ensures BinaryData(Pump(chunks)) == BytesRead(chunks)
  {
    if chunks != [] {
      hide BinaryOf, EndOf;
      var c := chunks[0];
      PumpKeepsBytes(chunks[1..]);
      ChunkData(c);
      BinaryDataAppend(BinaryOf(c.bytes) + EndOf(c.end), if c.end.More? then Pump(chunks[1..]) else []);
    }
  }

  /** End to end: a client that decodes what the relay wrote finds exactly the bytes that came
      from Telegram, however they were cut into reads. */
  lemma ClientReceivesTelegram(chunks: seq<Chunk>)
    requires forall c :: c in chunks ==> |c.bytes| <= BUFFER
    ensures ParseOuts(EncodeOuts(Pump(chunks))) == Pump(chunks)
    ensures BinaryData(ParseOuts(EncodeOuts(Pump(chunks)))) == BytesRead(chunks)
  {
    hide ParseOut, EncodeOut;
    PumpLegal(chunks);
    ParseEncodeOuts(Pump(chunks), []);
    assert EncodeOuts(Pump(chunks)) + [] == EncodeOuts(Pump(chunks));
    assert ParseOuts([]) == [] by { NothingParsed(); }
    PumpKeepsBytes(chunks);
  }

  lemma NothingParsed()
    ensures ParseOuts([]) == []
  {
  }

  lemma {:induction false} PumpLegal(chunks: seq<Chunk>)
    requires forall c :: c in chunks ==> |c.bytes| <= BUFFER
    ensures forall f :: f in Pump(chunks) ==> LegalOut(f)
  {
    hide CloseOut, LegalOut;
    if chunks != [] {
      PumpLegal(chunks[1..]);
      ClosesLegal();
      BinaryLegal(chunks[0].bytes);
    }
  }

  lemma ClosesLegal()
    ensures LegalOut(CloseOut(1000, "telegram closed")) && LegalOut(CloseOut(1011, "telegram read failed"))
  {
  }

  lemma BinaryLegal(bytes: seq<byte>)
    ensures |bytes| <= BUFFER ==> LegalOut(Out(OP_BINARY, bytes))
  {
  }

  // --------------------------------------------------------------- end to end up

  /** The bytes of the messages in a client's items. */
  function Messages(items: seq<Item>): seq<byte> {
    if items == [] then []
    else
      var last := items[|items| - 1];
      Messages(items[..|items| - 1]) + if last.Message? then Whole(last.pieces) else []
  }

  predicate NoClose(frames: seq<Frame>) {
    forall f :: f in frames ==> f.opcode != OP_CLOSE
  }

  lemma {:induction false} ServeAppend(a: seq<Event>, b: seq<Event>, error: ReadError)
    requires forall e :: e in a ==> e.opcode == OP_BINARY || e.opcode == OP_PING || e.opcode == OP_PONG
    ensures Serve(a + b, error).upstream == Delivered(a) + Serve(b, error).upstream
  {
    hide Then, EventBytes, ErrorReply;
    if a == [] {
      assert a + b == b;
    } else {
      ServeAppend(a[1..], b, error);
      assert (a + b)[1..] == a[1..] + b && a[0] in a;
      ThenUpstream(a[0], Serve(a[1..] + b, error));
      Joined(EventBytes(a[0]), Delivered(a[1..]), Serve(b, error).upstream);
    }
  }

  lemma ThenUpstream(e: Event, rest: Traffic)
    requires e.opcode == OP_BINARY || e.opcode == OP_PING || e.opcode == OP_PONG
    ensures Then(e, rest).upstream == EventBytes(e) + rest.upstream
  {
  }

  lemma {:induction false} DeliveredAppend(a: seq<Event>, b: seq<Event>)
    ensures Delivered(a + b) == Delivered(a) + Delivered(b)
  {
    hide EventBytes;
    if a == [] {
      assert a + b == b;
    } else {
      DeliveredAppend(a[1..], b);
      assert (a + b)[1..] == a[1..] + b;
      Joined(EventBytes(a[0]), Delivered(a[1..]), Delivered(b));
    }
  }

  lemma {:induction false} ControlsCarryNothing(frames: seq<Frame>)
    requires AllControl(frames)
    ensures Delivered(AsEvents(frames)) == []
  {
    if frames != [] {
      ControlsCarryNothing(frames[1..]);
      assert AsEvents(frames)[1..] == AsEvents(frames[1..]);
      assert frames[0] in frames;
    }
  }

  lemma {:induction false} ControlsOfPieces(pieces: seq<Piece>)
    requires forall p :: p in pieces ==> AllControl(p.before) && NoClose(p.before)
    ensures AllControl(Controls(pieces)) && NoClose(Controls(pieces))
  {
    if pieces != [] {
      ControlsOfPieces(pieces[..|pieces| - 1]);
    }
  }

  /** A client item without a Close frame. */
  predicate Plain(item: Item) {
    match item
    case Alone(f) => NoClose([f])
    case Message(pieces) => forall p :: p in pieces ==> NoClose(p.before)
  }

  lemma ItemCarries(item: Item)
    requires Proper(item) && Plain(item)
    ensures Delivered(ItemEvents(item)) == if item.Message? then Whole(item.pieces) else []
    ensures forall e :: e in ItemEvents(item) ==> e.opcode == OP_BINARY || e.opcode == OP_PING || e.opcode == OP_PONG
  {
    match item
    case Alone(f) => ControlsCarryNothing([f]);
    case Message(pieces) =>
      hide Whole, Controls, Delivered, AllControl;
      ControlsOfPieces(pieces);
      ControlsCarryNothing(Controls(pieces));
      var last := [Event(OP_BINARY, Whole(pieces))];
      DeliveredAppend(AsEvents(Controls(pieces)), last);
      assert Delivered(last) == Whole(pieces) by { OneDelivered(last[0]); }
  }

  lemma OneDelivered(e: Event)
    ensures Delivered([e]) == EventBytes(e)
  {
    assert [e][1..] == [];
  }

  lemma {:induction false} ItemsCarry(items: seq<Item>)
    requires forall i :: i in items ==> Proper(i) && Plain(i)
    ensures Delivered(Events(items)) == Messages(items)
    ensures forall e :: e in Events(items) ==> e.opcode == OP_BINARY || e.opcode == OP_PING || e.opcode == OP_PONG
  {
    hide Plain, ItemEvents;
    if items != [] {
      var k := |items| - 1;
      ItemsCarry(items[..k]);
      ItemCarries(items[k]);
      DeliveredAppend(Events(items[..k]), ItemEvents(items[k]));
    }
  }

  /** End to end: a client's messages reach Telegram as one byte stream, in order, whatever the
      fragments, the masks and the pings between them. */
  lemma TelegramReceivesClient(items: seq<Item>, masks: seq<seq<byte>>, tail: seq<byte>, max: int)
    requires forall i :: i in items ==> Proper(i) && Plain(i) && Fits(i, max)
    requires forall f :: f in Wire(items) ==> Legal(f, max)
    requires |masks| == |Wire(items)| && forall m :: m in masks ==> |m| == 4
    ensures ServeFrom(IDLE, EncodeAll(Wire(items), masks) + tail, max).upstream
            == Messages(items) + ServeFrom(IDLE, tail, max).upstream
  {
    hide Session, Plain, Legal, Serve;
    DeliveryOnBytes(items, masks, tail, max);
    ItemsCarry(items);
    RepliesSendable(IDLE, tail, max);
    var s := Session(IDLE, tail, max);
    ServeAppend(Events(items), s.events, s.error.value);
  }
}
