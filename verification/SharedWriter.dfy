/** One connection with its three goroutines: the pump from Telegram, the reader of the client and
    the heartbeat write frames to the client in any order, each frame under the lock of the writer.
    Any write may fail, after any part of its frame. */
module SharedWriter {
  import opened Bytes
  import opened Frames
  import opened FrameReader
  import opened Reassembly
  import opened FrameWriter
  import opened Closing
  import opened Bridge
  import Heartbeat

  datatype Origin = FromPump | FromReader | FromBeat

  datatype Entry = Entry(origin: Origin, frame: Out)

  datatype Pumping =
    | Reading(next: nat)
    | Sending(next: nat)  // a chunk was read, its frame is to be written
    | Ending(next: nat)   // the connection to Telegram ended, the Close is to be written
    | PumpDone

  datatype Reader =
    | Listening(a: Assembly, rest: seq<byte>)
    | Replying(frame: Out, a: Assembly, rest: seq<byte>, last: bool)
    | ReaderDone

  datatype Beating = Beating(n: nat) | BeatDone

  /** `log` says which goroutine wrote each frame of the line. */
  datatype Bond = Bond(
    line: Line, log: seq<Entry>, pump: Pumping, reader: Reader, beat: Beating, upstream: seq<byte>,
        telegramFailed: bool)

  /** What the connection is given: the reads from Telegram, the bytes of the client, the limit. */
  datatype World = World(chunks: seq<Chunk>, input: seq<byte>, max: int)

  function Start(w: World): Bond {
    Bond(Line([], [], false), [], Reading(0), Listening(IDLE, w.input), Beating(0), [], false)
  }

  /** `ok` is the outcome of a write and `part` how much a failed one took. */
  datatype Action =
    | PumpRead
    | PumpSend(ok: bool, part: nat)
    | PumpClose(ok: bool, part: nat)
    | ReaderTake(taken: bool, part: nat)  // whether Telegram takes a message, or how much of it
    | ReaderReply(ok: bool, part: nat)
    | BeatPing(ok: bool, part: nat)
    | BeatStop

  predicate Enabled(w: World, s: Bond, a: Action) {
    match a
    case PumpRead => s.pump.Reading? && s.pump.next < |w.chunks|
    case PumpSend(_, _) => s.pump.Sending? && s.pump.next < |w.chunks|
    case PumpClose(_, _) => s.pump.Ending? && s.pump.next < |w.chunks| && !w.chunks[s.pump.next].end.More?
    case ReaderTake(_, _) => s.reader.Listening?
    case ReaderReply(_, _) => s.reader.Replying?
    case BeatPing(_, _) => s.beat.Beating? && s.beat.n + 1 < TWO_64
    case BeatStop => s.beat.Beating?
  }

  // ------------------------------------------------------------------ one write

  function Written(l: Line, f: Out, ok: bool, part: nat): Line {
    var bytes := EncodeOut(f);
    var taken := if ok || part > |bytes| then bytes else bytes[..part];
    Line(l.sent + taken, if l.broken || !ok then l.frames else l.frames + [f], l.broken || !ok)
  }

  /** These are the writes that the shared writer performs. */
  lemma WrittenExact(l: Line, f: Out, ok: bool, after: Line)
    ensures Wrote(l, f, ok, after) <==> exists part: nat :: after == Written(l, f, ok, part)
  {
    hide EncodeOut;
    var bytes := EncodeOut(f);
    if Wrote(l, f, ok, after) {
      var part: nat := |after.sent| - |l.sent|;
      assert part <= |bytes|;
      assert after.sent == (l.sent + bytes)[..|after.sent|] == l.sent + bytes[..part];
      assert bytes[..|bytes|] == bytes;
      assert after == Written(l, f, ok, part);
    }
    forall part: nat | after == Written(l, f, ok, part) ensures Wrote(l, f, ok, after) {
    }
  }

  function Write(s: Bond, who: Origin, f: Out, ok: bool, part: nat): Bond {
    s.(line := Written(s.line, f, ok, part), log := if s.line.broken || !ok then s.log else s.log + [Entry(who, f)])
  }

  // -------------------------------------------------------------------- the steps

  function AfterChunk(c: Chunk, i: nat): Pumping {
    if c.end.More? then Reading(i + 1) else Ending(i)
  }

  /** What the reader does with one event, `after` and `rest` being what is read after it. */
  function React(s: Bond, e: Event, after: Assembly, rest: seq<byte>, taken: bool, part: nat): Bond {
    if e.opcode == OP_BINARY then
      if taken then s.(reader := Listening(after, rest), upstream := s.upstream + e.payload)
      else
        s.(reader := Replying(CloseOut(1011, "telegram write failed"), after, [], true),
           upstream := s.upstream + (if part <= |e.payload| then e.payload[..part] else e.payload),
           telegramFailed := true)
    else if e.opcode == OP_CLOSE then s.(reader := Replying(CloseReply(e.payload), after, [], true))
    else if e.opcode == OP_PING then s.(reader := Replying(Out(OP_PONG, e.payload), after, rest, false))
    else if e.opcode == OP_PONG then s.(reader := Listening(after, rest))
    else s.(reader := Replying(CloseOut(1002, "unsupported opcode"), after, [], true))
  }

  /** The reader acts on its next event, or says what is wrong with the stream. */
  function Take(w: World, s: Bond, taken: bool, part: nat): Bond
    requires s.reader.Listening?
  {
    match FirstEvent(s.reader.a, s.reader.rest, w.max)
    case Stopped(after, error) => s.(reader := Replying(ErrorReply(error), after, [], true))
    case Got(e, after, rest) => React(s, e, after, rest, taken, part)
  }

  function PingOut(n: nat): Out {
    Out(OP_PING, Heartbeat.PingPayload(n))
  }

  function Step(w: World, s: Bond, a: Action): Bond
    requires Enabled(w, s, a)
  {
    match a
    case PumpRead =>
      var c := w.chunks[s.pump.next];
      s.(pump := if c.bytes == [] then AfterChunk(c, s.pump.next) else Sending(s.pump.next))
    case PumpSend(ok, part) =>
      var c := w.chunks[s.pump.next];
      var next := if ok then AfterChunk(c, s.pump.next) else PumpDone;
      Write(s, FromPump, Out(OP_BINARY, c.bytes), ok, part).(pump := next)
    case PumpClose(ok, part) =>
      Write(s, FromPump, EndOf(w.chunks[s.pump.next].end)[0], ok, part).(pump := PumpDone)
    case ReaderTake(taken, part) => Take(w, s, taken, part)
    case ReaderReply(ok, part) =>
      var next := if ok && !s.reader.last then Listening(s.reader.a, s.reader.rest) else ReaderDone;
      Write(s, FromReader, s.reader.frame, ok, part).(reader := next)
    case BeatPing(ok, part) =>
      Write(s, FromBeat, PingOut(s.beat.n + 1), ok, part).(beat := if ok then Beating(s.beat.n + 1) else BeatDone)
    case BeatStop => s.(beat := BeatDone)
  }

  predicate Runs(w: World, s: Bond, actions: seq<Action>)
    decreases |actions|
  {
    actions == [] || (Enabled(w, s, actions[0]) && Runs(w, Step(w, s, actions[0]), actions[1..]))
  }

  function Run(w: World, s: Bond, actions: seq<Action>): Bond
    requires Runs(w, s, actions)
    decreases |actions|
  {
    if actions == [] then s else Run(w, Step(w, s, actions[0]), actions[1..])
  }

  // ------------------------------------------------------------------ invariant

  function FramesOf(log: seq<Entry>): (r: seq<Out>)
    ensures |r| == |log|
  {
    seq(|log|, i requires 0 <= i < |log| => log[i].frame)
  }

  /** The frames of one goroutine, in order. */
  function By(log: seq<Entry>, who: Origin): seq<Out> {
    if log == [] then []
    else By(log[..|log| - 1], who) + if log[|log| - 1].origin == who then [log[|log| - 1].frame] else []
  }

  /** The frames that the pump has still to write. */
  function PumpLeft(w: World, p: Pumping): seq<Out> {
    match p
    case Reading(i) => if i <= |w.chunks| then Pump(w.chunks[i..]) else []
    case Sending(i) => if i <= |w.chunks| then Pump(w.chunks[i..]) else []
    case Ending(i) => if i < |w.chunks| then EndOf(w.chunks[i].end) else []
    case PumpDone => []
  }

  /** What the reader has still to do. */
  function ReaderLeft(w: World, r: Reader): Traffic {
    match r
    case Listening(a, rest) => ServeFrom(a, rest, w.max)
    case Replying(f, a, rest, last) =>
      if last then Traffic([], [f])
      else Traffic(ServeFrom(a, rest, w.max).upstream, [f] + ServeFrom(a, rest, w.max).replies)
    case ReaderDone => Traffic([], [])
  }

  function Pings(n: nat): seq<Out> {
    if n == 0 then [] else Pings(n - 1) + [PingOut(n)]
  }

  predicate PumpGood(w: World, s: Bond) {
    && (match s.pump
        case Reading(i) => i <= |w.chunks|
        case Sending(i) => i < |w.chunks| && w.chunks[i].bytes != []
        case Ending(i) => i < |w.chunks| && !w.chunks[i].end.More?
        case PumpDone => true)
    && By(s.log, FromPump) <= Pump(w.chunks)
    && (!s.line.broken ==> By(s.log, FromPump) + PumpLeft(w, s.pump) == Pump(w.chunks))
  }

  predicate ReaderGood(w: World, s: Bond) {
    var all := ServeFrom(IDLE, w.input, w.max);
    && (s.reader.Replying? ==> Sendable(s.reader.frame) && s.reader.frame.opcode != OP_BINARY)
    && (s.telegramFailed ==> s.reader.ReaderDone? || (s.reader.Replying? && s.reader.last))
    && s.upstream <= all.upstream
    && ((!s.line.broken || !s.reader.ReaderDone?) && !s.telegramFailed ==>
          s.upstream + ReaderLeft(w, s.reader).upstream == all.upstream)
    && (!s.line.broken && !s.telegramFailed ==>
          By(s.log, FromReader) + ReaderLeft(w, s.reader).replies == all.replies)
  }

  predicate BeatGood(s: Bond) {
    !s.line.broken && s.beat.Beating? ==> By(s.log, FromBeat) == Pings(s.beat.n)
  }

  predicate LineGood(s: Bond) {
    && FramesOf(s.log) == s.line.frames
    && AllSendable(s.line.frames)
    && (forall e :: e in s.log && e.origin != FromPump ==> e.frame.opcode != OP_BINARY)
    && (if s.line.broken then EncodeOuts(s.line.frames) <= s.line.sent else s.line.sent == EncodeOuts(s.line.frames))
  }

  predicate Inv(w: World, s: Bond) {
    LineGood(s) && PumpGood(w, s) && ReaderGood(w, s) && BeatGood(s)
  }

  lemma StartInv(w: World)
    ensures Inv(w, Start(w))
  {
    hide ServeFrom, Pump;
    assert w.chunks[0..] == w.chunks;
  }

  // ------------------------------------------------------------- writing a frame

  lemma ByPush(log: seq<Entry>, e: Entry, who: Origin)
    ensures By(log + [e], who) == By(log, who) + if e.origin == who then [e.frame] else []
  {
    assert (log + [e])[..|log|] == log;
  }

  lemma WriteLine(s: Bond, who: Origin, f: Out, ok: bool, part: nat)
    requires LineGood(s) && Sendable(f) && (who != FromPump ==> f.opcode != OP_BINARY)
    ensures LineGood(Write(s, who, f, ok, part))
  {
    hide Sendable, EncodeOut;
    var t := Write(s, who, f, ok, part);
    if !s.line.broken && ok {
      assert (s.line.frames + [f])[..|s.line.frames|] == s.line.frames;
      assert FramesOf(t.log) == FramesOf(s.log) + [f];
    }
  }

  /** What a write does to the frames of one goroutine. */
  lemma WriteBy(s: Bond, who: Origin, f: Out, ok: bool, part: nat, other: Origin)
    ensures var t := Write(s, who, f, ok, part);
            && t.line.broken == (s.line.broken || !ok)
            && By(t.log, other) == By(s.log, other) + if !t.line.broken && other == who then [f] else []
  {
    hide EncodeOut;
    ByPush(s.log, Entry(who, f), other);
  }

  // -------------------------------------------------------------------- the pump

  lemma ChunkFrames(chunks: seq<Chunk>, i: nat)
    requires i < |chunks|
    ensures Pump(chunks[i..]) == BinaryOf(chunks[i].bytes) + EndOf(chunks[i].end)
        + if chunks[i].end.More? then Pump(chunks[i + 1..]) else []
    ensures chunks[i].end.More? ==> EndOf(chunks[i].end) == []
    ensures !chunks[i].end.More? ==> |EndOf(chunks[i].end)| == 1 && EndOf(chunks[i].end)[0].opcode == OP_CLOSE
  {
    assert chunks[i..][1..] == chunks[i + 1..];
  }

  lemma EndSendable(end: ReadEnd)
    requires !end.More?
    ensures Sendable(EndOf(end)[0])
  {
    hide Sendable, CloseOut;
    UpstreamReasons();
    CloseSendable(1000, "telegram closed");
    CloseSendable(1011, "telegram read failed");
  }

  lemma PumpReadGood(w: World, s: Bond)
    requires PumpGood(w, s) && Enabled(w, s, PumpRead)
    ensures PumpGood(w, Step(w, s, PumpRead))
  {
    hide Pump, By, EndOf;
    ChunkFrames(w.chunks, s.pump.next);
    AfterLeft(w, s.pump.next);
  }

  /** After a chunk's own frame its end and the rest are left. */
  lemma AfterLeft(w: World, i: nat)
    requires i < |w.chunks|
    ensures var next := AfterChunk(w.chunks[i], i);
            PumpLeft(w, next) == EndOf(w.chunks[i].end) + if w.chunks[i].end.More? then Pump(w.chunks[i + 1..]) else []
  {
    hide Pump, CloseOut;
  }

  lemma PumpSendGood(w: World, s: Bond, ok: bool, part: nat)
    requires PumpGood(w, s) && Enabled(w, s, PumpSend(ok, part))
    ensures PumpGood(w, Step(w, s, PumpSend(ok, part)))
  {
    hide Pump, By, EndOf, Write, PumpLeft;
    var i := s.pump.next;
    var f := Out(OP_BINARY, w.chunks[i].bytes);
    ChunkFrames(w.chunks, i);
    AfterLeft(w, i);
    SendingLeft(w, i);
    WriteBy(s, FromPump, f, ok, part, FromPump);
    var before, after := By(s.log, FromPump), PumpLeft(w, AfterChunk(w.chunks[i], i));
    Outs(before, [f], after);
    DoneLeft(w);
  }

  lemma SendingLeft(w: World, i: nat)
    requires i < |w.chunks|
    ensures PumpLeft(w, Sending(i)) == Pump(w.chunks[i..]) && PumpLeft(w, Ending(i)) == EndOf(w.chunks[i].end)
  {
  }

  lemma DoneLeft(w: World)
    ensures PumpLeft(w, PumpDone) == []
  {
  }

  lemma PumpCloseGood(w: World, s: Bond, ok: bool, part: nat)
    requires PumpGood(w, s) && Enabled(w, s, PumpClose(ok, part))
    ensures PumpGood(w, Step(w, s, PumpClose(ok, part)))
  {
    hide Pump, By, EndOf, Write, PumpLeft;
    var i := s.pump.next;
    ChunkFrames(w.chunks, i);
    SendingLeft(w, i);
    DoneLeft(w);
    WriteBy(s, FromPump, EndOf(w.chunks[i].end)[0], ok, part, FromPump);
  }

  /** Steps of the others leave the pump where it is. */
  lemma PumpUntouched(w: World, s: Bond, who: Origin, f: Out, ok: bool, part: nat)
    requires PumpGood(w, s) && who != FromPump
    ensures PumpGood(w, Write(s, who, f, ok, part))
  {
    hide Pump, By, Write, PumpLeft;
    WriteBy(s, who, f, ok, part, FromPump);
    WriteKeeps(s, who, f, ok, part);
  }

  lemma WriteKeeps(s: Bond, who: Origin, f: Out, ok: bool, part: nat)
    ensures var t := Write(s, who, f, ok, part);
            t.pump == s.pump && t.reader == s.reader && t.beat == s.beat && t.upstream == s.upstream
                && t.telegramFailed == s.telegramFailed
  {
  }

  // ------------------------------------------------------------------- the reader

  lemma TakeGood(w: World, s: Bond, taken: bool, part: nat)
    requires ReaderGood(w, s) && s.reader.Listening?
    ensures ReaderGood(w, Take(w, s, taken, part))
  {
    hide FirstEvent, ServeFrom, Sendable, ErrorReply, By, Then, Deliverable, React, Reportable;
    var a, rest := s.reader.a, s.reader.rest;
    ServeStep(a, rest, w.max);
    FirstEventReportable(a, rest, w.max);
    match FirstEvent(a, rest, w.max)
    case Stopped(after, error) =>
      ErrorReplySendable(error);
      ErrorReplyCloses(error);
    case Got(e, after, left) =>
      ReactGood(w, s, e, after, left, taken, part);
  }

  lemma ReactGood(w: World, s: Bond, e: Event, after: Assembly, rest: seq<byte>, taken: bool, part: nat)
    requires ReaderGood(w, s) && s.reader.Listening? && Deliverable(e)
    requires ServeFrom(s.reader.a, s.reader.rest, w.max) == Then(e, ServeFrom(after, rest, w.max))
    ensures ReaderGood(w, React(s, e, after, rest, taken, part))
  {
    hide ServeFrom, Sendable, CloseReply, CloseOut, By, Then, Deliverable;
    var t := ServeFrom(after, rest, w.max);
    ThenCases(e, t);
    if e.opcode == OP_BINARY {
      ForwardGood(w, s, e.payload, after, rest, taken, part);
    } else if e.opcode == OP_CLOSE {
      CloseReplySendable(e.payload);
      CloseOuts(e.payload);
    } else if e.opcode == OP_PING {
      PongSendable(e.payload);
    }
  }

  lemma ForwardGood(w: World, s: Bond, payload: seq<byte>, after: Assembly, rest: seq<byte>, taken: bool, part: nat)
    requires ReaderGood(w, s) && s.reader.Listening?
    requires var all := ServeFrom(s.reader.a, s.reader.rest, w.max);
             all.upstream == payload + ServeFrom(after, rest, w.max).upstream
                 && all.replies == ServeFrom(after, rest, w.max).replies
    ensures ReaderGood(w, React(s, Event(OP_BINARY, payload), after, rest, taken, part))
  {
    hide ServeFrom, Sendable, CloseOut, By;
    UpstreamReasons();
    CloseSendable(1011, "telegram write failed");
    CloseOuts(payload);
    var up := ServeFrom(after, rest, w.max).upstream;
    Joined(s.upstream, payload, up);
    if !taken && part <= |payload| {
      Joined(payload[..part], payload[part..], up);
      Joined(s.upstream, payload[..part], payload[part..] + up);
    }
  }

  lemma ErrorReplyCloses(e: ReadError)
    ensures ErrorReply(e).opcode == OP_CLOSE
  {
  }

  lemma CloseOuts(payload: seq<byte>)
    ensures CloseReply(payload).opcode == OP_CLOSE && CloseOut(1011, "telegram write failed").opcode == OP_CLOSE
  {
  }

  lemma ReplyGood(w: World, s: Bond, ok: bool, part: nat)
    requires ReaderGood(w, s) && Enabled(w, s, ReaderReply(ok, part))
    ensures ReaderGood(w, Step(w, s, ReaderReply(ok, part)))
  {
    hide ServeFrom, Sendable, By, Write;
    WriteBy(s, FromReader, s.reader.frame, ok, part, FromReader);
    WriteKeeps(s, FromReader, s.reader.frame, ok, part);
    Outs(By(s.log, FromReader), [s.reader.frame], ServeFrom(s.reader.a, s.reader.rest, w.max).replies);
  }

  lemma ReaderUntouched(w: World, s: Bond, who: Origin, f: Out, ok: bool, part: nat)
    requires ReaderGood(w, s) && who != FromReader
    ensures ReaderGood(w, Write(s, who, f, ok, part))
  {
    hide ServeFrom, Sendable, By, Write, ReaderLeft;
    WriteBy(s, who, f, ok, part, FromReader);
    WriteKeeps(s, who, f, ok, part);
  }

  // ---------------------------------------------------------------- the heartbeat

  lemma PingSendable(n: nat)
    ensures Sendable(PingOut(n))
  {
    hide ToBytes;
  }

  lemma PingIsNoData(n: nat)
    ensures PingOut(n).opcode != OP_BINARY
  {
  }

  lemma BeatUntouched(s: Bond, who: Origin, f: Out, ok: bool, part: nat)
    requires BeatGood(s) && who != FromBeat
    ensures BeatGood(Write(s, who, f, ok, part))
  {
    hide By, Write, Pings;
    WriteBy(s, who, f, ok, part, FromBeat);
    WriteKeeps(s, who, f, ok, part);
  }

  lemma BeatPingGood(w: World, s: Bond, ok: bool, part: nat)
    requires BeatGood(s) && Enabled(w, s, BeatPing(ok, part))
    ensures BeatGood(Step(w, s, BeatPing(ok, part)))
  {
    hide By, Write, PingOut;
    WriteBy(s, FromBeat, PingOut(s.beat.n + 1), ok, part, FromBeat);
  }

  // ------------------------------------------------------------------- every step

  lemma LineSame(s: Bond, t: Bond)
    requires LineGood(s) && t.line == s.line && t.log == s.log
    ensures LineGood(t)
  {
    hide Sendable, EncodeOuts, AllSendable, FramesOf;
  }

  lemma PumpSame(w: World, s: Bond, t: Bond)
    requires PumpGood(w, s) && t.line == s.line && t.log == s.log && t.pump == s.pump
    ensures PumpGood(w, t)
  {
    hide By, Pump, PumpLeft;
  }

  lemma ReaderSame(w: World, s: Bond, t: Bond)
    requires ReaderGood(w, s) && t.line == s.line && t.log == s.log
    requires t.reader == s.reader && t.upstream == s.upstream && t.telegramFailed == s.telegramFailed
    ensures ReaderGood(w, t)
  {
    hide By, ServeFrom, ReaderLeft, Sendable;
  }

  lemma BeatSame(s: Bond, t: Bond)
    requires BeatGood(s) && t.line == s.line && t.log == s.log && t.beat == s.beat
    ensures BeatGood(t)
  {
    hide By, Pings;
  }

  lemma TakeKeeps(w: World, s: Bond, taken: bool, part: nat)
    requires s.reader.Listening?
    ensures var t := Take(w, s, taken, part);
            t.line == s.line && t.log == s.log && t.pump == s.pump && t.beat == s.beat
  {
    hide FirstEvent, CloseReply, CloseOut, ErrorReply;
  }

  lemma StepInv(w: World, s: Bond, a: Action)
    requires Inv(w, s) && Enabled(w, s, a) && forall c :: c in w.chunks ==> |c.bytes| <= BUFFER
    ensures Inv(w, Step(w, s, a))
  {
    match a
    case PumpRead => ReadInv(w, s);
    case PumpSend(ok, part) => SendInv(w, s, ok, part);
    case PumpClose(ok, part) => CloseInv(w, s, ok, part);
    case ReaderTake(taken, part) => TakeInv(w, s, taken, part);
    case ReaderReply(ok, part) => ReplyInv(w, s, ok, part);
    case BeatPing(ok, part) => PingInv(w, s, ok, part);
    case BeatStop => StopInv(w, s);
  }

  lemma ReadInv(w: World, s: Bond)
    requires Inv(w, s) && Enabled(w, s, PumpRead)
    ensures Inv(w, Step(w, s, PumpRead))
  {
    hide LineGood, PumpGood, ReaderGood, BeatGood;
    var t := Step(w, s, PumpRead);
    PumpReadGood(w, s);
    LineSame(s, t);
    ReaderSame(w, s, t);
    BeatSame(s, t);
  }

  lemma SendInv(w: World, s: Bond, ok: bool, part: nat)
    requires Inv(w, s) && Enabled(w, s, PumpSend(ok, part)) && forall c :: c in w.chunks ==> |c.bytes| <= BUFFER
    ensures Inv(w, Step(w, s, PumpSend(ok, part)))
  {
    hide LineGood, PumpGood, ReaderGood, BeatGood, Write, Sendable;
    var c := w.chunks[s.pump.next];
    PumpSendGood(w, s, ok, part);
    BinarySendable(c.bytes);
    PumpWrote(w, s, Out(OP_BINARY, c.bytes), ok, part, Step(w, s, PumpSend(ok, part)));
  }

  lemma CloseInv(w: World, s: Bond, ok: bool, part: nat)
    requires Inv(w, s) && Enabled(w, s, PumpClose(ok, part))
    ensures Inv(w, Step(w, s, PumpClose(ok, part)))
  {
    hide LineGood, PumpGood, ReaderGood, BeatGood, Write, Sendable, EndOf;
    var end := w.chunks[s.pump.next].end;
    ChunkFrames(w.chunks, s.pump.next);
    PumpCloseGood(w, s, ok, part);
    EndSendable(end);
    PumpWrote(w, s, EndOf(end)[0], ok, part, Step(w, s, PumpClose(ok, part)));
  }

  /** A write by the pump, whatever the pump does next. */
  lemma PumpWrote(w: World, s: Bond, f: Out, ok: bool, part: nat, t: Bond)
    requires Inv(w, s) && Sendable(f) && t == Write(s, FromPump, f, ok, part).(pump := t.pump)
    ensures LineGood(t) && ReaderGood(w, t) && BeatGood(t)
  {
    hide LineGood, PumpGood, ReaderGood, BeatGood, Write, Sendable;
    var u := Write(s, FromPump, f, ok, part);
    WriteLine(s, FromPump, f, ok, part);
    ReaderUntouched(w, s, FromPump, f, ok, part);
    BeatUntouched(s, FromPump, f, ok, part);
    LineSame(u, t);
    ReaderSame(w, u, t);
    BeatSame(u, t);
  }

  lemma TakeInv(w: World, s: Bond, taken: bool, part: nat)
    requires Inv(w, s) && Enabled(w, s, ReaderTake(taken, part))
    ensures Inv(w, Step(w, s, ReaderTake(taken, part)))
  {
    hide LineGood, PumpGood, ReaderGood, BeatGood, Take;
    var t := Take(w, s, taken, part);
    TakeGood(w, s, taken, part);
    TakeKeeps(w, s, taken, part);
    LineSame(s, t);
    PumpSame(w, s, t);
    BeatSame(s, t);
  }

  lemma ReplyInv(w: World, s: Bond, ok: bool, part: nat)
    requires Inv(w, s) && Enabled(w, s, ReaderReply(ok, part))
    ensures Inv(w, Step(w, s, ReaderReply(ok, part)))
  {
    hide LineGood, PumpGood, BeatGood, Write, Sendable, By, ServeFrom;
    var f := s.reader.frame;
    var u, t := Write(s, FromReader, f, ok, part), Step(w, s, ReaderReply(ok, part));
    ReplyGood(w, s, ok, part);
    hide ReaderGood;
    WriteLine(s, FromReader, f, ok, part);
    PumpUntouched(w, s, FromReader, f, ok, part);
    BeatUntouched(s, FromReader, f, ok, part);
    LineSame(u, t);
    PumpSame(w, u, t);
    BeatSame(u, t);
  }

  lemma PingInv(w: World, s: Bond, ok: bool, part: nat)
    requires Inv(w, s) && Enabled(w, s, BeatPing(ok, part))
    ensures Inv(w, Step(w, s, BeatPing(ok, part)))
  {
    hide LineGood, PumpGood, ReaderGood, BeatGood, Write, Sendable, PingOut;
    var f := PingOut(s.beat.n + 1);
    var u, t := Write(s, FromBeat, f, ok, part), Step(w, s, BeatPing(ok, part));
    BeatPingGood(w, s, ok, part);
    PingSendable(s.beat.n + 1);
    PingIsNoData(s.beat.n + 1);
    WriteLine(s, FromBeat, f, ok, part);
    PumpUntouched(w, s, FromBeat, f, ok, part);
    ReaderUntouched(w, s, FromBeat, f, ok, part);
    LineSame(u, t);
    PumpSame(w, u, t);
    ReaderSame(w, u, t);
  }

  lemma StopInv(w: World, s: Bond)
    requires Inv(w, s) && Enabled(w, s, BeatStop)
    ensures Inv(w, Step(w, s, BeatStop))
  {
    hide LineGood, PumpGood, ReaderGood;
    var t := Step(w, s, BeatStop);
    LineSame(s, t);
    PumpSame(w, s, t);
    ReaderSame(w, s, t);
  }

  lemma {:induction false} RunInv(w: World, s: Bond, actions: seq<Action>)
    requires Inv(w, s) && Runs(w, s, actions) && forall c :: c in w.chunks ==> |c.bytes| <= BUFFER
    ensures Inv(w, Run(w, s, actions))
    decreases |actions|
  {
    hide Inv, Step, Enabled;
    if actions != [] {
      StepInv(w, s, actions[0]);
      RunInv(w, Step(w, s, actions[0]), actions[1..]);
    }
  }

  // ------------------------------------------------------------------ main results

  /** Whatever the interleaving, every frame the relay writes is one it may send; until the first
      write error the bytes on the line decode to exactly those frames, and afterwards they still
      begin with them. */
  lemma EverythingWrittenIsSendable(w: World, actions: seq<Action>)
    requires Runs(w, Start(w), actions) && forall c :: c in w.chunks ==> |c.bytes| <= BUFFER
    ensures var l := Run(w, Start(w), actions).line;
            && AllSendable(l.frames)
            && l.frames <= ParseOuts(l.sent)
            && (!l.broken ==> l.sent == EncodeOuts(l.frames) && ParseOuts(l.sent) == l.frames)
  {
    hide Sendable, ParseOut, EncodeOut, Run, Runs, Start;
    StartInv(w);
    RunInv(w, Start(w), actions);
    var l := Run(w, Start(w), actions).line;
    var tail := l.sent[|EncodeOuts(l.frames)|..];
    assert l.sent == EncodeOuts(l.frames) + tail;
    SendableLegal(l.frames);
    ParseEncodeOuts(l.frames, tail);
    NothingParsed();
  }

  lemma SendableLegal(frames: seq<Out>)
    requires AllSendable(frames)
    ensures forall f :: f in frames ==> LegalOut(f)
  {
  }

  /** The frames on the line are an interleaving of the three streams: in the order of each
      goroutine they are what the reads from Telegram, the client's bytes and the heartbeat call
      for, all of it once the goroutine is done. */
  lemma LineIsInterleaving(w: World, actions: seq<Action>)
    requires Runs(w, Start(w), actions) && forall c :: c in w.chunks ==> |c.bytes| <= BUFFER
    requires !Run(w, Start(w), actions).line.broken
    ensures var s := Run(w, Start(w), actions);
            && FramesOf(s.log) == s.line.frames
            && By(s.log, FromPump) + PumpLeft(w, s.pump) == Pump(w.chunks)
            && (!s.telegramFailed ==>
                  By(s.log, FromReader) + ReaderLeft(w, s.reader).replies == ServeFrom(IDLE, w.input, w.max).replies
                  && s.upstream + ReaderLeft(w, s.reader).upstream == ServeFrom(IDLE, w.input, w.max).upstream)
            && (s.beat.Beating? ==> By(s.log, FromBeat) == Pings(s.beat.n))
  {
    hide Run, Runs, Start, By, Pump, PumpLeft, ReaderLeft, ServeFrom, Pings;
    StartInv(w);
    RunInv(w, Start(w), actions);
  }

  lemma {:induction false} OnlyPumpCarriesData(log: seq<Entry>)
    requires forall e :: e in log && e.origin != FromPump ==> e.frame.opcode != OP_BINARY
    ensures BinaryData(FramesOf(log)) == BinaryData(By(log, FromPump))
  {
    if log != [] {
      var init, last := log[..|log| - 1], log[|log| - 1];
      OnlyPumpCarriesData(init);
      LastFrame(log);
      hide By, FramesOf, BinaryData;
      BinaryDataAppend(FramesOf(init), [last.frame]);
      if last.origin == FromPump {
        BinaryDataAppend(By(init, FromPump), [last.frame]);
      } else {
        assert last in log;
        NoData(last.frame);
        assert BinaryData(FramesOf(init)) + [] == BinaryData(FramesOf(init));
      }
    }
  }

  lemma LastFrame(log: seq<Entry>)
    requires log != []
    ensures var init, last := log[..|log| - 1], log[|log| - 1];
            && FramesOf(log) == FramesOf(init) + [last.frame]
            && By(log, FromPump) == if last.origin == FromPump then By(init, FromPump) + [last.frame]
               else By(init, FromPump)
  {
  }

  lemma NoData(f: Out)
    requires f.opcode != OP_BINARY
    ensures BinaryData([f]) == []
  {
    assert [f][1..] == [];
  }

  /** End to end, for every interleaving with pongs, pings and closes: what a client that decodes
      the bytes of an unbroken line finds as data, and what the pump has still to write, are the
      bytes read from Telegram; once the pump is done the client has them all. */
  lemma ClientReceivesAll(w: World, actions: seq<Action>)
    requires Runs(w, Start(w), actions) && forall c :: c in w.chunks ==> |c.bytes| <= BUFFER
    requires !Run(w, Start(w), actions).line.broken
    ensures var s := Run(w, Start(w), actions);
            && BinaryData(ParseOuts(s.line.sent)) + BinaryData(PumpLeft(w, s.pump)) == BytesRead(w.chunks)
            && (s.pump.PumpDone? ==> BinaryData(ParseOuts(s.line.sent)) == BytesRead(w.chunks))
  {
    hide Run, Runs, Start, By, Pump, ParseOuts, EncodeOuts, Sendable;
    StartInv(w);
    RunInv(w, Start(w), actions);
    var s := Run(w, Start(w), actions);
    EverythingWrittenIsSendable(w, actions);
    OnlyPumpCarriesData(s.log);
    BinaryDataAppend(By(s.log, FromPump), PumpLeft(w, s.pump));
    PumpKeepsBytes(w.chunks);
    DoneLeft(w);
    hide PumpLeft;
    assert BinaryData(s.line.frames) + [] == BinaryData(s.line.frames);
  }

  /** On a line that has broken the data that came through whole is a first part of what was read. */
  lemma ClientReceivesFirst(w: World, actions: seq<Action>)
    requires Runs(w, Start(w), actions) && forall c :: c in w.chunks ==> |c.bytes| <= BUFFER
    ensures BinaryData(Run(w, Start(w), actions).line.frames) <= BytesRead(w.chunks)
  {
    hide Run, Runs, Start, By, Pump, ParseOuts, EncodeOuts, Sendable, PumpLeft;
    StartInv(w);
    RunInv(w, Start(w), actions);
    var s := Run(w, Start(w), actions);
    OnlyPumpCarriesData(s.log);
    var mine := By(s.log, FromPump);
    var rest := Pump(w.chunks)[|mine|..];
    assert Pump(w.chunks) == mine + rest;
    BinaryDataAppend(mine, rest);
    PumpKeepsBytes(w.chunks);
  }

  /** What Telegram has been sent is, for every interleaving and every failure, a first part of what
      the client's bytes carry. */
  lemma TelegramReceivesFirst(w: World, actions: seq<Action>)
    requires Runs(w, Start(w), actions) && forall c :: c in w.chunks ==> |c.bytes| <= BUFFER
    ensures Run(w, Start(w), actions).upstream <= ServeFrom(IDLE, w.input, w.max).upstream
  {
    hide Run, Runs, Start, ServeFrom;
    StartInv(w);
    RunInv(w, Start(w), actions);
  }

  // ---------------------------------------------------------- data after a Close

  predicate Closed(log: seq<Entry>) {
    exists e :: e in log && e.frame.opcode == OP_CLOSE
  }

  /** No data frame follows a Close, as section 5.5.1 of RFC 6455 asks. */
  predicate CloseEndsData(log: seq<Entry>) {
    forall i, j :: 0 <= i < j < |log| && log[i].frame.opcode == OP_CLOSE ==> log[j].frame.opcode != OP_BINARY
  }

  /** While the line is whole, it carries a Close exactly when the reader or the pump is done: each
      of them ends with a Close, and with nothing else. */
  predicate ClosersDone(s: Bond) {
    && (s.reader.Replying? ==> (s.reader.last <==> s.reader.frame.opcode == OP_CLOSE))
    && (!s.line.broken ==> (Closed(s.log) <==> s.reader.ReaderDone? || s.pump.PumpDone?))
  }

  lemma ClosedPush(log: seq<Entry>, e: Entry)
    ensures Closed(log + [e]) <==> Closed(log) || e.frame.opcode == OP_CLOSE
  {
    if Closed(log) {
      var c :| c in log && c.frame.opcode == OP_CLOSE;
      assert c in log + [e];
    }
    if e.frame.opcode == OP_CLOSE {
      assert e in log + [e];
    }
  }

  lemma WriteCloses(s: Bond, who: Origin, f: Out, ok: bool, part: nat)
    ensures var t := Write(s, who, f, ok, part);
            !t.line.broken ==> (Closed(t.log) <==> Closed(s.log) || f.opcode == OP_CLOSE)
  {
    hide EncodeOut;
    ClosedPush(s.log, Entry(who, f));
  }

  lemma TakeClosers(w: World, s: Bond, taken: bool, part: nat)
    requires s.reader.Listening? && ClosersDone(s)
    ensures ClosersDone(Take(w, s, taken, part))
  {
    hide FirstEvent, CloseReply, CloseOut, ErrorReply, Closed;
    TakeKeeps(w, s, taken, part);
    match FirstEvent(s.reader.a, s.reader.rest, w.max)
    case Stopped(after, error) => ErrorReplyCloses(error);
    case Got(e, after, rest) =>
      CloseOuts(e.payload);
      UnsupportedCloses();
  }

  lemma UnsupportedCloses()
    ensures CloseOut(1002, "unsupported opcode").opcode == OP_CLOSE
  {
  }

  lemma StepClosers(w: World, s: Bond, a: Action)
    requires ClosersDone(s) && Enabled(w, s, a)
    ensures ClosersDone(Step(w, s, a))
  {
    hide Closed, Take, EndOf, Write, PingOut;
    match a
    case PumpRead =>
    case PumpSend(ok, part) =>
      WriteCloses(s, FromPump, Out(OP_BINARY, w.chunks[s.pump.next].bytes), ok, part);
      WriteKeeps(s, FromPump, Out(OP_BINARY, w.chunks[s.pump.next].bytes), ok, part);
      WriteBreaks(s, FromPump, Out(OP_BINARY, w.chunks[s.pump.next].bytes), ok, part);
    case PumpClose(ok, part) =>
      ChunkFrames(w.chunks, s.pump.next);
      WriteCloses(s, FromPump, EndOf(w.chunks[s.pump.next].end)[0], ok, part);
      WriteKeeps(s, FromPump, EndOf(w.chunks[s.pump.next].end)[0], ok, part);
      WriteBreaks(s, FromPump, EndOf(w.chunks[s.pump.next].end)[0], ok, part);
    case ReaderTake(taken, part) => TakeClosers(w, s, taken, part);
    case ReaderReply(ok, part) =>
      WriteCloses(s, FromReader, s.reader.frame, ok, part);
      WriteKeeps(s, FromReader, s.reader.frame, ok, part);
      WriteBreaks(s, FromReader, s.reader.frame, ok, part);
    case BeatPing(ok, part) =>
      PingIsNoClose(s.beat.n + 1);
      WriteCloses(s, FromBeat, PingOut(s.beat.n + 1), ok, part);
      WriteKeeps(s, FromBeat, PingOut(s.beat.n + 1), ok, part);
      WriteBreaks(s, FromBeat, PingOut(s.beat.n + 1), ok, part);
    case BeatStop =>
  }

  lemma WriteBreaks(s: Bond, who: Origin, f: Out, ok: bool, part: nat)
    ensures Write(s, who, f, ok, part).line.broken == (s.line.broken || !ok)
  {
  }

  lemma PingIsNoClose(n: nat)
    ensures PingOut(n).opcode != OP_CLOSE
  {
  }

  /** The pump writes a chunk after the reader has answered or sent its Close and is done. */
  predicate Overtakes(s: Bond, a: Action) {
    a.PumpSend? && a.ok && !s.line.broken && s.reader.ReaderDone?
  }

  predicate EverOvertakes(w: World, s: Bond, actions: seq<Action>)
    requires Runs(w, s, actions)
    decreases |actions|
  {
    actions != [] && (Overtakes(s, actions[0]) || EverOvertakes(w, Step(w, s, actions[0]), actions[1..]))
  }

  /** Nothing stops the pump between the reader's Close and the closing of the connection: over any
      run, data follows a Close exactly when the pump writes a chunk after the reader is done. */
  lemma DataAfterCloseExact(w: World, actions: seq<Action>)
    requires Runs(w, Start(w), actions) && forall c :: c in w.chunks ==> |c.bytes| <= BUFFER
    ensures CloseEndsData(Run(w, Start(w), actions).log) <==> !EverOvertakes(w, Start(w), actions)
  {
    hide Inv, Run, Runs, EverOvertakes, CloseEndsData;
    StartInv(w);
    StartOrdered(w);
    RunDataAfterClose(w, Start(w), actions);
  }

  lemma StartOrdered(w: World)
    ensures CloseEndsData(Start(w).log)
  {
  }

  lemma {:induction false} RunDataAfterClose(w: World, s: Bond, actions: seq<Action>)
    requires Inv(w, s) && ClosersDone(s) && CloseEndsData(s.log)
    requires Runs(w, s, actions) && forall c :: c in w.chunks ==> |c.bytes| <= BUFFER
    ensures CloseEndsData(Run(w, s, actions).log) <==> !EverOvertakes(w, s, actions)
    decreases |actions|
  {
    hide Inv, Step, Enabled, CloseEndsData, ClosersDone, Overtakes;
    if actions != [] {
      var a, t := actions[0], Step(w, s, actions[0]);
      StepInv(w, s, a);
      StepClosers(w, s, a);
      StepDataAfterClose(w, s, a);
      StepOvertakes(w, s, a);
      if CloseEndsData(t.log) {
        RunDataAfterClose(w, t, actions[1..]);
      } else {
        OutOfOrderStays(w, t, actions[1..]);
      }
    }
  }

  lemma StepOvertakes(w: World, s: Bond, a: Action)
    requires ClosersDone(s) && Enabled(w, s, a)
    ensures Overtakes(s, a) <==> a.PumpSend? && a.ok && !s.line.broken && Closed(s.log)
  {
    hide Closed;
  }

  lemma {:induction false} OutOfOrderStays(w: World, s: Bond, actions: seq<Action>)
    requires Runs(w, s, actions) && !CloseEndsData(s.log)
    ensures !CloseEndsData(Run(w, s, actions).log)
    decreases |actions|
  {
    hide Step, Enabled;
    if actions != [] {
      var t := Step(w, s, actions[0]);
      LogGrows(w, s, actions[0]);
      var i, j :| 0 <= i < j < |s.log| && s.log[i].frame.opcode == OP_CLOSE && s.log[j].frame.opcode == OP_BINARY;
      assert t.log[i] == s.log[i] && t.log[j] == s.log[j];
      OutOfOrderStays(w, t, actions[1..]);
    }
  }

  lemma LogGrows(w: World, s: Bond, a: Action)
    requires Enabled(w, s, a)
    ensures s.log <= Step(w, s, a).log
  {
    hide EncodeOut, Take, EndOf, PingOut;
    if a.ReaderTake? {
      TakeKeeps(w, s, a.taken, a.part);
    }
  }

  lemma StepDataAfterClose(w: World, s: Bond, a: Action)
    requires Inv(w, s) && Enabled(w, s, a) && CloseEndsData(s.log)
    ensures CloseEndsData(Step(w, s, a).log) <==> !(a.PumpSend? && a.ok && !s.line.broken && Closed(s.log))
  {
    hide By, Pump, Sendable, EncodeOut, EncodeOuts, ServeFrom, FirstEvent, CloseReply, CloseOut, ErrorReply;
    var t := Step(w, s, a);
    if t.log != s.log {
      LogStep(w, s, a);
      var last := t.log[|s.log|];
      assert t.log == s.log + [last];
      if Closed(s.log) && last.frame.opcode == OP_BINARY {
        var e :| e in s.log && e.frame.opcode == OP_CLOSE;
        var i :| 0 <= i < |s.log| && s.log[i] == e;
        assert t.log[i].frame.opcode == OP_CLOSE && i < |s.log|;
      }
    }
  }

  lemma LogStep(w: World, s: Bond, a: Action)
    requires Inv(w, s) && Enabled(w, s, a)
    ensures var t := Step(w, s, a);
            || (t.log == s.log && !(a.PumpSend? && a.ok && !s.line.broken))
            || (|t.log| == |s.log| + 1 && t.log == s.log + [t.log[|s.log|]]
                && ((t.log[|s.log|].frame.opcode == OP_BINARY) <==> (a.PumpSend? && a.ok && !s.line.broken)))
  {
    hide By, Pump, Sendable, EncodeOut, EncodeOuts, ServeFrom, FirstEvent, CloseReply, ErrorReply;
    if a.ReaderTake? {
      TakeKeeps(w, s, a.taken, a.part);
    }
    if a.BeatPing? {
      PingIsNoData(s.beat.n + 1);
    }
    if a.PumpClose? {
      ChunkFrames(w.chunks, s.pump.next);
    }
  }

  /** It does happen: the client sends a Close, the reader answers it, and the pump then reads and
      writes a chunk before the connections are closed. */
  lemma DataAfterClose(bytes: seq<byte>, mask: seq<byte>, max: int)
    requires 0 < |bytes| <= BUFFER && |mask| == 4 && 0 < max
    ensures var w := World([Chunk(bytes, More)], Encode(Frame(true, OP_CLOSE, []), mask), max);
            var actions := [ReaderTake(true, 0), ReaderReply(true, 0), PumpRead, PumpSend(true, 0)];
            Runs(w, Start(w), actions)
            && Run(w, Start(w), actions).line.frames == [Out(OP_CLOSE, []), Out(OP_BINARY, bytes)]
            && !CloseEndsData(Run(w, Start(w), actions).log)
  {
    hide Encode, EncodeOut;
    var close := Frame(true, OP_CLOSE, []);
    var w := World([Chunk(bytes, More)], Encode(close, mask), max);
    ParseEncode(close, mask, [], max);
    assert w.input + [] == w.input;
    assert FirstEvent(IDLE, w.input, max) == Got(Event(OP_CLOSE, []), IDLE, []) by {
      hide Parse;
    }
    hide FirstEvent;
    var s0 := Start(w);
    var s1 := Step(w, s0, ReaderTake(true, 0));
    assert s1 == s0.(reader := Replying(Out(OP_CLOSE, []), IDLE, [], true));
    var s2 := Step(w, s1, ReaderReply(true, 0));
    var s3 := Step(w, s2, PumpRead);
    var s4 := Step(w, s3, PumpSend(true, 0));
    assert s4.log == [Entry(FromReader, Out(OP_CLOSE, [])), Entry(FromPump, Out(OP_BINARY, bytes))];
    assert s4.log[0].frame.opcode == OP_CLOSE && s4.log[1].frame.opcode == OP_BINARY;
    FourSteps(w, s0, [ReaderTake(true, 0), ReaderReply(true, 0), PumpRead, PumpSend(true, 0)]);
  }

  lemma FourSteps(w: World, s: Bond, actions: seq<Action>)
    requires |actions| == 4
    requires Enabled(w, s, actions[0])
    requires Enabled(w, Step(w, s, actions[0]), actions[1])
    requires Enabled(w, Step(w, Step(w, s, actions[0]), actions[1]), actions[2])
    requires Enabled(w, Step(w, Step(w, Step(w, s, actions[0]), actions[1]), actions[2]), actions[3])
    ensures Runs(w, s, actions)
    ensures Run(w, s, actions)
            == Step(w, Step(w, Step(w, Step(w, s, actions[0]), actions[1]), actions[2]), actions[3])
  {
    hide Step, Enabled;
    var b := actions[1..];
    var c := b[1..];
    var d := c[1..];
    assert d[1..] == [];
    var s1 := Step(w, s, actions[0]);
    var s2 := Step(w, s1, b[0]);
    var s3 := Step(w, s2, c[0]);
    assert Runs(w, s3, d) && Run(w, s3, d) == Step(w, s3, d[0]);
    assert Runs(w, s2, c) && Run(w, s2, c) == Run(w, s3, d);
    assert Runs(w, s1, b) && Run(w, s1, b) == Run(w, s2, c);
  }
}
