/** Fragmented messages and the control frames between their pieces (section 5.4 of RFC 6455). */
module Reassembly {
  import opened Wrappers
  import opened Bytes
  import opened Frames
  import opened FrameReader

  /** What the bridge is handed: a whole binary message or a control frame. */
  datatype Event = Event(opcode: byte, payload: seq<byte>)

  /** The message under way; opcode zero means none. */
  datatype Assembly = Assembly(opcode: byte, buffer: seq<byte>)

  const IDLE := Assembly(0, [])

  datatype Outcome =
    | Skip(next: Assembly)
    | Emit(next: Assembly, event: Event)
    | Refuse(code: nat, reason: string)

  /** The effect of one frame. */
  function Accept(a: Assembly, f: Frame, max: int): Outcome {
    if f.opcode == OP_CLOSE || f.opcode == OP_PING || f.opcode == OP_PONG then Emit(a, Event(f.opcode, f.payload))
    else if f.opcode == OP_TEXT then Refuse(1002, "text frames are not supported")
    else if f.opcode == OP_BINARY then
      if a.opcode != 0 then Refuse(1002, "new data frame before fragmented message completed")
      else if f.fin then Emit(a, Event(OP_BINARY, f.payload))
      else Skip(Assembly(OP_BINARY, f.payload))
    else if f.opcode == OP_CONTINUATION then
      if a.opcode == 0 then Refuse(1002, "unexpected continuation frame")
      else if |a.buffer| > max - |f.payload| then Refuse(1009, "message too large")
      else if f.fin then Emit(IDLE, Event(OP_BINARY, a.buffer + f.payload))
      else Skip(Assembly(a.opcode, a.buffer + f.payload))
    else Refuse(1002, "unsupported opcode")
  }

  // ------------------------------------------------------------------ streams

  /** The events up to the point where reading stopped, the message then under way, and why
      it stopped; no error means that the frames ran out. */
  datatype Stream = Stream(events: seq<Event>, end: Assembly, error: Option<ReadError>)

  function Prepend(events: seq<Event>, s: Stream): Stream {
    s.(events := events + s.events)
  }

  /** The effect of a run of frames. */
  function Deliver(a: Assembly, frames: seq<Frame>, max: int): Stream
    decreases |frames|
  {
    if frames == [] then Stream([], a, None)
    else match Accept(a, frames[0], max)
      case Skip(next) => Deliver(next, frames[1..], max)
      case Emit(next, event) => Prepend([event], Deliver(next, frames[1..], max))
      case Refuse(code, reason) => Stream([], a, Some(Protocol(code, reason)))
  }

  /** The effect of a run of bytes. */
  function Session(a: Assembly, input: seq<byte>, max: int): Stream
    decreases |input|
  {
    match Parse(input, max)
    case Truncated => Stream([], a, Some(EndOfInput))
    case Refused(code, reason) => Stream([], a, Some(Protocol(code, reason)))
    case Parsed(f, _, rest) =>
      match Accept(a, f, max)
      case Skip(next) => Session(next, rest, max)
      case Emit(next, event) => Prepend([event], Session(next, rest, max))
      case Refuse(code, reason) => Stream([], a, Some(Protocol(code, reason)))
  }

  /** Encode a run of frames, each under its own mask. */
  function EncodeAll(frames: seq<Frame>, masks: seq<seq<byte>>): seq<byte>
    requires |frames| == |masks| && forall m :: m in masks ==> |m| == 4
  {
    if frames == [] then [] else Encode(frames[0], masks[0]) + EncodeAll(frames[1..], masks[1..])
  }

  /** Bytes are read as the frames they encode, whatever the masks. */
  lemma {:induction false} SessionOfFrames(a: Assembly, frames: seq<Frame>, masks: seq<seq<byte>>, tail: seq<byte>,
                                           max: int)
    requires |frames| == |masks| && forall m :: m in masks ==> |m| == 4
    requires forall f :: f in frames ==> Legal(f, max)
    ensures var d := Deliver(a, frames, max);
            Session(a, EncodeAll(frames, masks) + tail, max)
            == if d.error.Some? then d else Prepend(d.events, Session(d.end, tail, max))
    decreases |frames|
  {
    hide Encode, Legal, Accept, Session;
    if frames == [] {
      assert EncodeAll(frames, masks) + tail == tail;
    } else {
      var rest := EncodeAll(frames[1..], masks[1..]) + tail;
      assert EncodeAll(frames, masks) + tail == Encode(frames[0], masks[0]) + rest;
      SessionOfFrame(a, frames[0], masks[0], rest, max);
      match Accept(a, frames[0], max)
      case Skip(next) => SessionOfFrames(next, frames[1..], masks[1..], tail, max);
      case Emit(next, event) => SessionOfFrames(next, frames[1..], masks[1..], tail, max);
      case Refuse(_, _) =>
    }
  }

  function AfterFrame(a: Assembly, outcome: Outcome, rest: seq<byte>, max: int): Stream {
    match outcome
    case Skip(next) => Session(next, rest, max)
    case Emit(next, event) => Prepend([event], Session(next, rest, max))
    case Refuse(code, reason) => Stream([], a, Some(Protocol(code, reason)))
  }

  lemma SessionOfFrame(a: Assembly, f: Frame, mask: seq<byte>, rest: seq<byte>, max: int)
    requires Legal(f, max) && |mask| == 4
    ensures Session(a, Encode(f, mask) + rest, max) == AfterFrame(a, Accept(a, f, max), rest, max)
  {
    hide Parse, Encode, Legal, Accept;
    ParseEncode(f, mask, rest, max);
  }

  lemma {:induction false} DeliverAppend(a: Assembly, xs: seq<Frame>, ys: seq<Frame>, max: int)
    ensures var d := Deliver(a, xs, max);
            Deliver(a, xs + ys, max) == if d.error.Some? then d else Prepend(d.events, Deliver(d.end, ys, max))
    decreases |xs|
  {
    hide Accept;
    if xs == [] {
      assert xs + ys == ys;
    } else {
      assert (xs + ys)[1..] == xs[1..] + ys;
      match Accept(a, xs[0], max)
      case Skip(next) => DeliverAppend(next, xs[1..], ys, max);
      case Emit(next, event) => DeliverAppend(next, xs[1..], ys, max);
      case Refuse(_, _) =>
    }
  }

  // ------------------------------------------------------------ what is sent

  /** A piece of a message, after the control frames that were sent before it. */
  datatype Piece = Piece(before: seq<Frame>, bytes: seq<byte>)

  /** What a client means to send: a control frame on its own, or a message cut in pieces. */
  datatype Item = Alone(frame: Frame) | Message(pieces: seq<Piece>)

  predicate AllControl(frames: seq<Frame>) {
    forall f :: f in frames ==> f.opcode == OP_CLOSE || f.opcode == OP_PING || f.opcode == OP_PONG
  }

  predicate Proper(item: Item) {
    match item
    case Alone(f) => AllControl([f])
    case Message(pieces) => pieces != [] && forall p :: p in pieces ==> AllControl(p.before)
  }

  function Whole(pieces: seq<Piece>): seq<byte> {
    if pieces == [] then [] else Whole(pieces[..|pieces| - 1]) + pieces[|pieces| - 1].bytes
  }

  function Controls(pieces: seq<Piece>): seq<Frame> {
    if pieces == [] then [] else Controls(pieces[..|pieces| - 1]) + pieces[|pieces| - 1].before
  }

  /** The frame that carries a piece: only the first names the type of the message. */
  function Carrier(first: bool, fin: bool, bytes: seq<byte>): Frame {
    Frame(fin, if first then OP_BINARY else OP_CONTINUATION, bytes)
  }

  /** The frames of all pieces, none of them marked as the last. */
  function OpenWire(pieces: seq<Piece>): seq<Frame> {
    if pieces == [] then []
    else
      var k := |pieces| - 1;
      OpenWire(pieces[..k]) + pieces[k].before + [Carrier(k == 0, false, pieces[k].bytes)]
  }

  function ItemWire(item: Item): seq<Frame>
    requires Proper(item)
  {
    match item
    case Alone(f) => [f]
    case Message(pieces) =>
      var k := |pieces| - 1;
      OpenWire(pieces[..k]) + pieces[k].before + [Carrier(k == 0, true, pieces[k].bytes)]
  }

  function AsEvents(frames: seq<Frame>): (r: seq<Event>)
    ensures |r| == |frames|
  {
    seq(|frames|, i requires 0 <= i < |frames| => Event(frames[i].opcode, frames[i].payload))
  }

  /** What the receiver is to be handed: control frames at once, the message when complete. */
  function ItemEvents(item: Item): seq<Event> {
    match item
    case Alone(f) => AsEvents([f])
    case Message(pieces) => AsEvents(Controls(pieces)) + [Event(OP_BINARY, Whole(pieces))]
  }

  predicate Fits(item: Item, max: int) {
    item.Message? ==> |Whole(item.pieces)| <= max
  }

  function Wire(items: seq<Item>): seq<Frame>
    requires forall i :: i in items ==> Proper(i)
  {
    if items == [] then [] else Wire(items[..|items| - 1]) + ItemWire(items[|items| - 1])
  }

  function Events(items: seq<Item>): seq<Event> {
    if items == [] then [] else Events(items[..|items| - 1]) + ItemEvents(items[|items| - 1])
  }

  // --------------------------------------- delivery does not depend on fragments

  lemma {:induction false} DeliverControls(a: Assembly, frames: seq<Frame>, max: int)
    requires AllControl(frames)
    ensures Deliver(a, frames, max) == Stream(AsEvents(frames), a, None)
  {
    if frames != [] {
      DeliverControls(a, frames[1..], max);
      assert AsEvents(frames) == [Event(frames[0].opcode, frames[0].payload)] + AsEvents(frames[1..]);
    }
  }

  lemma DeliverOne(a: Assembly, f: Frame, max: int)
    ensures Deliver(a, [f], max) ==
            match Accept(a, f, max)
            case Skip(next) => Stream([], next, None)
            case Emit(next, event) => Stream([event], next, None)
            case Refuse(code, reason) => Stream([], a, Some(Protocol(code, reason)))
  {
    assert [f][1..] == [];
  }

  /** The message under way after some of its pieces. */
  function Partial(pieces: seq<Piece>): Assembly {
    if pieces == [] then IDLE else Assembly(OP_BINARY, Whole(pieces))
  }

  lemma {:induction false} WholeGrows(pieces: seq<Piece>, k: nat)
    requires k <= |pieces|
    ensures |Whole(pieces[..k])| <= |Whole(pieces)|
  {
    if k < |pieces| {
      var init := pieces[..|pieces| - 1];
      WholeGrows(init, k);
      assert init[..k] == pieces[..k];
    } else {
      assert pieces[..k] == pieces;
    }
  }

  lemma {:induction false} DeliverOpen(pieces: seq<Piece>, max: int)
    requires forall p :: p in pieces ==> AllControl(p.before)
    requires |Whole(pieces)| <= max
    ensures Deliver(IDLE, OpenWire(pieces), max) == Stream(AsEvents(Controls(pieces)), Partial(pieces), None)
  {
    if pieces != [] {
      var k := |pieces| - 1;
      WholeGrows(pieces, k);
      hide AllControl, Accept, Deliver, Carrier;
      DeliverOpen(pieces[..k], max);
      DeliverPiece(pieces[..k], pieces[k], false, max);
      assert Whole(pieces) == Whole(pieces[..k]) + pieces[k].bytes;
      DeliverAppend(IDLE, OpenWire(pieces[..k]), pieces[k].before + [Carrier(k == 0, false, pieces[k].bytes)], max);
      assert OpenWire(pieces[..k]) + pieces[k].before + [Carrier(k == 0, false, pieces[k].bytes)]
          == OpenWire(pieces[..k]) + (pieces[k].before + [Carrier(k == 0, false, pieces[k].bytes)]);
      assert AsEvents(Controls(pieces)) == AsEvents(Controls(pieces[..k])) + AsEvents(pieces[k].before);
    }
  }

  /** One more piece and the control frames before it. */
  lemma DeliverPiece(pieces: seq<Piece>, p: Piece, fin: bool, max: int)
    requires AllControl(p.before) && |Whole(pieces)| + |p.bytes| <= max
    ensures var whole := Whole(pieces) + p.bytes;
            Deliver(Partial(pieces), p.before + [Carrier(pieces == [], fin, p.bytes)], max)
            == if fin then Stream(AsEvents(p.before) + [Event(OP_BINARY, whole)], IDLE, None)
               else Stream(AsEvents(p.before), Assembly(OP_BINARY, whole), None)
  {
    var f := Carrier(pieces == [], fin, p.bytes);
    DeliverControls(Partial(pieces), p.before, max);
    DeliverAppend(Partial(pieces), p.before, [f], max);
    DeliverOne(Partial(pieces), f, max);
    if pieces == [] {
      assert Whole(pieces) + p.bytes == p.bytes;
    }
  }

  lemma DeliverItem(item: Item, max: int)
    requires Proper(item) && Fits(item, max)
    ensures Deliver(IDLE, ItemWire(item), max) == Stream(ItemEvents(item), IDLE, None)
  {
    match item
    case Alone(f) => DeliverControls(IDLE, [f], max);
    case Message(pieces) =>
      hide AllControl, Accept, Deliver, Carrier;
      var k := |pieces| - 1;
      WholeGrows(pieces, k);
      DeliverOpen(pieces[..k], max);
      DeliverPiece(pieces[..k], pieces[k], true, max);
      DeliverAppend(IDLE, OpenWire(pieces[..k]), pieces[k].before + [Carrier(k == 0, true, pieces[k].bytes)], max);
      assert OpenWire(pieces[..k]) + pieces[k].before + [Carrier(k == 0, true, pieces[k].bytes)]
          == OpenWire(pieces[..k]) + (pieces[k].before + [Carrier(k == 0, true, pieces[k].bytes)]);
      assert AsEvents(Controls(pieces)) == AsEvents(Controls(pieces[..k])) + AsEvents(pieces[k].before);
  }

  /** However messages are cut and wherever control frames fall between the pieces, the
      receiver is handed the control frames as they come and every message whole and in order. */
  lemma {:induction false} DeliveryExact(items: seq<Item>, max: int)
    requires forall i :: i in items ==> Proper(i) && Fits(i, max)
    ensures Deliver(IDLE, Wire(items), max) == Stream(Events(items), IDLE, None)
  {
    if items != [] {
      var k := |items| - 1;
      DeliveryExact(items[..k], max);
      DeliverItem(items[k], max);
      DeliverAppend(IDLE, Wire(items[..k]), ItemWire(items[k]), max);
    }
  }

  /** The same on bytes, under any masks. */
  lemma DeliveryOnBytes(items: seq<Item>, masks: seq<seq<byte>>, tail: seq<byte>, max: int)
    requires forall i :: i in items ==> Proper(i) && Fits(i, max)
    requires forall f :: f in Wire(items) ==> Legal(f, max)
    requires |masks| == |Wire(items)| && forall m :: m in masks ==> |m| == 4
    ensures Session(IDLE, EncodeAll(Wire(items), masks) + tail, max)
            == Prepend(Events(items), Session(IDLE, tail, max))
  {
    DeliveryExact(items, max);
    SessionOfFrames(IDLE, Wire(items), masks, tail, max);
  }

  // ----------------------------------------------------- messages over the limit

  /** The number of leading pieces that fit. */
  function Fitting(pieces: seq<Piece>, max: nat): nat
    ensures Fitting(pieces, max) <= |pieces| && |Whole(pieces[..Fitting(pieces, max)])| <= max
    ensures Fitting(pieces, max) < |pieces| ==> |Whole(pieces[..Fitting(pieces, max) + 1])| > max
    ensures Fitting(pieces, max) == |pieces| <==> |Whole(pieces)| <= max
  {
    var all := |pieces|;
    assert pieces[..all] == pieces;
    if |Whole(pieces)| <= max then all
    else
      assert pieces != [];
      var init := pieces[..all - 1];
      assert forall k | 0 <= k <= all - 1 :: init[..k] == pieces[..k];
      Fitting(init, max)
  }

  /** A message that outgrows the limit ends the stream with code 1009, after the control
      frames that came before the piece at which it outgrows. */
  lemma DeliverOversized(item: Item, max: nat)
    requires Proper(item) && !Fits(item, max)
    requires |item.pieces[0].bytes| <= max
    ensures var d := Deliver(IDLE, ItemWire(item), max);
            && d.error == Some(Protocol(1009, "message too large"))
            && d.events == AsEvents(Controls(item.pieces[..Fitting(item.pieces, max) + 1]))
  {
    hide Whole, OpenWire, ItemWire, AsEvents, AllControl, Deliver;
    var pieces := item.pieces;
    var j := Fitting(pieces, max);
    var p := pieces[j];
    assert pieces[..j + 1][..j] == pieces[..j];
    assert j > 0 by { FirstFits(pieces, max); }
    var open, carriers := OpenWire(pieces[..j]), p.before + [Carrier(false, j + 1 == |pieces|, p.bytes)];
    var rest := WireFrom(pieces, j);
    DeliverOpen(pieces[..j], max);
    OutgrowingPiece(pieces, j, max);
    DeliverAppend(IDLE, open, carriers, max);
    DeliverAppend(IDLE, open + carriers, rest, max);
    EventsOfControls(pieces, j);
  }

  lemma FirstFits(pieces: seq<Piece>, max: nat)
    requires pieces != [] && |pieces[0].bytes| <= max
    ensures Fitting(pieces, max) > 0
  {
    assert Whole(pieces[..1]) == pieces[0].bytes;
  }

  lemma EventsOfControls(pieces: seq<Piece>, j: nat)
    requires j < |pieces|
    ensures AsEvents(Controls(pieces[..j + 1])) == AsEvents(Controls(pieces[..j])) + AsEvents(pieces[j].before)
  {
    assert pieces[..j + 1][..j] == pieces[..j];
  }

  lemma OutgrowingPiece(pieces: seq<Piece>, j: nat, max: nat)
    requires 0 < j < |pieces| && |Whole(pieces[..j])| <= max < |Whole(pieces[..j + 1])| && AllControl(pieces[j].before)
    ensures Deliver(Partial(pieces[..j]), pieces[j].before + [Carrier(false, j + 1 == |pieces|, pieces[j].bytes)], max)
            == Stream(AsEvents(pieces[j].before), Partial(pieces[..j]), Some(Protocol(1009, "message too large")))
  {
    var a, p := Partial(pieces[..j]), pieces[j];
    var f := Carrier(false, j + 1 == |pieces|, p.bytes);
    assert pieces[..j + 1][..j] == pieces[..j];
    assert |Whole(pieces[..j + 1])| == |Whole(pieces[..j])| + |p.bytes|;
    DeliverControls(a, p.before, max);
    DeliverAppend(a, p.before, [f], max);
    DeliverOne(a, f, max);
  }

  /** The frames of a message: pieces before `j`, piece `j`, and what is returned. */
  lemma {:induction false} WireFrom(pieces: seq<Piece>, j: nat) returns (rest: seq<Frame>)
    requires 0 < j < |pieces| && Proper(Message(pieces))
    ensures ItemWire(Message(pieces)) == OpenWire(pieces[..j])
            + (pieces[j].before + [Carrier(false, j + 1 == |pieces|, pieces[j].bytes)]) + rest
  {
    hide OpenWire, Carrier, AllControl;
    var k := |pieces| - 1;
    if j == k {
      rest := [];
    } else {
      var middle := OpenFrom(pieces[..k], j);
      assert pieces[..k][..j] == pieces[..j];
      rest := middle + pieces[k].before + [Carrier(false, true, pieces[k].bytes)];
    }
  }

  lemma {:induction false} OpenFrom(pieces: seq<Piece>, j: nat) returns (rest: seq<Frame>)
    requires 0 < j < |pieces|
    ensures OpenWire(pieces) == OpenWire(pieces[..j])
            + (pieces[j].before + [Carrier(false, false, pieces[j].bytes)]) + rest
    decreases |pieces|
  {
    var k := |pieces| - 1;
    if j == k {
      rest := [];
    } else {
      var middle := OpenFrom(pieces[..k], j);
      assert pieces[..k][..j] == pieces[..j];
      rest := middle + pieces[k].before + [Carrier(false, false, pieces[k].bytes)];
    }
  }

  lemma {:induction false} WirePrefix(items: seq<Item>, k: nat) returns (rest: seq<Frame>)
    requires k < |items| && forall i :: i in items ==> Proper(i)
    ensures Wire(items) == Wire(items[..k]) + ItemWire(items[k]) + rest
    decreases |items|
  {
    hide ItemWire, Proper;
    var last := |items| - 1;
    if k == last {
      rest := [];
    } else {
      var middle := WirePrefix(items[..last], k);
      assert items[..last][..k] == items[..k];
      rest := middle + ItemWire(items[last]);
    }
  }

  /** A stream of messages and control frames is read to its end exactly when every message
      fits the limit; otherwise it ends with 1009 at the first that does not, when everything
      before it has been delivered. */
  lemma DeliveryIffFits(items: seq<Item>, max: nat)
    requires forall i :: i in items ==> Proper(i)
    requires forall f :: f in Wire(items) ==> Legal(f, max)
    ensures Deliver(IDLE, Wire(items), max).error.None? <==> forall i :: i in items ==> Fits(i, max)
    ensures forall k :: 0 <= k < |items| && (forall i :: i in items[..k] ==> Fits(i, max)) && !Fits(items[k], max)
              ==> var d := Deliver(IDLE, Wire(items), max);
                  d.error == Some(Protocol(1009, "message too large")) && Events(items[..k]) <= d.events
  {
    forall k | 0 <= k < |items| && (forall i :: i in items[..k] ==> Fits(i, max)) && !Fits(items[k], max)
      ensures var d := Deliver(IDLE, Wire(items), max);
              d.error == Some(Protocol(1009, "message too large")) && Events(items[..k]) <= d.events
    {
      var rest := WirePrefix(items, k);
      DeliveryExact(items[..k], max);
      var first := items[k].pieces[0];
      FirstCarrier(items[k].pieces);
      assert Carrier(true, |items[k].pieces| == 1, first.bytes) in Wire(items);
      DeliverOversized(items[k], max);
      DeliverAppend(IDLE, Wire(items[..k]), ItemWire(items[k]), max);
      DeliverAppend(IDLE, Wire(items[..k]) + ItemWire(items[k]), rest, max);
    }
    if forall i :: i in items ==> Fits(i, max) {
      DeliveryExact(items, max);
    } else {
      var k := FirstUnfit(items, max);
    }
  }

  lemma {:induction false} FirstUnfit(items: seq<Item>, max: nat) returns (k: nat)
    requires exists i :: i in items && !Fits(i, max)
    ensures k < |items| && !Fits(items[k], max) && forall i :: i in items[..k] ==> Fits(i, max)
  {
    if !Fits(items[0], max) {
      k := 0;
    } else {
      var rest := FirstUnfit(items[1..], max);
      k := rest + 1;
      assert items[..k] == [items[0]] + items[1..][..rest];
    }
  }

  lemma FirstCarrier(pieces: seq<Piece>)
    requires Proper(Message(pieces))
    ensures Carrier(true, |pieces| == 1, pieces[0].bytes) in ItemWire(Message(pieces))
  {
    if |pieces| > 1 {
      FirstOpen(pieces[..|pieces| - 1]);
    }
  }

  lemma {:induction false} FirstOpen(pieces: seq<Piece>)
    requires pieces != []
    ensures Carrier(true, false, pieces[0].bytes) in OpenWire(pieces)
  {
    if |pieces| > 1 {
      FirstOpen(pieces[..|pieces| - 1]);
    }
  }

  // -------------------------------------------- whatever is accepted is a message

  /** Frames that are read to their end are whole items, then pieces of one more message and
      control frames after them; the events and the message under way are those. */
  lemma {:induction false} AcceptedAreItems(frames: seq<Frame>, max: int)
    returns (items: seq<Item>, pieces: seq<Piece>, pending: seq<Frame>)
    requires Deliver(IDLE, frames, max).error.None?
    ensures (forall i :: i in items ==> Proper(i)) && (forall p :: p in pieces ==> AllControl(p.before))
        && AllControl(pending)
    ensures frames == Wire(items) + OpenWire(pieces) + pending
    ensures Deliver(IDLE, frames, max)
            == Stream(Events(items) + AsEvents(Controls(pieces)) + AsEvents(pending), Partial(pieces), None)
  {
    if frames == [] {
      items, pieces, pending := [], [], [];
    } else {
      var k := |frames| - 1;
      var f := frames[k];
      assert frames == frames[..k] + [f];
      DeliverAppend(IDLE, frames[..k], [f], max);
      items, pieces, pending := AcceptedAreItems(frames[..k], max);
      DeliverOne(Partial(pieces), f, max);
      items, pieces, pending := ExtendItems(items, pieces, pending, f, max);
    }
  }

  lemma ExtendItems(items: seq<Item>, pieces: seq<Piece>, pending: seq<Frame>, f: Frame, max: int)
    returns (items2: seq<Item>, pieces2: seq<Piece>, pending2: seq<Frame>)
    requires (forall i :: i in items ==> Proper(i)) && (forall p :: p in pieces ==> AllControl(p.before))
        && AllControl(pending)
    requires !Accept(Partial(pieces), f, max).Refuse?
    ensures (forall i :: i in items2 ==> Proper(i)) && (forall p :: p in pieces2 ==> AllControl(p.before))
        && AllControl(pending2)
    ensures Wire(items) + OpenWire(pieces) + pending + [f] == Wire(items2) + OpenWire(pieces2) + pending2
    ensures Accept(Partial(pieces), f, max).next == Partial(pieces2)
    ensures Events(items) + AsEvents(Controls(pieces)) + AsEvents(pending)
            + (match Accept(Partial(pieces), f, max) case Emit(_, e) => [e] case _ => [])
            == Events(items2) + AsEvents(Controls(pieces2)) + AsEvents(pending2)
  {
    hide Deliver, Wire, OpenWire, Events, AsEvents, Controls, Whole;
    if AllControl([f]) {
      assert f in [f];
      items2, pieces2, pending2 := items, pieces, pending + [f];
      EventOfControl(pending, f);
    } else {
      assert f.opcode == OP_BINARY || f.opcode == OP_CONTINUATION;
      var grown := Grown(pieces, pending, f);
      GrownOpen(pieces, pending, f);
      if f.fin {
        items2, pieces2, pending2 := items + [Message(grown)], [], [];
        Completed(items, pieces, pending, f);
      } else {
        items2, pieces2, pending2 := items, grown, [];
      }
    }
  }

  lemma EventOfControl(frames: seq<Frame>, f: Frame)
    ensures AsEvents(frames + [f]) == AsEvents(frames) + [Event(f.opcode, f.payload)]
  {
  }

  /** The pieces once a data frame has arrived. */
  function Grown(pieces: seq<Piece>, pending: seq<Frame>, f: Frame): seq<Piece> {
    pieces + [Piece(pending, f.payload)]
  }

  lemma GrownOpen(pieces: seq<Piece>, pending: seq<Frame>, f: Frame)
    requires f == Carrier(pieces == [], f.fin, f.payload)
    ensures !f.fin ==> OpenWire(Grown(pieces, pending, f)) == OpenWire(pieces) + pending + [f]
    ensures AsEvents(Controls(Grown(pieces, pending, f))) == AsEvents(Controls(pieces)) + AsEvents(pending)
    ensures Whole(Grown(pieces, pending, f)) == (if pieces == [] then f.payload else Whole(pieces) + f.payload)
    ensures OpenWire([]) == [] && Controls([]) == [] && AsEvents([]) == []
  {
    var grown := Grown(pieces, pending, f);
    assert grown[..|pieces|] == pieces;
  }

  lemma Completed(items: seq<Item>, pieces: seq<Piece>, pending: seq<Frame>, f: Frame)
    requires (forall i :: i in items ==> Proper(i)) && (forall p :: p in pieces ==> AllControl(p.before))
        && AllControl(pending)
    requires f == Carrier(pieces == [], true, f.payload)
    ensures Proper(Message(Grown(pieces, pending, f)))
    ensures var items2 := items + [Message(Grown(pieces, pending, f))];
            && (forall i :: i in items2 ==> Proper(i))
            && Wire(items2) == Wire(items) + OpenWire(pieces) + pending + [f]
            && Events(items2) == Events(items) + AsEvents(Controls(pieces)) + AsEvents(pending)
                                 + [Event(OP_BINARY, if pieces == [] then f.payload else Whole(pieces) + f.payload)]
  {
    hide OpenWire, AsEvents, Controls, Whole, Wire, Events, Proper, ItemWire, ItemEvents;
    var grown := Grown(pieces, pending, f);
    GrownOpen(pieces, pending, f);
    CompletedItem(pieces, pending, f);
    AppendItem(items, Message(grown));
  }

  lemma CompletedItem(pieces: seq<Piece>, pending: seq<Frame>, f: Frame)
    requires (forall p :: p in pieces ==> AllControl(p.before)) && AllControl(pending)
    requires f == Carrier(pieces == [], true, f.payload)
    ensures var item := Message(Grown(pieces, pending, f));
            && Proper(item)
            && ItemWire(item) == OpenWire(pieces) + pending + [f]
            && ItemEvents(item) == AsEvents(Controls(item.pieces)) + [Event(OP_BINARY, Whole(item.pieces))]
  {
    hide OpenWire, AsEvents, Controls, Whole, AllControl;
    assert Grown(pieces, pending, f)[..|pieces|] == pieces;
  }

  lemma AppendItem(items: seq<Item>, item: Item)
    requires (forall i :: i in items ==> Proper(i)) && Proper(item)
    ensures (forall i :: i in items + [item] ==> Proper(i))
            && Wire(items + [item]) == Wire(items) + ItemWire(item)
            && Events(items + [item]) == Events(items) + ItemEvents(item)
  {
    hide ItemWire, ItemEvents, Proper;
    assert (items + [item])[..|items|] == items;
  }

  // --------------------------------------------------------------- conservation

  predicate Data(f: Frame) {
    f.opcode == OP_BINARY || f.opcode == OP_CONTINUATION
  }

  /** The bytes of the data frames. */
  function DataBytes(frames: seq<Frame>): seq<byte> {
    if frames == [] then [] else (if Data(frames[0]) then frames[0].payload else []) + DataBytes(frames[1..])
  }

  /** The bytes of the delivered messages. */
  function Delivered(events: seq<Event>): seq<byte> {
    if events == [] then [] else EventBytes(events[0]) + Delivered(events[1..])
  }

  predicate Consistent(a: Assembly, max: int) {
    |a.buffer| <= max && (a.opcode == 0 ==> a.buffer == [])
  }

  /** At every point the delivered bytes and the buffer are the bytes of the data frames read
      so far, and neither a message nor the buffer exceeds the limit. */
  lemma {:induction false} NothingLost(a: Assembly, frames: seq<Frame>, max: int)
    requires Consistent(a, max) && forall f :: f in frames ==> Legal(f, max)
    ensures var d := Deliver(a, frames, max);
            && Consistent(d.end, max)
            && (forall e :: e in d.events && e.opcode == OP_BINARY ==> |e.payload| <= max)
            && (d.error.None? ==> Delivered(d.events) + d.end.buffer == a.buffer + DataBytes(frames))
    decreases |frames|
  {
    hide Legal, Accept, Consistent, Data;
    if frames != [] {
      var f := frames[0];
      LegalSize(f, max);
      AcceptKeeps(a, f, max);
      match Accept(a, f, max)
      case Skip(next) =>
        NothingLost(next, frames[1..], max);
      case Emit(next, event) =>
        NothingLost(next, frames[1..], max);
        var d := Deliver(next, frames[1..], max);
        assert ([event] + d.events)[1..] == d.events;
        if d.error.None? {
          Rearrange(EventBytes(event), Delivered(d.events), d.end.buffer, next.buffer, DataBytes(frames[1..]),
            a.buffer, if Data(f) then f.payload else []);
        }
      case Refuse(_, _) =>
    }
  }

  lemma Rearrange(event: seq<byte>, later: seq<byte>, end: seq<byte>, next: seq<byte>, rest: seq<byte>, a: seq<byte>,
                  f: seq<byte>)
    requires later + end == next + rest && event + next == a + f
    ensures event + later + end == a + (f + rest)
  {
    assert event + later + end == event + (later + end);
    assert event + (next + rest) == event + next + rest;
  }

  function EventBytes(e: Event): seq<byte> {
    if e.opcode == OP_BINARY then e.payload else []
  }

  /** One frame moves its data bytes into the buffer, or the buffer and them into a message. */
  lemma AcceptKeeps(a: Assembly, f: Frame, max: int)
    requires Consistent(a, max) && |f.payload| <= max
    ensures var o := Accept(a, f, max);
            var data := if Data(f) then f.payload else [];
            && (!o.Refuse? ==> Consistent(o.next, max))
            && (o.Skip? ==> o.next.buffer == a.buffer + data)
            && (o.Emit? ==> EventBytes(o.event) + o.next.buffer == a.buffer + data && |EventBytes(o.event)| <= max)
  {
  }

  lemma LegalSize(f: Frame, max: int)
    requires Legal(f, max)
    ensures |f.payload| <= max
  {
  }

  // --------------------------------------------------------------- the event loop

  datatype Next = Got(event: Event, after: Assembly, rest: seq<byte>) | Stopped(after: Assembly, error: ReadError)

  /** The first event of a run of bytes. */
  function FirstEvent(a: Assembly, input: seq<byte>, max: int): Next
    decreases |input|
  {
    match Parse(input, max)
    case Truncated => Stopped(a, EndOfInput)
    case Refused(code, reason) => Stopped(a, Protocol(code, reason))
    case Parsed(f, _, rest) =>
      match Accept(a, f, max)
      case Skip(next) => FirstEvent(next, rest, max)
      case Emit(next, event) => Got(event, next, rest)
      case Refuse(code, reason) => Stopped(a, Protocol(code, reason))
  }

  function AfterEvent(n: Next, max: int): Stream {
    match n
    case Got(event, after, rest) => Prepend([event], Session(after, rest, max))
    case Stopped(after, error) => Stream([], after, Some(error))
  }

  /** Taking events one at a time gives the whole stream. */
  lemma {:induction false} SessionByEvents(a: Assembly, input: seq<byte>, max: int)
    ensures Session(a, input, max) == AfterEvent(FirstEvent(a, input, max), max)
    ensures FirstEvent(a, input, max).Got? ==> |FirstEvent(a, input, max).rest| < |input|
    decreases |input|
  {
    hide Parse, Accept;
    var p := Parse(input, max);
    if p.Parsed? && Accept(a, p.frame, max).Skip? {
      SessionByEvents(Accept(a, p.frame, max).next, p.rest, max);
    }
  }

  /** What the event loop must return and leave for what was left to read. */
  predicate Yields(n: Next, event: Result<Event, ReadError>, after: Assembly, rest: seq<byte>) {
    match n
    case Got(e, next, left) => event == Ok(e) && after == next && rest == left
    case Stopped(next, error) => event == Err(error) && after == next
  }

  class ClientFrameReader {
    const reader: ByteReader
    const maxMessageBytes: int
    var fragmentedOpcode: byte
    var fragmented: seq<byte>

    ghost function State(): Assembly
      reads this
    {
      Assembly(fragmentedOpcode, fragmented)
    }

    constructor (reader: ByteReader, maxMessageBytes: int)
      ensures this.reader == reader && this.maxMessageBytes == maxMessageBytes && State() == IDLE
    {
      this.reader, this.maxMessageBytes := reader, maxMessageBytes;
      fragmentedOpcode, fragmented := 0, [];
    }

    /** Read frames until there is an event to hand over. */
    method NextEvent() returns (event: Result<Event, ReadError>)
      requires reader.Valid()
      modifies this, reader
      ensures reader.Valid()
      ensures Yields(FirstEvent(old(State()), old(reader.Rest()), maxMessageBytes), event, State(), reader.Rest())
    {
      hide Parse;
      while true
        invariant reader.Valid()
        invariant FirstEvent(State(), reader.Rest(), maxMessageBytes)
               == old(FirstEvent(State(), reader.Rest(), maxMessageBytes))
        decreases |reader.Rest()|
      {
        var out := ReadClientFrame(reader, maxMessageBytes);
        if out.Failed? {
          return Err(out.error);
        }
        var frame := out.frame;
        if frame.opcode == OP_CLOSE || frame.opcode == OP_PING || frame.opcode == OP_PONG {
          return Ok(Event(frame.opcode, frame.payload));
        } else if frame.opcode == OP_TEXT {
          return Err(Protocol(1002, "text frames are not supported"));
        } else if frame.opcode == OP_BINARY {
          if fragmentedOpcode != 0 {
            return Err(Protocol(1002, "new data frame before fragmented message completed"));
          }
          if frame.fin {
            return Ok(Event(OP_BINARY, frame.payload));
          }
          fragmentedOpcode, fragmented := OP_BINARY, frame.payload;
        } else if frame.opcode == OP_CONTINUATION {
          if fragmentedOpcode == 0 {
            return Err(Protocol(1002, "unexpected continuation frame"));
          }
          if |fragmented| > maxMessageBytes - |frame.payload| {
            return Err(Protocol(1009, "message too large"));
          }
          fragmented := fragmented + frame.payload;
          if frame.fin {
            var message := fragmented;
            fragmented, fragmentedOpcode := [], 0;
            return Ok(Event(OP_BINARY, message));
          }
        } else {
          return Err(Protocol(1002, "unsupported opcode"));
        }
      }
    }
  }
}
