/** Close frames: what is accepted from a client and what the relay sends (section 7.4 of RFC 6455). */
module Closing {
  import opened Bytes
  import opened Frames
  import opened FrameReader
  import opened FrameWriter

  // --------------------------------------------------------------------- UTF-8

  predicate Tail(b: byte) {
    0x80 <= b <= 0xBF
  }

  /** The length of the well-formed UTF-8 character a text starts with, or zero (section 4 of RFC 3629). */
  function CharLength(s: seq<byte>): (n: nat)
    ensures n <= |s|
  {
    if |s| >= 1 && s[0] <= 0x7F then 1
    else if |s| >= 2 && 0xC2 <= s[0] <= 0xDF && Tail(s[1]) then 2
    else if |s| >= 3 && s[0] == 0xE0 && 0xA0 <= s[1] <= 0xBF && Tail(s[2]) then 3
    else if |s| >= 3 && (0xE1 <= s[0] <= 0xEC || 0xEE <= s[0] <= 0xEF) && Tail(s[1]) && Tail(s[2]) then 3
    else if |s| >= 3 && s[0] == 0xED && 0x80 <= s[1] <= 0x9F && Tail(s[2]) then 3
    else if |s| >= 4 && s[0] == 0xF0 && 0x90 <= s[1] <= 0xBF && Tail(s[2]) && Tail(s[3]) then 4
    else if |s| >= 4 && 0xF1 <= s[0] <= 0xF3 && Tail(s[1]) && Tail(s[2]) && Tail(s[3]) then 4
    else if |s| >= 4 && s[0] == 0xF4 && 0x80 <= s[1] <= 0x8F && Tail(s[2]) && Tail(s[3]) then 4
    else 0
  }

  predicate Utf8(s: seq<byte>) {
    s == [] || (CharLength(s) > 0 && Utf8(s[CharLength(s)..]))
  }

  lemma {:induction false} AsciiIsUtf8(s: seq<byte>)
    requires forall b :: b in s ==> b <= 0x7F
    ensures Utf8(s)
  {
    if s != [] {
      assert s[0] in s && forall b :: b in s[1..] ==> b in s;
      AsciiIsUtf8(s[1..]);
    }
  }

  // ------------------------------------------------------------- close payloads

  predicate ValidCloseCode(code: nat) {
    if 3000 <= code <= 4999 then true
    else if code < 1000 || code >= 1016 then false
    else code != 1004 && code != 1005 && code != 1006 && code != 1015
  }

  datatype CloseCheck = Accepted | Rejected(code: nat, reason: string)

  function ValidateClosePayload(payload: seq<byte>): CloseCheck {
    if |payload| == 0 then Accepted
    else if |payload| == 1 then Rejected(1002, "invalid close payload")
    else if !ValidCloseCode(BigEndian(payload[..2])) then Rejected(1002, "invalid close code")
    else if !Utf8(payload[2..]) then Rejected(1007, "invalid close reason")
    else Accepted
  }

  /** The bytes of a reason; every reason the relay gives is ASCII. */
  function AsciiBytes(s: string): (r: seq<byte>)
    ensures |r| == |s|
  {
    seq(|s|, i requires 0 <= i < |s| => Low(s[i] as nat))
  }

  /** Code and reason, cut to the size of a control frame. */
  function ClosePayload(code: nat, reason: seq<byte>): (r: seq<byte>)
    ensures 2 <= |r| <= 125
  {
    var all := ToBytes(code, 2) + reason;
    if |all| > 125 then all[..125] else all
  }

  /** The relay accepts its own Close exactly when the code may be sent and cutting the reason
      at 123 bytes does not break a character. */
  lemma OwnCloseValid(code: nat, reason: seq<byte>)
    requires code < 0x1_0000
    ensures ValidateClosePayload(ClosePayload(code, reason)) == Accepted
            <==> ValidCloseCode(code) && Utf8(if |reason| > 123 then reason[..123] else reason)
  {
    hide ToBytes, BigEndian, Utf8, Pow256, ValidCloseCode;
    assert BigEndian(ToBytes(code, 2)) == code by { Powers(); BigEndianOfBytes(code, 2); }
    var p := ClosePayload(code, reason);
    assert p[..2] == ToBytes(code, 2);
    assert p[2..] == if |reason| > 123 then reason[..123] else reason;
  }

  predicate Ascii(s: string) {
    forall i :: 0 <= i < |s| ==> s[i] as int <= 0x7F
  }

  lemma AsciiCloseValid(code: nat, reason: string)
    requires ValidCloseCode(code) && Ascii(reason)
    ensures ValidateClosePayload(ClosePayload(code, AsciiBytes(reason))) == Accepted
  {
    hide Utf8, ValidateClosePayload, ClosePayload;
    var bytes := AsciiBytes(reason);
    forall i | 0 <= i < |bytes| ensures bytes[i] <= 0x7F {
      AsciiByte(reason[i] as nat);
    }
    AsciiIsUtf8(bytes);
    AsciiIsUtf8(if |bytes| > 123 then bytes[..123] else bytes);
    assert code < 0x1_0000;
    OwnCloseValid(code, bytes);
  }

  lemma AsciiByte(n: nat)
    requires n <= 0x7F
    ensures Low(n) <= 0x7F
  {
    ValueByte(n);
  }

  // --------------------------------------------------------- what the relay says

  /** The code and the reason a read error is reported with. */
  function CloseForReadError(e: ReadError): (nat, string) {
    match e
    case Protocol(code, reason) => (code, reason)
    case EndOfInput => (1002, "protocol error")
  }

  function CloseOut(code: nat, reason: string): Out {
    Out(OP_CLOSE, ClosePayload(code, AsciiBytes(reason)))
  }

  /** A frame the relay may send: legal, and if it is a Close one that the relay would accept. */
  predicate Sendable(f: Out) {
    LegalOut(f) && (f.opcode == OP_CLOSE ==> ValidateClosePayload(f.payload) == Accepted)
  }

  predicate Sayable(code: nat, reason: string) {
    ValidCloseCode(code) && Ascii(reason)
  }

  lemma CloseSendable(code: nat, reason: string)
    requires Sayable(code, reason)
    ensures Sendable(CloseOut(code, reason))
  {
    hide ValidateClosePayload;
    AsciiCloseValid(code, reason);
  }

  // The reasons the relay gives.

  lemma CodecReasons()
    ensures Ascii("RSV bits are not supported") && Ascii("reserved opcode") && Ascii("client frame is not masked")
    ensures Ascii("invalid control frame") && Ascii("message too large") && Ascii("protocol error")
  {
  }

  lemma LengthReasons()
    ensures Ascii("non-minimal payload length") && Ascii("invalid 64-bit payload length")
    ensures Ascii("invalid close payload") && Ascii("invalid close code") && Ascii("invalid close reason")
  {
  }

  lemma FragmentReasons()
    ensures Ascii("text frames are not supported") && Ascii("unexpected continuation frame")
        && Ascii("unsupported opcode")
  {
  }

  lemma LongReason(part: string)
    requires part == "new data frame before fra" || part == "gmented message completed"
    ensures Ascii(part)
  {
  }

  lemma UnfinishedReason()
    ensures Ascii("new data frame before fragmented message completed")
  {
    var a, b := "new data frame before fra", "gmented message completed";
    assert Ascii(a) by { LongReason(a); }
    assert Ascii(b) by { LongReason(b); }
    assert "new data frame before fragmented message completed" == a + b;
  }

  lemma UpstreamReasons()
    ensures Ascii("telegram closed") && Ascii("telegram read failed") && Ascii("telegram write failed")
  {
  }
}
