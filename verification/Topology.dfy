/** Signed topology bundles: what is accepted, and when. */
module Topology {
  import opened Wrappers
  import opened Bytes

  // Times are nanoseconds.
  const MINUTE: int := 60_000_000_000
  const DAY: int := 24 * 60 * MINUTE
  const MAX_BUNDLE: nat := 0x10_0000
  const SCHEMA: int := 1
  const PUBLIC_KEY_SIZE: nat := 32
  const PRIVATE_KEY_SIZE: nat := 64
  const SIGNATURE_SIZE: nat := 64

  datatype Endpoint = Endpoint(address: string, role: string)

  type Routes = map<int, seq<Endpoint>>

  datatype Payload = Payload(schema: int, generation: nat, notBefore: string, expiresAt: string, production: Routes,
                             test: Routes)

  datatype Bundle = Bundle(payload: Payload, signature: string)

  datatype Snapshot = Snapshot(generation: nat, notBefore: int, expiresAt: int, production: Routes, test: Routes,
                               raw: seq<byte>)

  /** The primitives that the code calls: JSON, timestamps, base64, Ed25519 and the checks of
      endpoint addresses. */
  datatype Primitives = Primitives(
    parse: seq<byte> -> Option<Bundle>,              // exactly one object, no unknown field
    render: Bundle -> seq<byte>,
    marshal: Payload -> seq<byte>,
    time: string -> Option<int>,
    validOptions: Routes -> bool,
    decode64: string -> Option<seq<byte>>,
    encode64: seq<byte> -> string,
    sign: (seq<byte>, seq<byte>) -> seq<byte>,
    verify: (seq<byte>, seq<byte>, seq<byte>) -> bool)

  function ValidatePayload(f: Primitives, p: Payload, now: int, allowExpired: bool): Option<string> {
    if p.schema != SCHEMA || p.generation == 0 then Some("topology bundle schema or generation is invalid")
    else if f.time(p.notBefore).None? then Some("topology notBefore is invalid")
    else if f.time(p.expiresAt).None? || f.time(p.expiresAt).value <= f.time(p.notBefore).value then
      Some("topology expiresAt is invalid")
    else if f.time(p.notBefore).value > now + 5 * MINUTE then Some("topology bundle is not active yet")
    else if !allowExpired && f.time(p.expiresAt).value <= now then Some("topology bundle is expired")
    else if f.time(p.expiresAt).value - f.time(p.notBefore).value > 90 * DAY then
      Some("topology validity interval is too long")
    else if p.production == map[] then Some("topology production routes are empty")
    else if !f.validOptions(p.production) then Some("production endpoints are invalid")
    else if !f.validOptions(p.test) then Some("test endpoints are invalid")
    else None
  }

  function Verify(f: Primitives, data: seq<byte>, publicKey: seq<byte>, now: int, allowExpired: bool)
    : Result<Snapshot, string>
  {
    if |data| == 0 || |data| > MAX_BUNDLE then Err("topology bundle size is invalid")
    else match f.parse(data)
      case None => Err("parse topology bundle")
      case Some(bundle) =>
        match ValidatePayload(f, bundle.payload, now, allowExpired)
        case Some(error) => Err(error)
        case None =>
          var p := bundle.payload;
          var signature := f.decode64(bundle.signature);
          if signature.None? || |signature.value| != SIGNATURE_SIZE || |publicKey| != PUBLIC_KEY_SIZE
             || !f.verify(publicKey, f.marshal(p), signature.value) then
            Err("topology bundle signature is invalid")
          else
            Ok(Snapshot(p.generation, f.time(p.notBefore).value, f.time(p.expiresAt).value, p.production, p.test, data))
  }

  /** What a bundle must be apart from the clock. */
  predicate Authentic(f: Primitives, data: seq<byte>, publicKey: seq<byte>) {
    && 0 < |data| <= MAX_BUNDLE && f.parse(data).Some?
    && var b := f.parse(data).value;
       var p := b.payload;
       && p.schema == SCHEMA && p.generation > 0
       && f.time(p.notBefore).Some? && f.time(p.expiresAt).Some?
       && 0 < f.time(p.expiresAt).value - f.time(p.notBefore).value <= 90 * DAY
       && p.production != map[] && f.validOptions(p.production) && f.validOptions(p.test)
       && |publicKey| == PUBLIC_KEY_SIZE
       && f.decode64(b.signature).Some? && |f.decode64(b.signature).value| == SIGNATURE_SIZE
       && f.verify(publicKey, f.marshal(p), f.decode64(b.signature).value)
  }

  /** The snapshot of an authentic bundle. */
  function SnapshotOf(f: Primitives, data: seq<byte>, publicKey: seq<byte>): Snapshot
    requires Authentic(f, data, publicKey)
  {
    var p := f.parse(data).value.payload;
    Snapshot(p.generation, f.time(p.notBefore).value, f.time(p.expiresAt).value, p.production, p.test, data)
  }

  /** A bundle is accepted exactly when it is authentic, begins within five minutes from now and,
      unless expiry is forgiven, ends later than now; the snapshot does not depend on the clock. */
  lemma VerifyExact(f: Primitives, data: seq<byte>, publicKey: seq<byte>, now: int, allowExpired: bool)
    ensures Verify(f, data, publicKey, now, allowExpired).Ok? <==>
            Authentic(f, data, publicKey)
            && var s := SnapshotOf(f, data, publicKey);
               s.notBefore <= now + 5 * MINUTE && (allowExpired || now < s.expiresAt)
    ensures Verify(f, data, publicKey, now, allowExpired).Ok?
            ==> Verify(f, data, publicKey, now, allowExpired).value == SnapshotOf(f, data, publicKey)
  {
    if |data| != 0 && |data| <= MAX_BUNDLE && f.parse(data).Some? {
      var p := f.parse(data).value.payload;
      assert ValidatePayload(f, p, now, allowExpired).None? <==>
        (&& p.schema == SCHEMA && p.generation > 0
         && f.time(p.notBefore).Some? && f.time(p.expiresAt).Some?
         && 0 < f.time(p.expiresAt).value - f.time(p.notBefore).value <= 90 * DAY
         && f.time(p.notBefore).value <= now + 5 * MINUTE && (allowExpired || now < f.time(p.expiresAt).value)
         && p.production != map[] && f.validOptions(p.production) && f.validOptions(p.test));
    }
  }

  /** Bytes once accepted are accepted as last known good at any later time, with the same
      snapshot; at an earlier time, exactly when they begin within five minutes of it. */
  lemma AcceptedStaysGood(f: Primitives, data: seq<byte>, publicKey: seq<byte>, now: int, allowExpired: bool,
                          later: int)
    requires Verify(f, data, publicKey, now, allowExpired).Ok?
    ensures var s := Verify(f, data, publicKey, now, allowExpired).value;
            && (Verify(f, data, publicKey, later, true).Ok? <==> s.notBefore <= later + 5 * MINUTE)
            && (now <= later ==> Verify(f, data, publicKey, later, true) == Ok(s))
  {
    hide Verify, Authentic;
    VerifyExact(f, data, publicKey, now, allowExpired);
    VerifyExact(f, data, publicKey, later, true);
  }

  function Sign(f: Primitives, p: Payload, privateKey: seq<byte>, now: int): Result<seq<byte>, string> {
    match ValidatePayload(f, p, now, false)
    case Some(error) => Err(error)
    case None =>
      if |privateKey| != PRIVATE_KEY_SIZE then Err("invalid Ed25519 private key")
      else Ok(f.render(Bundle(p, f.encode64(f.sign(privateKey, f.marshal(p))))))
  }

  /** Primitives that undo each other for one key pair. */
  ghost predicate Paired(f: Primitives, privateKey: seq<byte>, publicKey: seq<byte>) {
    && |publicKey| == PUBLIC_KEY_SIZE
    && (forall b :: f.parse(f.render(b)) == Some(b))
    && (forall s :: f.decode64(f.encode64(s)) == Some(s))
    && (forall m :: |f.sign(privateKey, m)| == SIGNATURE_SIZE && f.verify(publicKey, m, f.sign(privateKey, m)))
  }

  /** A signed bundle of admissible size is accepted while it is valid, as what was signed. */
  lemma SignedIsAccepted(f: Primitives, p: Payload, privateKey: seq<byte>, publicKey: seq<byte>, now: int, later: int)
    requires Paired(f, privateKey, publicKey) && Sign(f, p, privateKey, now).Ok?
    requires var data := Sign(f, p, privateKey, now).value; 0 < |data| <= MAX_BUNDLE
    requires now <= later
    ensures f.time(p.expiresAt).Some?
    ensures var data := Sign(f, p, privateKey, now).value;
            && (Verify(f, data, publicKey, later, false).Ok? <==> later < f.time(p.expiresAt).value)
            && Verify(f, data, publicKey, later, true).Ok?
            && var s := Verify(f, data, publicKey, later, true).value;
               s.generation == p.generation && s.production == p.production && s.test == p.test && s.raw == data
  {
    var data := Sign(f, p, privateKey, now).value;
    var signature := f.sign(privateKey, f.marshal(p));
    assert f.parse(data) == Some(Bundle(p, f.encode64(signature)));
    assert f.decode64(f.encode64(signature)) == Some(signature);
    assert Authentic(f, data, publicKey);
    VerifyExact(f, data, publicKey, later, false);
    VerifyExact(f, data, publicKey, later, true);
  }
}
