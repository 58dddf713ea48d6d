/** The owner control plane on values: its durable and volatile state and, for
    every locked region of the program, the state it leaves behind. */
module ControlState {
  import opened Wrappers
  import opened Text
  import opened Config

  const MAX_TOKENS := 1024
  const MAX_TOMBSTONES := 2048
  const MAX_CLIENTS := 4096
  const STATE_VERSION := 3

  // ------------------------------------------------------------------ data

  /** Metadata of a client in the order in which records are merged: identity version,
      manufacturer, brand, canonical brand, model, marketing name, device, product,
      app version, app code, Android, country, city, remote address. */
  const FIELDS := 14
  const HEADER_FIELDS := 11
  const MANUFACTURER := 1
  const MODEL := 4
  const COUNTRY := 11
  const CITY := 12
  const REMOTE_IP := 13
  const LIMITS: seq<nat> := [16, 96, 96, 96, 128, 160, 128, 128, 64, 32, 64]

  type Meta = m: seq<string> | |m| == FIELDS
    witness ["", "", "", "", "", "", "", "", "", "", "", "", "", ""]
  type Headers = h: seq<string> | |h| == HEADER_FIELDS
    witness ["", "", "", "", "", "", "", "", "", "", ""]

  /** Time stamps are numbers; 0 is the empty text. */
  datatype Client = Client(key: string, tokenId: string, deviceId: string, meta: Meta, firstSeen: nat, lastSeen: nat)

  /** What the state file holds. */
  datatype Durable = Durable(
    version: nat,
    instanceId: string,
    added: seq<Token>,
    revoked: seq<string>,
    deleted: seq<string>,
    clients: map<string, Client>,
    blocked: map<string, nat>)

  datatype Session = Session(clientKey: string)

  type Active = map<string, map<nat, Session>>

  /** The unregister closure of one session: the token bucket and the client key it captured. */
  datatype Closure = Closure(tokenId: string, clientKey: string)

  /** `handle` is the timer the program remembers, `armed` the timers that will still fire,
      `fired` those whose callback has been started but has not yet taken the lock. */
  datatype Timers = Timers(handle: Option<nat>, armed: set<nat>, fired: set<nat>, next: nat)

  /** `disk`, `synced`, `authorized`, `collected` and `issued` are bookkeeping about the
      environment: the state file, whether this process has replaced it, the tokens handed
      out by authorization in this process, the sessions whose closer has been collected,
      and the id under which each secret hash was ever accepted. */
  datatype Plane = Plane(
    mem: Durable,
    active: Active,
    nextSession: nat,
    closures: map<nat, Closure>,
    dirty: bool,
    timers: Timers,
    shuttingDown: bool,
    disk: Option<Durable>,
    synced: bool,
    authorized: set<Token>,
    collected: set<nat>,
    issued: map<string, string>)

  /** Configuration and the library functions the program relies on: the digest of a
      secret, the id derived from an idempotency key, and whether base64 text decodes. */
  datatype Setup = Setup(
    base: seq<Token>,
    configuredId: string,
    tokenHash: string -> string,
    requestId: string -> string,
    decodes: string -> bool)

  predicate ValidInstanceId(value: string) {
    var clean := Trim(value);
    "ri_" <= clean && 32 <= |clean| - 3 <= 64 && Hex(clean[3..])
  }

  predicate MintedId(id: string) {
    "tok_" <= id && |id| == 28 && Hex(id[4..])
  }

  ghost predicate ValidSetup(cfg: Setup) {
    && ValidBase(cfg.base)
    && (cfg.configuredId != "" ==> ValidInstanceId(cfg.configuredId))
    && (forall raw :: ValidHash(cfg.tokenHash(raw)))
    && (forall key :: MintedId(cfg.requestId(key)))
  }

  // --------------------------------------------------------- token visibility

  /** Tokens that are not revoked, each hash once, in order. */
  function Visible(ts: seq<Token>, revoked: seq<string>, seen: set<string>): seq<Token> {
    if ts == [] then []
    else if ts[0].hash == "" || ts[0].hash in revoked || ts[0].hash in seen then Visible(ts[1..], revoked, seen)
    else [ts[0]] + Visible(ts[1..], revoked, seen + {ts[0].hash})
  }

  function AllTokens(cfg: Setup, m: Durable): seq<Token> {
    Visible(cfg.base + m.added, m.revoked, {})
  }

  function FindId(ts: seq<Token>, id: string): (r: Option<Token>)
    ensures r.Some? ==> r.value in ts && r.value.id == id
    ensures r.None? ==> forall t :: t in ts ==> t.id != id
  {
    if ts == [] then None else if ts[0].id == id then Some(ts[0]) else FindId(ts[1..], id)
  }

  function FindHash(ts: seq<Token>, hash: string): (r: Option<Token>)
    ensures r.Some? ==> r.value in ts && r.value.hash == hash
    ensures r.None? ==> forall t :: t in ts ==> t.hash != hash
  {
    if ts == [] then None else if ts[0].hash == hash then Some(ts[0]) else FindHash(ts[1..], hash)
  }

  /** Authorization of a bearer secret that has been hashed. */
  function Authorize(cfg: Setup, m: Durable, hash: string): Option<Token> {
    if hash in m.revoked then None else FindHash(AllTokens(cfg, m), hash)
  }

  predicate TokenActive(cfg: Setup, m: Durable, hash: string) {
    hash != "" && Authorize(cfg, m, hash).Some?
  }

  // ------------------------------------------------------------- persistence

  function Stop(t: Timers): Timers {
    match t.handle
    case None => t
    case Some(h) => t.(handle := None, armed := t.armed - {h})
  }

  function Arm(t: Timers): Timers {
    Timers(Some(t.next), t.armed + {t.next}, t.fired, t.next + 1)
  }

  function Persisted(p: Plane): Plane {
    p.(disk := Some(p.mem), synced := true)
  }

  /** A write that is a durability boundary; `ok` is its outcome. A failed write leaves
      the old file in place. */
  function PersistCritical(p: Plane, ok: bool): Plane {
    if ok then Persisted(p).(dirty := false, timers := Stop(p.timers)) else p
  }

  function Schedule(p: Plane): Plane {
    if p.shuttingDown || p.timers.handle.Some? then p.(dirty := true)
    else p.(dirty := true, timers := Arm(p.timers))
  }

  function TimerFires(p: Plane, t: nat): Plane {
    if t in p.timers.armed then
      p.(timers := p.timers.(armed := p.timers.armed - {t}, fired := p.timers.fired + {t}))
    else p
  }

  /** The flush callback of timer `t`, which may run long after the timer was stopped. */
  function FlushCallback(p: Plane, t: nat, ok: bool): Plane {
    if t !in p.timers.fired then p
    else
      var q := p.(timers := p.timers.(fired := p.timers.fired - {t}, handle := None));
      if !q.dirty then q
      else if ok then Persisted(q).(dirty := false)
      else q.(timers := Arm(q.timers))
  }

  // ------------------------------------------------------------ token creation

  datatype CreateArgs = CreateArgs(
    name: string, secret: string, key: string, createdAt: string, drawnSecret: string, drawnId: string)

  datatype CreateError =
    | BadKey | BadSecret | SecretRequired
    | DeletedKey | OtherSecret | OtherName
    | TooManyTokens | CreateNotPersisted

  datatype Created = Created(token: Token, secret: string, replayed: bool)

  const DEFAULT_NAME := "Подключение"

  function CleanName(name: string): string {
    var clean := SanitizeDisplay(name, 128);
    if clean == "" then DEFAULT_NAME else clean
  }

  predicate ValidClientSecret(cfg: Setup, raw: string) {
    "tgpr_" <= raw && 32 <= |raw| <= 128 && cfg.decodes(raw[5..])
  }

  /** The secret and the token a request asks for, before the lock is taken. */
  function Requested(cfg: Setup, a: CreateArgs): Result<(Token, string, string), CreateError> {
    var raw := Trim(a.secret);
    var key := SanitizeIdentifier(a.key, 96);
    if a.key != "" && key == "" then Err(BadKey)
    else if raw != "" && !ValidClientSecret(cfg, raw) then Err(BadSecret)
    else if key != "" && raw == "" then Err(SecretRequired)
    else
      var secret := if raw == "" then a.drawnSecret else raw;
      var id := if key != "" then cfg.requestId(key) else a.drawnId;
      Ok((Token(id, CleanName(a.name), cfg.tokenHash(secret), a.createdAt), secret, key))
  }

  /** What a keyed request finds: an error, a replay, or nothing. */
  function Replay(cfg: Setup, m: Durable, token: Token, secret: string): Option<Result<Created, CreateError>> {
    if token.id in m.deleted then Some(Err(DeletedKey))
    else match FindId(AllTokens(cfg, m), token.id)
      case None => None
      case Some(existing) =>
        if existing.hash != token.hash then Some(Err(OtherSecret))
        else if SanitizeDisplay(existing.name, 128) != token.name then Some(Err(OtherName))
        else Some(Ok(Created(existing, secret, true)))
  }

  function CreateToken(cfg: Setup, p: Plane, a: CreateArgs, ok: bool): (Plane, Result<Created, CreateError>) {
    match Requested(cfg, a)
    case Err(e) => (p, Err(e))
    case Ok((token, secret, key)) =>
      var replay := if key != "" then Replay(cfg, p.mem, token, secret) else None;
      if replay.Some? then (p, replay.value)
      else if |AllTokens(cfg, p.mem)| >= MAX_TOKENS then (p, Err(TooManyTokens))
      else if !ok then (p, Err(CreateNotPersisted))
      else (AddToken(p, token), Ok(Created(token, secret, false)))
  }

  function AddToken(p: Plane, token: Token): Plane {
    PersistCritical(p.(mem := p.mem.(added := p.mem.added + [token])), true)
      .(issued := p.issued[token.hash := token.id])
  }

  // ------------------------------------------------------------ token deletion

  datatype DeleteError = IdRequired | NoSuchToken | TooManyRevocations | TooManyTombstones | DeleteNotPersisted

  function DropHash(ts: seq<Token>, hash: string): seq<Token> {
    if ts == [] then []
    else if ts[0].hash == hash then DropHash(ts[1..], hash)
    else [ts[0]] + DropHash(ts[1..], hash)
  }

  predicate HasHash(ts: seq<Token>, hash: string) {
    exists t :: t in ts && t.hash == hash
  }

  function SessionsOf(active: Active, tokenId: string): set<nat> {
    if tokenId in active then active[tokenId].Keys else {}
  }

  /** The token lists without `found`. */
  function Revocation(cfg: Setup, m: Durable, found: Token): Durable {
    var id := found.id;
    var revoked := if HasHash(cfg.base, found.hash) && found.hash !in m.revoked then m.revoked + [found.hash]
                   else m.revoked;
    var deleted := if "tok_" <= id && id !in m.deleted then m.deleted + [id] else m.deleted;
    m.(added := DropHash(m.added, found.hash), revoked := revoked, deleted := deleted)
  }

  /** Memory after a successful deletion of `found`. */
  function Deletion(cfg: Setup, m: Durable, found: Token): Durable {
    var gone := set k | k in m.clients && m.clients[k].tokenId == found.id;
    var unblocked := set k | k in gone && k in m.blocked && m.blocked[k] != 0;
    Revocation(cfg, m, found).(clients := m.clients - gone, blocked := m.blocked - unblocked)
  }

  /** Why a deletion is refused: a list of tombstones is full, or the write fails. */
  function Refusal(cfg: Setup, m: Durable, found: Token, ok: bool): Option<DeleteError> {
    if HasHash(cfg.base, found.hash) && found.hash !in m.revoked && |m.revoked| >= MAX_TOMBSTONES then
      Some(TooManyRevocations)
    else if "tok_" <= found.id && found.id !in m.deleted && |m.deleted| >= MAX_TOMBSTONES then
      Some(TooManyTombstones)
    else if !ok then Some(DeleteNotPersisted)
    else None
  }

  function DeleteToken(cfg: Setup, p: Plane, id: string, ok: bool): (Plane, Result<set<nat>, DeleteError>) {
    var cleanId := Trim(id);
    if cleanId == "" then (p, Err(IdRequired))
    else match FindId(AllTokens(cfg, p.mem), cleanId)
      case None => (p, Err(NoSuchToken))
      case Some(found) =>
        var refused := Refusal(cfg, p.mem, found, ok);
        if refused.Some? then (p, Err(refused.value))
        else
          var closers := SessionsOf(p.active, cleanId);
          (PersistCritical(p.(mem := Deletion(cfg, p.mem, found)), true).(collected := p.collected + closers),
           Ok(closers))
  }

  // ------------------------------------------------------------ device blocking

  datatype DeviceError = BadDevice | NoSuchDevice | BlockNotPersisted

  function ClientKey(tokenId: string, deviceId: string): string {
    tokenId + ":" + deviceId
  }

  function DeviceKey(tokenId: string, deviceId: string): Option<string> {
    var t, d := SanitizeIdentifier(tokenId, 96), SanitizeIdentifier(deviceId, 96);
    if t == "" || d == "" then None else Some(ClientKey(t, d))
  }

  function DeviceSessions(active: Active, key: string): set<nat> {
    set t, sid | t in active && sid in active[t] && active[t][sid].clientKey == key :: sid
  }

  function AllSessions(active: Active): set<nat> {
    set t, sid | t in active && sid in active[t] :: sid
  }

  function SetBlocked(p: Plane, tokenId: string, deviceId: string, block: bool, now: nat, ok: bool)
    : (Plane, Result<set<nat>, DeviceError>)
  {
    match DeviceKey(tokenId, deviceId)
    case None => (p, Err(BadDevice))
    case Some(key) =>
      if key !in p.mem.clients then (p, Err(NoSuchDevice))
      else if !ok then (p, Err(BlockNotPersisted))
      else
        var blocked := if block then p.mem.blocked[key := now] else p.mem.blocked - {key};
        var closers := if block then DeviceSessions(p.active, key) else {};
        (PersistCritical(p.(mem := p.mem.(blocked := blocked)), true).(collected := p.collected + closers), Ok(closers))
  }

  function Disconnect(p: Plane, tokenId: string, deviceId: string): (Plane, Result<set<nat>, DeviceError>) {
    match DeviceKey(tokenId, deviceId)
    case None => (p, Err(BadDevice))
    case Some(key) =>
      if key !in p.mem.clients then (p, Err(NoSuchDevice))
      else
        var closers := DeviceSessions(p.active, key);
        (p.(collected := p.collected + closers), Ok(closers))
  }

  // --------------------------------------------------------------- migration

  /** The device identity of a request; the previous id is kept only for the narrow
      upgrade from `dev_` to `dev2_` ids. */
  datatype Identity = Identity(tokenId: string, deviceId: string, previousId: string, legacyId: string)

  datatype Place = Place(country: string, city: string)

  /** `cached` is the place that the location cache holds for the remote address, if locations
      are resolved at all, the address is public and the entry is not too old. */
  datatype Request = Request(
    rawDevice: string, rawPrevious: string, legacyId: string, remoteIp: string, headers: Headers, cached: Option<Place>)

  predicate LegacyId(id: string) {
    "legacy_" <= id && |id| == 23 && Hex(id[7..])
  }

  function IdentityOf(tokenId: string, r: Request): Identity {
    var device, previous := SanitizeIdentifier(r.rawDevice, 96), SanitizeIdentifier(r.rawPrevious, 96);
    if device == "" then Identity(tokenId, r.legacyId, "", r.legacyId)
    else if !("dev2_" <= device) || !("dev_" <= previous) || previous == device then
      Identity(tokenId, device, "", r.legacyId)
    else Identity(tokenId, device, previous, r.legacyId)
  }

  function Candidates(i: Identity): set<string> {
    {i.deviceId, i.previousId, i.legacyId} - {""}
  }

  predicate BlockedIdentity(m: Durable, i: Identity) {
    exists d :: d in Candidates(i) && ClientKey(i.tokenId, d) in m.blocked
  }

  function FirstNonEmpty(a: Meta, b: Meta): Meta {
    seq(FIELDS, i requires 0 <= i < FIELDS => if a[i] == "" then b[i] else a[i])
  }

  function EarlierStamp(a: nat, b: nat): nat {
    if a == 0 || (b != 0 && b < a) then b else a
  }

  function MergeClient(destination: Client, source: Client): Client {
    destination.(
      firstSeen := EarlierStamp(destination.firstSeen, source.firstSeen),
      lastSeen := if source.lastSeen > destination.lastSeen then source.lastSeen else destination.lastSeen,
      meta := FirstNonEmpty(destination.meta, source.meta))
  }

  function Relabel(active: Active, oldKey: string, newKey: string): Active {
    map t | t in active ::
      map sid | sid in active[t] :: if active[t][sid].clientKey == oldKey then Session(newKey) else active[t][sid]
  }

  function MergeKey(p: Plane, oldKey: string, newKey: string, tokenId: string, deviceId: string): Plane {
    if oldKey !in p.mem.clients then p
    else
      var source := p.mem.clients[oldKey];
      var merged := if newKey in p.mem.clients then MergeClient(p.mem.clients[newKey], source)
                    else source.(key := newKey, tokenId := tokenId, deviceId := deviceId);
      var clients := p.mem.clients[newKey := merged] - {oldKey};
      var blocked :=
        if oldKey in p.mem.blocked && p.mem.blocked[oldKey] != 0 then
          (if newKey !in p.mem.blocked || p.mem.blocked[newKey] == 0 || p.mem.blocked[oldKey] < p.mem.blocked[newKey]
           then p.mem.blocked[newKey := p.mem.blocked[oldKey]] else p.mem.blocked) - {oldKey}
        else p.mem.blocked;
      p.(mem := p.mem.(clients := clients, blocked := blocked), active := Relabel(p.active, oldKey, newKey))
  }

  predicate LegacyMatches(c: Client, r: Request) {
    var manufacturer := SanitizeDisplay(r.headers[MANUFACTURER], LIMITS[MANUFACTURER]);
    var model := SanitizeDisplay(r.headers[MODEL], LIMITS[MODEL]);
    && r.remoteIp != "" && c.meta[REMOTE_IP] == r.remoteIp
    && manufacturer != "" && model != ""
    && Lower(c.meta[MANUFACTURER]) == Lower(manufacturer) && Lower(c.meta[MODEL]) == Lower(model)
  }

  function OldKeys(m: Durable, i: Identity, r: Request): seq<string> {
    var legacyKey := ClientKey(i.tokenId, i.legacyId);
    (if i.previousId != "" then [ClientKey(i.tokenId, i.previousId)] else [])
    + (if i.deviceId != i.legacyId && legacyKey in m.clients
        && LegacyMatches(m.clients[legacyKey], r) then [legacyKey] else [])
  }

  function MergeKeys(p: Plane, oldKeys: seq<string>, i: Identity): Plane
    decreases |oldKeys|
  {
    if oldKeys == [] then p
    else
      var newKey := ClientKey(i.tokenId, i.deviceId);
      var q := if oldKeys[0] == newKey then p else MergeKey(p, oldKeys[0], newKey, i.tokenId, i.deviceId);
      MergeKeys(q, oldKeys[1..], i)
  }

  function Migrate(p: Plane, i: Identity, r: Request): Plane {
    MergeKeys(p, OldKeys(p.mem, i, r), i)
  }

  // ----------------------------------------------------------------- pruning

  function ActiveKeys(active: Active): set<string> {
    set t, sid | t in active && sid in active[t] :: active[t][sid].clientKey
  }

  /** A legal order of eviction: every client once, clients without a session before
      clients with one, and within each class by increasing `lastSeen`. Map iteration and
      an unstable sort leave the order of ties open. */
  predicate EvictionOrder(order: seq<string>, clients: map<string, Client>, live: set<string>) {
    && |order| == |clients|
    && (set k | k in order) == clients.Keys
    && (forall i, j :: 0 <= i < j < |order| ==> order[i] != order[j])
    && (forall i, j :: 0 <= i < j < |order| ==> Before(order[i], order[j], clients, live))
  }

  predicate Before(a: string, b: string, clients: map<string, Client>, live: set<string>) {
    a in clients && b in clients
    && (b !in live ==> a !in live)
    && ((a in live <==> b in live) ==> clients[a].lastSeen <= clients[b].lastSeen)
  }

  function EvictCount(clients: map<string, Client>): nat {
    if |clients| < MAX_CLIENTS then 0 else |clients| - MAX_CLIENTS + 1
  }

  function Prune(m: Durable, order: seq<string>): Durable {
    if EvictCount(m.clients) > |order| then m
    else
      var gone := Elements(order[..EvictCount(m.clients)]);
      m.(clients := m.clients - gone, blocked := m.blocked - gone)
  }

  // ------------------------------------------------------------- registration

  /** A header replaces the recorded value unless it is empty once cleaned. */
  function Refreshed(meta: Meta, r: Request, i: nat): string
    requires i < FIELDS
  {
    if i == REMOTE_IP then r.remoteIp
    else if i >= HEADER_FIELDS then meta[i]
    else
      var clean := SanitizeDisplay(r.headers[i], LIMITS[i]);
      if clean != "" then clean else meta[i]
  }

  function ApplyHeaders(meta: Meta, r: Request): Meta {
    seq(FIELDS, i requires 0 <= i < FIELDS => Refreshed(meta, r, i))
  }

  const EMPTY_META: Meta := ["", "", "", "", "", "", "", "", "", "", "", "", "", ""]

  function Recorded(m: Durable, i: Identity, r: Request, now: nat): Durable {
    var key := ClientKey(i.tokenId, i.deviceId);
    var client := if key in m.clients then m.clients[key] else Client(key, i.tokenId, i.deviceId, EMPTY_META, now, 0);
    m.(clients := m.clients[key := client.(meta := ApplyHeaders(client.meta, r), lastSeen := now)])
  }

  function Located(c: Client, place: Place): Client {
    c.(meta := c.meta[COUNTRY := place.country][CITY := place.city])
  }

  /** A cached place fills in a client that has none. */
  function Placed(m: Durable, key: string, r: Request): Durable {
    if key in m.clients && r.remoteIp != "" && m.clients[key].meta[COUNTRY] == "" && r.cached.Some? then
      m.(clients := m.clients[key := Located(m.clients[key], r.cached.value)])
    else m
  }

  /** The record of the client that registers. */
  function Seen(m: Durable, i: Identity, r: Request, now: nat): Durable {
    Placed(Recorded(m, i, r, now), ClientKey(i.tokenId, i.deviceId), r)
  }

  function Bucket(active: Active, tokenId: string): map<nat, Session> {
    if tokenId in active then active[tokenId] else map[]
  }

  predicate Admits(cfg: Setup, p: Plane, token: Token, r: Request) {
    && !p.shuttingDown
    && TokenActive(cfg, p.mem, token.hash)
    && !BlockedIdentity(p.mem, IdentityOf(token.id, r))
  }

  predicate LiveIn(active: Active, tokenId: string, sid: nat) {
    tokenId in active && sid in active[tokenId]
  }

  function Link(active: Active, tokenId: string, sid: nat, key: string): Active {
    active[tokenId := Bucket(active, tokenId)[sid := Session(key)]]
  }

  /** Pruning, migration and the record of the new session, in this order. */
  function Entered(p: Plane, i: Identity, r: Request, now: nat, order: seq<string>): Plane {
    var migrated := Migrate(p.(mem := Prune(p.mem, order)), i, r);
    var sid, key := p.nextSession + 1, ClientKey(i.tokenId, i.deviceId);
    migrated.(mem := Recorded(migrated.mem, i, r, now), active := Link(migrated.active, i.tokenId, sid, key),
              nextSession := sid, closures := p.closures[sid := Closure(i.tokenId, key)])
  }

  function Registered(p: Plane, i: Identity, r: Request, now: nat, order: seq<string>): Plane {
    var q := Entered(p, i, r, now, order);
    q.(mem := Placed(q.mem, ClientKey(i.tokenId, i.deviceId), r))
  }

  /** Registration of a session whose upstream dial has finished; `order` resolves the ties
      of pruning. */
  function Register(cfg: Setup, p: Plane, token: Token, r: Request, now: nat, order: seq<string>)
    : (Plane, Option<nat>)
  {
    if !Admits(cfg, p, token, r) then (p, None)
    else (Schedule(Registered(p, IdentityOf(token.id, r), r, now, order)), Some(p.nextSession + 1))
  }

  function Unlink(active: Active, tokenId: string, sid: nat): Active {
    if tokenId !in active then active
    else
      var rest := active[tokenId] - {sid};
      if rest == map[] then active - {tokenId} else active[tokenId := rest]
  }

  function Touch(m: Durable, key: string, now: nat): Durable {
    if key in m.clients then m.(clients := m.clients[key := m.clients[key].(lastSeen := now)]) else m
  }

  /** The unregister closure of `sid`; running it again does nothing. */
  function Unregister(p: Plane, sid: nat, now: nat): Plane {
    if sid !in p.closures then p
    else
      var c := p.closures[sid];
      Schedule(p.(active := Unlink(p.active, c.tokenId, sid), mem := Touch(p.mem, c.clientKey, now),
                  closures := p.closures - {sid}))
  }

  /** How a location lookup ends: by a cache entry, or by an answer for an address. */
  datatype Lookup = FromCache(place: Place) | Resolved(ip: string, place: Place)

  /** What a lookup writes into the record of a client: an answer is cleaned, and ignored when it
      is empty or the client has since come from another address. */
  function Found(c: Client, l: Lookup): Option<Place> {
    match l
    case FromCache(place) => Some(place)
    case Resolved(ip, place) =>
      if place == Place("", "") || c.meta[REMOTE_IP] != ip then None
      else Some(Place(SanitizeDisplay(place.country, 128), SanitizeDisplay(place.city, 128)))
  }

  /** A finished location lookup. */
  function Locate(p: Plane, key: string, l: Lookup): Plane {
    if key !in p.mem.clients then p
    else match Found(p.mem.clients[key], l)
      case None => p
      case Some(place) =>
        Schedule(p.(mem := p.mem.(clients := p.mem.clients[key := Located(p.mem.clients[key], place)])))
  }

  // ------------------------------------------------------------ life cycle

  function BeginShutdown(p: Plane): Plane {
    p.(shuttingDown := true, collected := p.collected + AllSessions(p.active))
  }

  /** The last critical section of shutdown: stop the timer and write what is dirty. */
  function FinishShutdown(p: Plane, ok: bool): Plane {
    var q := p.(timers := Stop(p.timers));
    if !q.dirty then q else if ok then Persisted(q).(dirty := false) else q
  }

  const EMPTY_STATE := Durable(STATE_VERSION, "", [], [], [], map[], map[])

  /** The checks of loading a state file. */
  predicate Loadable(d: Durable) {
    && 1 <= d.version <= STATE_VERSION
    && (d.instanceId != "" ==> ValidInstanceId(d.instanceId))
    && |d.added| <= MAX_TOKENS && |d.revoked| <= MAX_TOMBSTONES && |d.deleted| <= MAX_TOMBSTONES
    && |d.clients| <= MAX_CLIENTS && |d.blocked| <= MAX_CLIENTS
    && (forall t :: t in d.added ==>
          t.id != "" && StableTokenId(t) == t.id && SameDigest(t.hash, NormalizeHash(t.hash)))
    && (forall h :: h in d.revoked ==> NormalizeHash(h) != "" && SameDigest(h, NormalizeHash(h)))
    && (forall id :: id in d.deleted ==> SanitizeIdentifier(id, 96) != "" && "tok_" <= id)
    && (forall k :: k in d.clients ==> GoodClient(k, d.clients[k]))
    && (forall k :: k in d.blocked ==> k in d.clients && d.blocked[k] != 0)
  }

  predicate GoodClient(k: string, c: Client) {
    && k == c.key && k == ClientKey(c.tokenId, c.deviceId)
    && SanitizeIdentifier(c.deviceId, 96) != "" && SanitizeIdentifier(c.tokenId, 96) != ""
  }

  /** The check of the loaded state against the configuration. */
  predicate MatchesConfig(cfg: Setup, d: Durable) {
    var ts := cfg.base + d.added;
    Distinct(Project(ts, StableTokenId)) && Distinct(Project(ts, HashOf))
  }

  datatype StartError = InvalidState | ConflictsWithConfig | ConflictingIdentity

  /** Construction of the control plane over the state file; `generated` is a fresh
      instance identity. */
  function Start(cfg: Setup, disk: Option<Durable>, generated: string): Result<Durable, StartError> {
    if disk.Some? && !Loadable(disk.value) then Err(InvalidState)
    else
      var loaded := if disk.Some? then disk.value.(version := STATE_VERSION) else EMPTY_STATE;
      if !MatchesConfig(cfg, loaded) then Err(ConflictsWithConfig)
      else if cfg.configuredId != "" && loaded.instanceId != "" && loaded.instanceId != cfg.configuredId then
        Err(ConflictingIdentity)
      else if cfg.configuredId != "" then Ok(loaded.(instanceId := cfg.configuredId))
      else if loaded.instanceId == "" then Ok(loaded.(instanceId := generated))
      else Ok(loaded)
  }

  const NO_TIMERS := Timers(None, {}, {}, 0)

  /** The process as it starts, over the memory that construction produced. */
  function Fresh(mem: Durable, disk: Option<Durable>, issued: map<string, string>): Plane {
    Plane(mem, map[], 0, map[], false, NO_TIMERS, false, disk, false, {}, {}, issued)
  }

  function Restart(cfg: Setup, p: Plane, generated: string): Plane {
    match Start(cfg, p.disk, generated)
    case Err(_) => p
    case Ok(mem) => Fresh(mem, p.disk, p.issued)
  }

  // ---------------------------------------------------------------- runs

  datatype Action =
    | DoPrepare(ok: bool)
    | DoAuthorize(hash: string)
    | DoCreate(args: CreateArgs, ok: bool)
    | DoDelete(id: string, ok: bool)
    | DoBlock(tokenId: string, deviceId: string, block: bool, now: nat, ok: bool)
    | DoDisconnect(tokenId: string, deviceId: string)
    | DoRegister(token: Token, request: Request, now: nat, order: seq<string>)
    | DoUnregister(sid: nat, now: nat)
    | DoLocate(key: string, lookup: Lookup)
    | DoFire(timer: nat)
    | DoFlush(timer: nat, ok: bool)
    | DoBeginShutdown
    | DoFinishShutdown(ok: bool)
    | DoRestart(generated: string)

  /** What the environment may do: a session is registered with a token that an earlier
      authorization handed out, time stamps are not empty, drawn ids have their shape, and
      shutdown finishes after it has begun. */
  predicate Enabled(p: Plane, a: Action) {
    match a
    case DoCreate(args, _) => MintedId(args.drawnId)
    case DoBlock(_, _, _, now, _) => now > 0
    case DoRegister(token, r, now, order) =>
      token in p.authorized && LegacyId(r.legacyId) && now > 0
      && EvictionOrder(order, p.mem.clients, ActiveKeys(p.active))
    case DoFinishShutdown(_) => p.shuttingDown
    case DoRestart(generated) => ValidInstanceId(generated)
    case _ => true
  }

  function Step(cfg: Setup, p: Plane, a: Action): Plane {
    if !Enabled(p, a) then p
    else match a
      case DoPrepare(ok) => PersistCritical(p, ok)
      case DoAuthorize(hash) =>
        var t := Authorize(cfg, p.mem, hash);
        if t.Some? then p.(authorized := p.authorized + {t.value}) else p
      case DoCreate(args, ok) => CreateToken(cfg, p, args, ok).0
      case DoDelete(id, ok) => DeleteToken(cfg, p, id, ok).0
      case DoBlock(t, d, block, now, ok) => SetBlocked(p, t, d, block, now, ok).0
      case DoDisconnect(t, d) => Disconnect(p, t, d).0
      case DoRegister(token, r, now, order) => Register(cfg, p, token, r, now, order).0
      case DoUnregister(sid, now) => Unregister(p, sid, now)
      case DoLocate(key, lookup) => Locate(p, key, lookup)
      case DoFire(t) => TimerFires(p, t)
      case DoFlush(t, ok) => FlushCallback(p, t, ok)
      case DoBeginShutdown => BeginShutdown(p)
      case DoFinishShutdown(ok) => FinishShutdown(p, ok)
      case DoRestart(generated) => Restart(cfg, p, generated)
  }

  function Run(cfg: Setup, p: Plane, acts: seq<Action>): Plane
    decreases |acts|
  {
    if acts == [] then p else Run(cfg, Step(cfg, p, acts[0]), acts[1..])
  }

  function Registry(ts: seq<Token>): map<string, string> {
    if ts == [] then map[] else Registry(ts[1..])[ts[0].hash := ts[0].id]
  }

  /** The first start on a machine without a state file. */
  function Initial(cfg: Setup, generated: string): Plane {
    var instanceId := if cfg.configuredId != "" then cfg.configuredId else generated;
    Fresh(EMPTY_STATE.(instanceId := instanceId), None, Registry(cfg.base))
  }
}
