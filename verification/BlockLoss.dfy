/** A blocked device comes back: from a fresh installation, 4096 devices that connect and leave
    fill the directory, and the next one pushes out the longest unseen client with its block. */
module BlockLoss {
  import opened Wrappers
  import opened Text
  import opened Config
  import opened ControlState
  import opened TokenLedger
  import opened Migration
  import opened Collections
  import opened Eviction
  import opened StepFrames
  import opened ControlInvariant
  import opened ControlRuns
  import opened SecretReuse
  import opened Blocks

  // ------------------------------------------------------------- the devices

  function Digit(n: nat): char
    requires n < 10
  {
    '0' + n as char
  }

  /** The id that device number `n` sends. */
  function Name(n: nat): string
    requires n < 10000
  {
    ['d', Digit(n / 1000), Digit(n / 100 % 10), Digit(n / 10 % 10), Digit(n % 10)]
  }

  const LEGACY := "legacy_0000000000000000"

  function Device(n: nat): Request
    requires n < 10000
  {
    Request(Name(n), "", LEGACY, "", ["", "", "", "", "", "", "", "", "", "", ""], None)
  }

  function KeyOf(token: Token, n: nat): string
    requires n < 10000
  {
    ClientKey(token.id, Name(n))
  }

  lemma DigitInjective(m: nat, n: nat)
    requires m < 10 && n < 10 && Digit(m) == Digit(n)
    ensures m == n
  {
  }

  lemma FourDigits(n: nat)
    requires n < 10000
    ensures n == 1000 * (n / 1000) + 100 * (n / 100 % 10) + 10 * (n / 10 % 10) + n % 10
  {
    assert n / 10 / 10 == n / 100 && n / 100 / 10 == n / 1000;
  }

  lemma NameInjective(m: nat, n: nat)
    requires m < 10000 && n < 10000 && Name(m) == Name(n)
    ensures m == n
  {
    SameDigits(m, n);
    FourDigits(m);
    FourDigits(n);
  }

  lemma SameDigits(m: nat, n: nat)
    requires m < 10000 && n < 10000 && Name(m) == Name(n)
    ensures m / 1000 == n / 1000 && m / 100 % 10 == n / 100 % 10 && m / 10 % 10 == n / 10 % 10 && m % 10 == n % 10
  {
    hide Digit;
    var a, b := Name(m), Name(n);
    assert a[1] == b[1] && a[2] == b[2] && a[3] == b[3] && a[4] == b[4];
    DigitInjective(m / 1000, n / 1000);
    DigitInjective(m / 100 % 10, n / 100 % 10);
    DigitInjective(m / 10 % 10, n / 10 % 10);
    DigitInjective(m % 10, n % 10);
  }

  lemma KeyInjective(token: Token, m: nat, n: nat)
    requires m < 10000 && n < 10000 && KeyOf(token, m) == KeyOf(token, n)
    ensures m == n
  {
    hide Name;
    var t := token.id + ":";
    assert KeyOf(token, m)[|t|..] == Name(m) && KeyOf(token, n)[|t|..] == Name(n);
    NameInjective(m, n);
  }

  lemma KeyNotLegacy(token: Token, n: nat)
    requires n < 10000
    ensures KeyOf(token, n) != ClientKey(token.id, LEGACY)
  {
    assert |KeyOf(token, n)| == |token.id| + 6;
    assert |ClientKey(token.id, LEGACY)| == |token.id| + 24;
  }

  lemma NameIsIdentifier(n: nat)
    requires n < 10000
    ensures IsIdentifier(Name(n), 96) && SanitizeIdentifier(Name(n), 96) == Name(n)
  {
    IdentifierIsTrimmed(Name(n), 96);
  }

  lemma DeviceIdentity(token: Token, n: nat)
    requires n < 10000
    ensures IdentityOf(token.id, Device(n)) == Identity(token.id, Name(n), "", LEGACY)
    ensures LegacyId(LEGACY) && Name(n) != LEGACY
  {
    hide Name;
    NameIsIdentifier(n);
    EmptyIsNone();
    KeyNotLegacy(token, n);
    assert LEGACY[7..] == "0000000000000000";
  }

  lemma EmptyIsNone()
    ensures SanitizeIdentifier("", 96) == ""
  {
    TrimFixpoint("");
  }

  // ------------------------------------------------------------- the directory

  /** The directory holds `n` devices of the token, nobody is connected, and only the first
      was last seen at time one. */
  ghost predicate Stage(cfg: Setup, p: Plane, token: Token, n: nat) {
    && Inv(cfg, p) && token in p.authorized && token in AllTokens(cfg, p.mem)
    && !p.shuttingDown && p.active == map[]
    && Holds(p.mem, token, n)
  }

  ghost predicate Holds(m: Durable, token: Token, n: nat) {
    && |m.clients| == n && n <= MAX_CLIENTS
    && (forall i: nat :: n <= i <= MAX_CLIENTS ==> KeyOf(token, i) !in m.clients)
    && ClientKey(token.id, LEGACY) !in m.clients
    && (forall k :: k in m.clients ==>
          if k == KeyOf(token, 0) then m.clients[k].lastSeen == 1 else m.clients[k].lastSeen > 1)
  }

  function Record(token: Token, n: nat): Client
    requires n < 10000
  {
    Client(KeyOf(token, n), token.id, Name(n), ApplyHeaders(EMPTY_META, Device(n)), n + 1, n + 1)
  }

  lemma HoldsMore(m: Durable, token: Token, n: nat)
    requires Holds(m, token, n) && n < MAX_CLIENTS
    ensures Holds(m.(clients := m.clients[KeyOf(token, n) := Record(token, n)]), token, n + 1)
  {
    hide Name, ApplyHeaders;
    var key, rec := KeyOf(token, n), Record(token, n);
    var q := m.(clients := m.clients[key := rec]);
    UpdateSize(m.clients, key, rec);
    KeyNotLegacy(token, n);
    forall i: nat | n + 1 <= i <= MAX_CLIENTS ensures KeyOf(token, i) !in q.clients {
      if KeyOf(token, i) == key {
        KeyInjective(token, i, n);
      }
    }
    forall k | k in q.clients
      ensures if k == KeyOf(token, 0) then q.clients[k].lastSeen == 1 else q.clients[k].lastSeen > 1
    {
      if k == key && k == KeyOf(token, 0) {
        KeyInjective(token, n, 0);
      }
    }
  }

  lemma NoMigration(p: Plane, token: Token, n: nat, order: seq<string>)
    requires n < 10000 && |p.mem.clients| < MAX_CLIENTS
    ensures var i := Identity(token.id, Name(n), "", LEGACY);
            Migrate(p.(mem := Prune(p.mem, order)), i, Device(n)) == p
  {
    hide Name, ClientKey;
    assert Elements(order[..0]) == {};
    assert p.mem.clients - {} == p.mem.clients && p.mem.blocked - {} == p.mem.blocked;
    assert Prune(p.mem, order) == p.mem;
    assert OldKeys(p.mem, Identity(token.id, Name(n), "", LEGACY), Device(n)) == [];
  }

  lemma NewRecord(m: Durable, token: Token, n: nat)
    requires n < 10000 && KeyOf(token, n) !in m.clients
    ensures var i := Identity(token.id, Name(n), "", LEGACY);
            Placed(Recorded(m, i, Device(n), n + 1), KeyOf(token, n), Device(n))
            == m.(clients := m.clients[KeyOf(token, n) := Record(token, n)])
  {
    hide Name, ClientKey, ApplyHeaders;
  }

  /** A new device is admitted into a directory with room: one record, one session. */
  lemma DeviceRegisters(cfg: Setup, p: Plane, token: Token, n: nat, order: seq<string>)
    requires n < MAX_CLIENTS && |p.mem.clients| == n && KeyOf(token, n) !in p.mem.clients && p.active == map[]
    requires Admits(cfg, p, token, Device(n))
    ensures var (q, sid) := Register(cfg, p, token, Device(n), n + 1, order);
            var key := KeyOf(token, n);
            && sid == Some(p.nextSession + 1)
            && q == p.(mem := p.mem.(clients := p.mem.clients[key := Record(token, n)]), active := q.active,
                       nextSession := p.nextSession + 1,
                       closures := p.closures[p.nextSession + 1 := Closure(token.id, key)], dirty := q.dirty,
                           timers := q.timers)
            && q.active == map[token.id := map[p.nextSession + 1 := Session(key)]]
  {
    hide Admits, Name, Migrate, Prune, Recorded, Placed, Record;
    var i := Identity(token.id, Name(n), "", LEGACY);
    DeviceIdentity(token, n);
    NoMigration(p, token, n, order);
    NewRecord(p.mem, token, n);
    hide IdentityOf, ClientKey, Arm;
  }

  lemma DeviceLeaves(p: Plane, token: Token, n: nat, sid: nat)
    requires n < 10000 && KeyOf(token, n) in p.mem.clients && p.mem.clients[KeyOf(token, n)].lastSeen == n + 1
    requires sid in p.closures && p.closures[sid] == Closure(token.id, KeyOf(token, n))
    requires p.active == map[token.id := map[sid := Session(KeyOf(token, n))]]
    ensures var q := Unregister(p, sid, n + 1);
            && q.mem == p.mem && q.active == map[] && q.shuttingDown == p.shuttingDown && q.authorized == p.authorized
  {
    hide Name, ClientKey, Arm;
    var key := KeyOf(token, n);
    assert p.mem.clients[key := p.mem.clients[key].(lastSeen := n + 1)] == p.mem.clients;
    assert p.active[token.id] - {sid} == map[];
    assert p.active - {token.id} == map[];
  }

  lemma StageAdmits(cfg: Setup, p: Plane, token: Token, n: nat)
    requires ValidSetup(cfg) && Inv(cfg, p) && token in AllTokens(cfg, p.mem) && !p.shuttingDown && n < 10000
    requires KeyOf(token, n) !in p.mem.blocked && ClientKey(token.id, LEGACY) !in p.mem.blocked
    ensures Admits(cfg, p, token, Device(n))
  {
    hide AllTokens, Name, ClientKey, ClientsGood, SessionsGood, AuthorizedGood, TimersGood, DiskGood, NormalToken;
    AuthorizesIt(cfg, p.mem, token);
    AllTokensExact(cfg, p.mem, token);
    FoundIsIdentifier(cfg, p.mem, token);
    DeviceIdentity(token, n);
    var i := IdentityOf(token.id, Device(n));
    forall d | d in Candidates(i) ensures ClientKey(i.tokenId, d) !in p.mem.blocked {
      assert d == Name(n) || d == LEGACY;
    }
  }

  // --------------------------------------------------------------------- runs

  lemma {:induction false} RunAppend(cfg: Setup, p: Plane, a: seq<Action>, b: seq<Action>)
    ensures Run(cfg, p, a + b) == Run(cfg, Run(cfg, p, a), b)
    ensures AllNew(cfg, p, a + b) <==> AllNew(cfg, p, a) && AllNew(cfg, Run(cfg, p, a), b)
    decreases |a|
  {
    hide Step, StoresNew;
    if a == [] {
      assert a + b == b;
    } else {
      assert (a + b)[1..] == a[1..] + b;
      RunAppend(cfg, Step(cfg, p, a[0]), a[1..], b);
    }
  }

  lemma RunPair(cfg: Setup, p: Plane, a: Action, b: Action)
    requires StoresNew(cfg, p, a) && StoresNew(cfg, Step(cfg, p, a), b)
    ensures Run(cfg, p, [a, b]) == Step(cfg, Step(cfg, p, a), b) && AllNew(cfg, p, [a, b])
  {
    hide Step, StoresNew;
    assert [a, b] == [a] + [b] && [b] == [b] + [];
    RunFirst(cfg, p, a, [b]);
    RunFirst(cfg, Step(cfg, p, a), b, []);
    RunNone(cfg, Step(cfg, Step(cfg, p, a), b));
  }

  /** One more device connects and leaves. */
  lemma AddDevice(cfg: Setup, p: Plane, token: Token, n: nat) returns (acts: seq<Action>)
    requires ValidSetup(cfg) && Stage(cfg, p, token, n) && n < MAX_CLIENTS
    ensures var q := Run(cfg, p, acts);
            AllNew(cfg, p, acts) && Stage(cfg, q, token, n + 1) && q.mem.blocked == p.mem.blocked
            && KeyOf(token, n) in q.mem.clients && forall k :: k in p.mem.clients ==> k in q.mem.clients
  {
    hide Inv, ValidSetup, AllTokens, Name, ClientKey, Register, Unregister, Step, StoresNew, LegacyId, EvictionOrder,
      ActiveKeys, Record, Device;
    var key, sid := KeyOf(token, n), p.nextSession + 1;
    var order := OrderExists(p.mem.clients, ActiveKeys(p.active));
    BlocksAreClients(cfg, p, key, token);
    StageAdmits(cfg, p, token, n);
    DeviceIdentity(token, n);
    LegacyOf(n);
    var a, b := DoRegister(token, Device(n), n + 1, order), DoUnregister(sid, n + 1);
    StepRegisters(cfg, p, token, Device(n), n + 1, order);
    DeviceRegisters(cfg, p, token, n, order);
    HoldsMore(p.mem, token, n);
    StepInv(cfg, p, a);
    var middle := Step(cfg, p, a);
    RecordStamp(token, n);
    DeviceLeaves(middle, token, n, sid);
    StepUnregisters(cfg, middle, sid, n + 1);
    StepInv(cfg, middle, b);
    RunPair(cfg, p, a, b);
    acts := [a, b];
    SameTokenLists(cfg, p.mem, Step(cfg, middle, b).mem);
  }

  lemma LegacyOf(n: nat)
    requires n < 10000
    ensures Device(n).legacyId == LEGACY
  {
  }

  lemma RecordStamp(token: Token, n: nat)
    requires n < 10000
    ensures Record(token, n).lastSeen == n + 1
  {
  }

  lemma SameTokenLists(cfg: Setup, m: Durable, n: Durable)
    requires n.added == m.added && n.revoked == m.revoked
    ensures AllTokens(cfg, n) == AllTokens(cfg, m)
  {
  }

  lemma StepUnregisters(cfg: Setup, p: Plane, sid: nat, now: nat)
    ensures Step(cfg, p, DoUnregister(sid, now)) == Unregister(p, sid, now) && StoresNew(cfg, p, DoUnregister(sid, now))
  {
    hide Unregister;
  }

  lemma BlocksAreClients(cfg: Setup, p: Plane, key: string, token: Token)
    requires Inv(cfg, p) && key !in p.mem.clients && ClientKey(token.id, LEGACY) !in p.mem.clients
    ensures key !in p.mem.blocked && ClientKey(token.id, LEGACY) !in p.mem.blocked
  {
    hide TokensGood, SessionsGood, TimersGood, DiskGood, AuthorizedGood, WellKeyed, ClientKey;
  }

  /** Devices connect and leave until the directory is full. */
  lemma {:induction false} FillDirectory(cfg: Setup, p: Plane, token: Token, n: nat) returns (acts: seq<Action>)
    requires ValidSetup(cfg) && Stage(cfg, p, token, n) && n <= MAX_CLIENTS
    ensures var q := Run(cfg, p, acts);
            AllNew(cfg, p, acts) && Stage(cfg, q, token, MAX_CLIENTS) && q.mem.blocked == p.mem.blocked
            && forall k :: k in p.mem.clients ==> k in q.mem.clients
    decreases MAX_CLIENTS - n
  {
    hide ValidSetup, Stage, Run, AllNew, KeyOf;
    if n == MAX_CLIENTS {
      acts := [];
      RunNone(cfg, p);
    } else {
      var first := AddDevice(cfg, p, token, n);
      var rest := FillDirectory(cfg, Run(cfg, p, first), token, n + 1);
      acts := first + rest;
      RunAppend(cfg, p, first, rest);
    }
  }

  // ----------------------------------------------------------------- the loss

  /** A configured token is authorized on a fresh installation. */
  lemma Begin(cfg: Setup, generated: string, token: Token)
    requires ValidSetup(cfg) && ValidInstanceId(generated) && token in cfg.base
    ensures var a := DoAuthorize(token.hash);
            var p := Initial(cfg, generated);
            && StoresNew(cfg, p, a) && Stage(cfg, Step(cfg, p, a), token, 0) && Step(cfg, p, a).mem.blocked == map[]
  {
    hide ValidSetup, NormalToken, Name, ValidInstanceId, ClientKey;
    var p := Initial(cfg, generated);
    InitialInv(cfg, generated);
    BaseVisible(cfg, p, token);
    StepInv(cfg, p, DoAuthorize(token.hash));
    hide Inv, AllTokens;
  }

  lemma BaseVisible(cfg: Setup, p: Plane, token: Token)
    requires ValidSetup(cfg) && Inv(cfg, p) && p.mem.revoked == [] && token in cfg.base
    ensures token in AllTokens(cfg, p.mem) && Authorize(cfg, p.mem, token.hash) == Some(token)
  {
    hide NormalToken, ClientsGood, SessionsGood, AuthorizedGood, TimersGood, DiskGood, AllTokens;
    AllTokensExact(cfg, p.mem, token);
    AuthorizesIt(cfg, p.mem, token);
  }

  /** The owner blocks the first device. */
  lemma BlockFirst(cfg: Setup, p: Plane, token: Token)
    requires ValidSetup(cfg) && Stage(cfg, p, token, 1) && KeyOf(token, 0) in p.mem.clients && p.mem.blocked == map[]
    ensures var a := DoBlock(token.id, Name(0), true, 1, true);
            var q := Step(cfg, p, a);
            && StoresNew(cfg, p, a) && Stage(cfg, q, token, 1) && q.mem.blocked == map[KeyOf(token, 0) := 1]
            && KeyOf(token, 0) in q.mem.clients
  {
    hide ValidSetup, AllTokens, Name, ClientKey, Inv, Step, StoresNew, DeviceKey;
    var a := DoBlock(token.id, Name(0), true, 1, true);
    TokenKey(cfg, p, token);
    StepBlocks(cfg, p, token.id, Name(0));
    StepInv(cfg, p, a);
    SameTokenLists(cfg, p.mem, Step(cfg, p, a).mem);
  }

  lemma StepBlocks(cfg: Setup, p: Plane, t: string, d: string)
    requires DeviceKey(t, d).Some? && DeviceKey(t, d).value in p.mem.clients
    ensures var a := DoBlock(t, d, true, 1, true);
            var q := Step(cfg, p, a);
            && StoresNew(cfg, p, a)
            && q.mem == p.mem.(blocked := p.mem.blocked[DeviceKey(t, d).value := 1])
            && q.active == p.active && q.authorized == p.authorized && q.shuttingDown == p.shuttingDown
  {
    hide DeviceKey, Stop, DeviceSessions;
  }

  lemma TokenKey(cfg: Setup, p: Plane, token: Token)
    requires ValidSetup(cfg) && Inv(cfg, p) && token in AllTokens(cfg, p.mem)
    ensures DeviceKey(token.id, Name(0)) == Some(KeyOf(token, 0))
  {
    hide AllTokens, Name, ClientsGood, SessionsGood, AuthorizedGood, TimersGood, DiskGood, NormalToken;
    AllTokensExact(cfg, p.mem, token);
    FoundIsIdentifier(cfg, p.mem, token);
    IdentifierIsTrimmed(token.id, 96);
    NameIsIdentifier(0);
  }

  /** In a full directory the first device is the first to go. */
  lemma FirstGoes(p: Plane, token: Token, order: seq<string>)
    requires Holds(p.mem, token, MAX_CLIENTS) && KeyOf(token, 0) in p.mem.clients && p.active == map[]
    requires EvictionOrder(order, p.mem.clients, ActiveKeys(p.active))
    ensures order[0] == KeyOf(token, 0)
  {
    hide Name, ClientKey;
    var key := KeyOf(token, 0);
    assert key in (set k | k in order);
    var j :| 0 <= j < |order| && order[j] == key;
    assert ActiveKeys(p.active) == {};
    if j > 0 {
      assert Before(order[0], order[j], p.mem.clients, ActiveKeys(p.active));
    }
  }

  /** In a directory that has become full, the blocked device is not admitted; once another device
      has registered, its block is gone and it is admitted. No write failed on the way. */
  lemma BlockLostByPruning(cfg: Setup, generated: string, token: Token) returns (acts: seq<Action>, order: seq<string>)
    requires ValidSetup(cfg) && ValidInstanceId(generated) && token in cfg.base
    ensures AllNew(cfg, Initial(cfg, generated), acts)
    ensures var p := Run(cfg, Initial(cfg, generated), acts);
            var next := DoRegister(token, Device(MAX_CLIENTS), MAX_CLIENTS + 1, order);
            var q := Step(cfg, p, next);
            && |p.mem.clients| == MAX_CLIENTS && p.active == map[] && Enabled(p, next)
            && KeyOf(token, 0) in p.mem.blocked && !Admits(cfg, p, token, Device(0))
            && KeyOf(token, 0) !in q.mem.blocked && Admits(cfg, q, token, Device(0))
  {
    hide ValidSetup, Stage, Run, AllNew, Step, StoresNew, KeyOf, ValidInstanceId, Initial, Admits, EvictionOrder,
      Device, Enabled, Name, ActiveKeys;
    var p0, a := Initial(cfg, generated), DoAuthorize(token.hash);
    Begin(cfg, generated, token);
    var p1 := Step(cfg, p0, a);
    var first := AddDevice(cfg, p1, token, 0);
    var p2 := Run(cfg, p1, first);
    BlockFirst(cfg, p2, token);
    var block := DoBlock(token.id, Name(0), true, 1, true);
    var p3 := Step(cfg, p2, block);
    var rest := FillDirectory(cfg, p3, token, 1);
    RunFirst(cfg, p2, block, rest);
    RunAppend(cfg, p1, first, [block] + rest);
    RunFirst(cfg, p0, a, first + ([block] + rest));
    acts := [a] + (first + ([block] + rest));
    order := Overflows(cfg, Run(cfg, p3, rest), token);
  }

  lemma Overflows(cfg: Setup, p: Plane, token: Token) returns (order: seq<string>)
    requires ValidSetup(cfg) && Stage(cfg, p, token, MAX_CLIENTS) && KeyOf(token, 0) in p.mem.clients
    requires p.mem.blocked == map[KeyOf(token, 0) := 1]
    ensures var next := DoRegister(token, Device(MAX_CLIENTS), MAX_CLIENTS + 1, order);
            var q := Step(cfg, p, next);
            && |p.mem.clients| == MAX_CLIENTS && p.active == map[] && Enabled(p, next)
            && KeyOf(token, 0) in p.mem.blocked && !Admits(cfg, p, token, Device(0))
            && KeyOf(token, 0) !in q.mem.blocked && Admits(cfg, q, token, Device(0))
  {
    hide ValidSetup, Inv, AllTokens, Name, Device, Step, StoresNew, EvictionOrder, ActiveKeys, Admits, Register,
      ClientKey, LegacyId;
    var n := MAX_CLIENTS;
    order := OrderExists(p.mem.clients, ActiveKeys(p.active));
    FirstGoes(p, token, order);
    LegacyOf(n);
    DeviceIdentity(token, n);
    BlocksOnly(p, token);
    StageAdmits(cfg, p, token, n);
    StepRegisters(cfg, p, token, Device(n), n + 1, order);
    RegistrationBlocks(cfg, p, token, Device(n), n + 1, order, KeyOf(token, 0));
    var q := Step(cfg, p, DoRegister(token, Device(n), n + 1, order));
    StepInv(cfg, p, DoRegister(token, Device(n), n + 1, order));
    RegisterFramed(cfg, p, token, Device(n), n + 1, order);
    SameTokenLists(cfg, p.mem, q.mem);
    KeyNotLegacy(token, 0);
    StageAdmits(cfg, q, token, 0);
    DeviceIdentity(token, 0);
    BlockedRefused(cfg, p, token);
  }

  lemma BlocksOnly(p: Plane, token: Token)
    requires p.mem.blocked == map[KeyOf(token, 0) := 1]
    ensures KeyOf(token, MAX_CLIENTS) !in p.mem.blocked && ClientKey(token.id, LEGACY) !in p.mem.blocked
  {
    hide Name, ClientKey;
    KeyNotLegacy(token, 0);
    if KeyOf(token, MAX_CLIENTS) == KeyOf(token, 0) {
      KeyInjective(token, MAX_CLIENTS, 0);
    }
  }

  lemma BlockedRefused(cfg: Setup, p: Plane, token: Token)
    requires KeyOf(token, 0) in p.mem.blocked
    ensures !Admits(cfg, p, token, Device(0))
  {
    hide Name, TokenActive;
    DeviceIdentity(token, 0);
    NamedIsRefused(cfg, p, token, Device(0), Name(0));
  }
}
