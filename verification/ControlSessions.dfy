/** No session outlives the revocation of its token or the blocking of its device. */
module ControlSessions {
  import opened Wrappers
  import opened Text
  import opened Config
  import opened ControlState
  import opened TokenLedger
  import opened Migration
  import opened Pruning
  import opened StepFrames
  import opened ControlInvariant
  import opened ControlRuns

  /** Some stored, unrevoked token has this id. */
  predicate TokenLive(cfg: Setup, m: Durable, id: string) {
    FindId(AllTokens(cfg, m), id).Some?
  }

  /** Every live session has had its closer collected, or it belongs to a live token and
      its client key is not blocked. */
  ghost predicate NoEscape(cfg: Setup, m: Durable, active: Active, collected: set<nat>) {
    forall t, sid: nat :: LiveIn(active, t, sid) ==>
      sid in collected || (TokenLive(cfg, m, t) && active[t][sid].clientKey !in m.blocked)
  }

  /** Closers are collected only from sessions that exist, so that no session is born
      excused; once shutdown has begun every session has been collected. */
  ghost predicate CollectedGood(p: Plane) {
    && (forall sid :: sid in p.collected ==> sid <= p.nextSession)
    && (p.shuttingDown ==> forall t, sid: nat :: LiveIn(p.active, t, sid) ==> sid in p.collected)
  }

  /** Stored and handed-out tokens carry the id under which their hash was accepted. */
  ghost predicate IssuedGood(cfg: Setup, added: seq<Token>, authorized: set<Token>, issued: map<string, string>) {
    && (forall t :: t in cfg.base + added ==> t.hash in issued && issued[t.hash] == t.id)
    && (forall t :: t in authorized ==> t.hash in issued && issued[t.hash] == t.id)
  }

  ghost predicate Guarded(cfg: Setup, p: Plane) {
    && Inv(cfg, p)
    && IssuedGood(cfg, p.mem.added, p.authorized, p.issued)
    && NoEscape(cfg, p.mem, p.active, p.collected)
    && CollectedGood(p)
  }

  /** Secrets and drawn ids are never used twice, not even after the token is gone. */
  predicate NeverReused(cfg: Setup, p: Plane, a: Action) {
    Adds(cfg, p, a) ==>
      var token := CreateToken(cfg, p, a.args, true).1.value.token;
      token.hash !in p.issued && (SanitizeIdentifier(a.args.key, 96) == "" ==> token.id !in p.issued.Values)
  }

  lemma NeverReusedIsNew(cfg: Setup, p: Plane, a: Action)
    requires IssuedGood(cfg, p.mem.added, p.authorized, p.issued) && NeverReused(cfg, p, a)
    ensures StoresNew(cfg, p, a)
  {
    hide CreateToken;
    if Adds(cfg, p, a) {
      var token := CreateToken(cfg, p, a.args, true).1.value.token;
      forall t | t in cfg.base + p.mem.added ensures t.hash != token.hash && p.issued[t.hash] in p.issued.Values {}
    }
  }

  // -------------------------------------------------------------- steps

  /** Fewer sessions, no fewer live tokens and no more blocks cannot break the guarantee. */
  lemma NoEscapeWeaker(cfg: Setup, m: Durable, active: Active, collected: set<nat>, n: Durable, rest: Active,
                       more: set<nat>)
    requires NoEscape(cfg, m, active, collected) && collected <= more
    requires forall t, sid: nat :: LiveIn(rest, t, sid) ==> LiveIn(active, t, sid) && rest[t][sid] == active[t][sid]
    requires forall t, sid: nat :: LiveIn(rest, t, sid) && sid !in more ==>
               (TokenLive(cfg, m, t) ==> TokenLive(cfg, n, t))
    requires forall t, sid: nat :: LiveIn(rest, t, sid) && sid !in more && rest[t][sid].clientKey in n.blocked ==>
               rest[t][sid].clientKey in m.blocked
    ensures NoEscape(cfg, n, rest, more)
  {
    hide TokenLive;
  }

  lemma LiveKept(cfg: Setup, m: Durable, n: Durable, id: string)
    requires TokenLive(cfg, m, id) && forall t :: t in AllTokens(cfg, m) && t.id == id ==> t in AllTokens(cfg, n)
    ensures TokenLive(cfg, n, id)
  {
    var t := FindId(AllTokens(cfg, m), id).value;
    assert t in AllTokens(cfg, n);
  }

  lemma CreateGuarded(cfg: Setup, p: Plane, a: Action)
    requires ValidSetup(cfg) && Guarded(cfg, p) && Adds(cfg, p, a) && NeverReused(cfg, p, a)
    ensures Guarded(cfg, Step(cfg, p, a))
  {
    hide NormalToken, TokensGood, ClientsGood, SessionsGood, AuthorizedGood, TimersGood, DiskGood, CreateToken,
      NoEscape, LiveIn, AllTokens, TokenLive;
    NeverReusedIsNew(cfg, p, a);
    CreatedIsNew(cfg, p, a.args);
    CreateInv(cfg, p, a);
    var q := Step(cfg, p, a);
    var token := CreateToken(cfg, p, a.args, true).1.value.token;
    forall t | TokenLive(cfg, p.mem, t) ensures TokenLive(cfg, q.mem, t) {
      forall u | u in AllTokens(cfg, p.mem) ensures u in AllTokens(cfg, q.mem) {
        CreateKeepsToken(cfg, p, a, u);
      }
      LiveKept(cfg, p.mem, q.mem, t);
    }
    NoEscapeWeaker(cfg, p.mem, p.active, p.collected, q.mem, q.active, q.collected);
    forall t | t in cfg.base + q.mem.added ensures t.hash in q.issued && q.issued[t.hash] == t.id {
      assert t == token || t in cfg.base + p.mem.added;
    }
  }

  /** Deleting a token collects exactly the sessions filed under its id, which are all
      that lose their token. */
  lemma DeleteGuarded(cfg: Setup, p: Plane, id: string, ok: bool)
    requires ValidSetup(cfg) && Guarded(cfg, p)
    ensures Guarded(cfg, DeleteToken(cfg, p, id, ok).0)
  {
    hide NormalToken, TokensGood, ClientsGood, SessionsGood, AuthorizedGood, TimersGood, DiskGood, NoEscape, AllTokens,
      TokenLive, CollectedGood;
    DeleteInv(cfg, p, id, ok);
    var r := DeleteToken(cfg, p, id, ok);
    if r.1.Ok? {
      var q := r.0;
      DeletedSessions(cfg, p, id);
      CollectedMore(p, q);
      DropHashExact(p.mem.added, FindId(AllTokens(cfg, p.mem), Trim(id)).value.hash);
    }
  }

  lemma CollectedMore(p: Plane, q: Plane)
    requires CollectedGood(p) && SessionsGood(p.active, p.nextSession, p.closures)
    requires q.active == p.active && q.nextSession == p.nextSession && q.shuttingDown == p.shuttingDown
    requires p.collected <= q.collected
        && forall sid :: sid in q.collected - p.collected ==> exists t :: LiveIn(p.active, t, sid)
    ensures CollectedGood(q)
  {
    forall sid | sid in q.collected ensures sid <= q.nextSession {
      if sid !in p.collected {
        assert sid in q.collected - p.collected;
      }
    }
  }

  lemma DeletedSessions(cfg: Setup, p: Plane, id: string)
    requires ValidSetup(cfg) && Guarded(cfg, p) && DeleteToken(cfg, p, id, true).1.Ok?
    ensures var q := DeleteToken(cfg, p, id, true).0;
            && NoEscape(cfg, q.mem, q.active, q.collected)
            && forall sid :: sid in q.collected - p.collected ==> exists t :: LiveIn(p.active, t, sid)
  {
    hide NormalToken, TokensGood, ClientsGood, SessionsGood, AuthorizedGood, TimersGood, DiskGood, NoEscape, AllTokens,
      TokenLive, CollectedGood;
    var q := DeleteToken(cfg, p, id, true).0;
    var cleanId := Trim(id);
    forall sid | sid in q.collected - p.collected ensures exists t :: LiveIn(p.active, t, sid) {
      assert LiveIn(p.active, cleanId, sid);
    }
    forall t | t != cleanId && TokenLive(cfg, p.mem, t) ensures TokenLive(cfg, q.mem, t) {
      forall u | u in AllTokens(cfg, p.mem) && u.id == t ensures u in AllTokens(cfg, q.mem) {
        DeleteKeepsToken(cfg, p, id, true, u);
      }
      LiveKept(cfg, p.mem, q.mem, t);
    }
    NoEscapeWeaker(cfg, p.mem, p.active, p.collected, q.mem, q.active, q.collected);
  }

  lemma BlockGuarded(cfg: Setup, p: Plane, t: string, d: string, block: bool, now: nat, ok: bool)
    requires ValidSetup(cfg) && Guarded(cfg, p) && now > 0
    ensures Guarded(cfg, SetBlocked(p, t, d, block, now, ok).0)
  {
    hide NormalToken, TokensGood, ClientsGood, SessionsGood, AuthorizedGood, TimersGood, DiskGood, NoEscape, AllTokens,
      TokenLive, CollectedGood, DeviceKey;
    BlockInv(cfg, p, t, d, block, now, ok);
    var r := SetBlocked(p, t, d, block, now, ok);
    if r.1.Ok? {
      var q := r.0;
      DeviceSessionsLive(p.active, DeviceKey(t, d).value);
      CollectedMore(p, q);
      BlockedSessions(cfg, p, q, DeviceKey(t, d).value, block);
    }
  }

  lemma DeviceSessionsLive(active: Active, key: string)
    ensures forall sid :: sid in DeviceSessions(active, key) <==>
              exists t :: LiveIn(active, t, sid) && active[t][sid].clientKey == key
  {
    forall sid | sid in DeviceSessions(active, key)
        ensures exists t :: LiveIn(active, t, sid) && active[t][sid].clientKey == key {
      var t :| t in active && sid in active[t] && active[t][sid].clientKey == key;
      assert LiveIn(active, t, sid);
    }
  }

  lemma BlockedSessions(cfg: Setup, p: Plane, q: Plane, key: string, block: bool)
    requires NoEscape(cfg, p.mem, p.active, p.collected) && q.active == p.active && p.collected <= q.collected
    requires q.mem == p.mem.(blocked := q.mem.blocked)
        && forall k :: k in q.mem.blocked ==> k in p.mem.blocked || (block && k == key)
    requires block ==> DeviceSessions(p.active, key) <= q.collected
    ensures NoEscape(cfg, q.mem, q.active, q.collected)
  {
    DeviceSessionsLive(p.active, key);
    hide AllTokens, DeviceSessions;
    forall t ensures TokenLive(cfg, p.mem, t) == TokenLive(cfg, q.mem, t) {
      assert AllTokens(cfg, q.mem) == AllTokens(cfg, p.mem) by { SameTokens(cfg, p.mem, q.mem); }
    }
    NoEscapeWeaker(cfg, p.mem, p.active, p.collected, q.mem, q.active, q.collected);
  }

  lemma SameTokens(cfg: Setup, m: Durable, n: Durable)
    requires m.added == n.added && m.revoked == n.revoked
    ensures AllTokens(cfg, m) == AllTokens(cfg, n)
    ensures forall id :: TokenLive(cfg, m, id) == TokenLive(cfg, n, id)
  {
  }

  // ---------------------------------------------------------- registration

  lemma KeyBlocked(m: Durable, i: Identity)
    requires !BlockedIdentity(m, i) && i.deviceId in Candidates(i)
    ensures ClientKey(i.tokenId, i.deviceId) !in m.blocked
  {
  }

  /** Where migration moves a session, the new key is not blocked; elsewhere the key stays. */
  lemma MigratedSessions(cfg: Setup, p: Plane, tokenId: string, r: Request, order: seq<string>)
    requires ClientsGood(p.mem.clients, p.mem.blocked) && IsIdentifier(tokenId, 96) && LegacyId(r.legacyId)
    requires EvictionOrder(order, p.mem.clients, ActiveKeys(p.active))
        && !BlockedIdentity(p.mem, IdentityOf(tokenId, r))
    ensures var i := IdentityOf(tokenId, r);
            var q := Migrate(p.(mem := Prune(p.mem, order)), i, r);
            && i.tokenId == tokenId && ClientKey(tokenId, i.deviceId) !in q.mem.blocked
            && BlocksKept(q.mem.blocked, p.mem.blocked)
            && (forall t, sid: nat :: LiveIn(q.active, t, sid) <==> LiveIn(p.active, t, sid))
            && (forall t, sid: nat :: LiveIn(q.active, t, sid) ==>
                  || q.active[t][sid].clientKey == p.active[t][sid].clientKey
                  || q.active[t][sid].clientKey == ClientKey(tokenId, i.deviceId))
  {
    var i := IdentityOf(tokenId, r);
    var pruned := p.(mem := Prune(p.mem, order));
    PruneKeepsGood(p.mem, ActiveKeys(p.active), order);
    UnblockedAfterPrune(p.mem, pruned.mem, i);
    IdentityShape(tokenId, r);
    KeyBlocked(pruned.mem, i);
    MigrationConserves(pruned, tokenId, r);
    PrunedMigration(p, tokenId, r, order);
    hide EvictionOrder, Prune, Migrate, IdentityOf, LegacyId, IsIdentifier, BlockedIdentity, Candidates, ClientKey,
      RecordsMoved, CarriesStamps, ClientsGood;
    MovedSame(p.active, Migrate(pruned, i, r).active);
  }

  /** Registration keeps the guarantee exactly when the id of the token that was authorized
      before the dial is still the id of a live token: the program compares only its hash. */
  lemma RegisterExact(cfg: Setup, p: Plane, token: Token, r: Request, now: nat, order: seq<string>)
    requires ValidSetup(cfg) && Inv(cfg, p) && NoEscape(cfg, p.mem, p.active, p.collected) && CollectedGood(p)
    requires IsIdentifier(token.id, 96) && LegacyId(r.legacyId)
        && EvictionOrder(order, p.mem.clients, ActiveKeys(p.active))
    requires Register(cfg, p, token, r, now, order).1.Some?
    ensures var q := Register(cfg, p, token, r, now, order).0;
            && (NoEscape(cfg, q.mem, q.active, q.collected) <==> TokenLive(cfg, p.mem, token.id))
            && CollectedGood(q)
  {
    hide NormalToken, TokensGood, ClientsGood, SessionsGood, AuthorizedGood, TimersGood, DiskGood, NoEscape, AllTokens,
      TokenLive, EvictionOrder, Prune, Migrate, IdentityOf, LegacyId, IsIdentifier, BlockedIdentity, TokenActive,
      MovedSome, BlocksKept, Registered, Link, LiveIn;
    var i := IdentityOf(token.id, r);
    RegisteredFrame(cfg, p, token, r, now, order);
    MigratedSessions(cfg, p, token.id, r, order);
    var q := Registered(p, i, r, now, order);
    var migrated := Migrate(p.(mem := Prune(p.mem, order)), i, r);
    LinkedSessions(cfg, p, q, migrated.active, token.id, ClientKey(token.id, i.deviceId));
  }

  lemma LinkedSessions(cfg: Setup, p: Plane, q: Plane, active: Active, tokenId: string, key: string)
    requires NoEscape(cfg, p.mem, p.active, p.collected) && CollectedGood(p) && !p.shuttingDown
    requires q.collected == p.collected && q.shuttingDown == p.shuttingDown && q.nextSession == p.nextSession + 1
    requires q.mem == p.mem.(clients := q.mem.clients, blocked := q.mem.blocked)
        && BlocksKept(q.mem.blocked, p.mem.blocked)
    requires q.active == Link(active, tokenId, p.nextSession + 1, key) && key !in q.mem.blocked
    requires forall t, sid: nat :: LiveIn(active, t, sid) <==> LiveIn(p.active, t, sid)
    requires forall t, sid: nat :: LiveIn(active, t, sid) ==>
               active[t][sid].clientKey == p.active[t][sid].clientKey || active[t][sid].clientKey == key
    ensures NoEscape(cfg, q.mem, q.active, q.collected) <==> TokenLive(cfg, p.mem, tokenId)
    ensures CollectedGood(q)
  {
    var sid := p.nextSession + 1;
    LinkLives(active, tokenId, sid, key);
    SameTokens(cfg, p.mem, q.mem);
    assert q.active[tokenId][sid] == Session(key);
    assert LiveIn(q.active, tokenId, sid) && sid !in q.collected;
    hide AllTokens, TokenLive, Link;
    assert forall t, s: nat :: LiveIn(active, t, s) ==> LiveIn(q.active, t, s);
  }

  lemma AuthorizedIssued(cfg: Setup, p: Plane, token: Token)
    requires ValidSetup(cfg) && Inv(cfg, p) && IssuedGood(cfg, p.mem.added, p.authorized, p.issued)
    requires token in p.authorized && TokenActive(cfg, p.mem, token.hash)
    ensures TokenLive(cfg, p.mem, token.id)
  {
    var u := FindHash(AllTokens(cfg, p.mem), token.hash).value;
    AllTokensExact(cfg, p.mem, u);
    assert u.id == token.id && u in AllTokens(cfg, p.mem);
  }

  lemma RegisterGuarded(cfg: Setup, p: Plane, token: Token, r: Request, now: nat, order: seq<string>)
    requires ValidSetup(cfg) && Guarded(cfg, p) && Enabled(p, DoRegister(token, r, now, order))
    ensures Guarded(cfg, Register(cfg, p, token, r, now, order).0)
  {
    hide NormalToken, TokensGood, ClientsGood, SessionsGood, AuthorizedGood, TimersGood, DiskGood, NoEscape, AllTokens,
      TokenLive, EvictionOrder, IdentityOf, LegacyId, IsIdentifier, BlockedIdentity, TokenActive, Registered,
      CollectedGood;
    RegisterInv(cfg, p, token, r, now, order);
    if Register(cfg, p, token, r, now, order).1.Some? {
      AuthorizedId(p, token);
      AuthorizedIssued(cfg, p, token);
      RegisterExact(cfg, p, token, r, now, order);
      RegisteredFrame(cfg, p, token, r, now, order);
    }
  }

  // ------------------------------------------------------------------ runs

  lemma UnregisterGuarded(cfg: Setup, p: Plane, sid: nat, now: nat)
    requires Guarded(cfg, p)
    ensures Guarded(cfg, Unregister(p, sid, now))
  {
    hide MemoryGood, TimersGood, DiskGood, AllTokens, TokenLive, AuthorizedGood, SessionsGood;
    UnregisterInv(cfg, p, sid, now);
    if sid in p.closures {
      UnlinkLives(p.active, p.closures[sid].tokenId, sid);
      hide Unlink, LiveIn;
      var q := Unregister(p, sid, now);
      SameTokens(cfg, p.mem, q.mem);
      UnlinkedSame(p.active, p.closures[sid].tokenId, sid);
      NoEscapeWeaker(cfg, p.mem, p.active, p.collected, q.mem, q.active, q.collected);
    }
  }

  lemma UnlinkedSame(active: Active, tokenId: string, s: nat)
    ensures forall t, sid: nat :: LiveIn(Unlink(active, tokenId, s), t, sid) ==>
              LiveIn(active, t, sid) && Unlink(active, tokenId, s)[t][sid] == active[t][sid]
  {
  }

  lemma RestartGuarded(cfg: Setup, p: Plane, generated: string)
    requires ValidSetup(cfg) && Guarded(cfg, p) && ValidInstanceId(generated)
    ensures Guarded(cfg, Restart(cfg, p, generated))
  {
    hide MemoryGood, TimersGood, AllTokens, TokenLive, AuthorizedGood, SessionsGood;
    InvRestarts(cfg, p, generated);
    RestartAppends(cfg, p, generated);
    if p.disk.None? {
      NoDiskStarts(cfg, generated);
    }
  }

  lemma QuietGuarded(cfg: Setup, p: Plane, q: Plane)
    requires Guarded(cfg, p) && Inv(cfg, q)
    requires Quiet(p, q)
    ensures Guarded(cfg, q)
  {
    hide Inv, AllTokens, LiveIn;
    SameTokens(cfg, p.mem, q.mem);
    NoEscapeWeaker(cfg, p.mem, p.active, p.collected, q.mem, q.active, q.collected);
  }

  lemma AuthorizeGuarded(cfg: Setup, p: Plane, hash: string)
    requires ValidSetup(cfg) && Guarded(cfg, p)
    ensures Guarded(cfg, Step(cfg, p, DoAuthorize(hash)))
  {
    hide NormalToken, ClientsGood, SessionsGood, TimersGood, DiskGood, NoEscape, LiveIn, AllTokens;
    AuthorizeInv(cfg, p, hash);
    var t := Authorize(cfg, p.mem, hash);
    if t.Some? {
      AllTokensExact(cfg, p.mem, t.value);
    }
  }

  lemma DisconnectGuarded(cfg: Setup, p: Plane, t: string, d: string)
    requires Guarded(cfg, p)
    ensures Guarded(cfg, Disconnect(p, t, d).0)
  {
    hide MemoryGood, SessionsGood, AuthorizedGood, TimersGood, DiskGood, AllTokens, TokenLive, CollectedGood,
      DeviceKey, LiveIn;
    var q := Disconnect(p, t, d).0;
    if Disconnect(p, t, d).1.Ok? {
      DeviceSessionsLive(p.active, DeviceKey(t, d).value);
      CollectedMore(p, q);
      NoEscapeWeaker(cfg, p.mem, p.active, p.collected, q.mem, q.active, q.collected);
    }
  }

  lemma AllSessionsBounded(active: Active, next: nat, closures: map<nat, Closure>)
    requires SessionsGood(active, next, closures)
    ensures forall sid :: sid in AllSessions(active) ==> sid <= next
  {
    forall sid | sid in AllSessions(active) ensures sid <= next {
      var t :| t in active && sid in active[t];
      assert LiveIn(active, t, sid);
    }
  }

  lemma SessionsInAll(active: Active)
    ensures forall t, sid: nat :: LiveIn(active, t, sid) ==> sid in AllSessions(active)
  {
  }

  lemma BeginShutdownGuarded(cfg: Setup, p: Plane)
    requires Guarded(cfg, p)
    ensures Guarded(cfg, BeginShutdown(p))
  {
    hide AllTokens, TokenLive, NoEscape, IssuedGood, AllSessions, SessionsGood, MemoryGood, DiskGood, AuthorizedGood;
    AllSessionsBounded(p.active, p.nextSession, p.closures);
    hide Inv;
    var q := BeginShutdown(p);
    ShutdownInv(cfg, p, true);
    SessionsInAll(p.active);
    assert forall t, sid: nat :: LiveIn(p.active, t, sid) ==> sid in AllSessions(p.active);
    NoEscapeWeaker(cfg, p.mem, p.active, p.collected, q.mem, q.active, q.collected);
  }

  lemma StepGuarded(cfg: Setup, p: Plane, a: Action)
    requires ValidSetup(cfg) && Guarded(cfg, p) && NeverReused(cfg, p, a)
    ensures Guarded(cfg, Step(cfg, p, a))
  {
    hide Inv, IssuedGood, NoEscape, CollectedGood, CreateToken, DeleteToken, SetBlocked, Disconnect, Register,
      Unregister, BeginShutdown, Restart, EvictionOrder, ValidSetup, NeverReused, Adds;
    if Enabled(p, a) {
      match a
      case DoAuthorize(hash) => AuthorizeGuarded(cfg, p, hash);
      case DoCreate(args, ok) =>
        if Adds(cfg, p, a) { CreateGuarded(cfg, p, a); } else { CreateElsewise(cfg, p, args, ok); }
      case DoDelete(id, ok) => DeleteGuarded(cfg, p, id, ok);
      case DoBlock(t, d, block, now, ok) => BlockGuarded(cfg, p, t, d, block, now, ok);
      case DoDisconnect(t, d) => DisconnectGuarded(cfg, p, t, d);
      case DoRegister(token, r, now, order) => RegisterGuarded(cfg, p, token, r, now, order);
      case DoUnregister(sid, now) => UnregisterGuarded(cfg, p, sid, now);
      case DoBeginShutdown => BeginShutdownGuarded(cfg, p);
      case DoRestart(generated) => RestartGuarded(cfg, p, generated);
      case _ => QuietStep(cfg, p, a);
    }
  }

  /** Writes, timers and location lookups touch neither tokens, blocks nor sessions. */
  lemma QuietStep(cfg: Setup, p: Plane, a: Action)
    requires ValidSetup(cfg) && Guarded(cfg, p)
    requires a.DoPrepare? || a.DoLocate? || a.DoFire? || a.DoFlush? || a.DoFinishShutdown?
    ensures Guarded(cfg, Step(cfg, p, a))
  {
    hide Inv, IssuedGood, NoEscape, CollectedGood, ValidSetup, Step, CreateToken;
    StepFrame(cfg, p, a);
    StepInv(cfg, p, a);
    QuietGuarded(cfg, p, Step(cfg, p, a));
  }

  /** Nothing the guarantee speaks of has changed. */
  predicate Quiet(p: Plane, q: Plane) {
    && q.mem.added == p.mem.added && q.mem.revoked == p.mem.revoked && q.mem.blocked == p.mem.blocked
    && q.active == p.active && q.nextSession == p.nextSession && q.shuttingDown == p.shuttingDown
    && q.collected == p.collected && q.authorized == p.authorized && q.issued == p.issued
  }

  predicate NeverReusedAlong(cfg: Setup, p: Plane, acts: seq<Action>)
    decreases |acts|
  {
    acts == [] || (NeverReused(cfg, p, acts[0]) && NeverReusedAlong(cfg, Step(cfg, p, acts[0]), acts[1..]))
  }

  lemma {:induction false} RunGuarded(cfg: Setup, p: Plane, acts: seq<Action>)
    requires ValidSetup(cfg) && Guarded(cfg, p) && NeverReusedAlong(cfg, p, acts)
    ensures Guarded(cfg, Run(cfg, p, acts))
    decreases |acts|
  {
    hide Guarded, NeverReused, Step, ValidSetup;
    if acts != [] {
      StepGuarded(cfg, p, acts[0]);
      RunGuarded(cfg, Step(cfg, p, acts[0]), acts[1..]);
    }
  }

  lemma {:induction false} RegistryExact(ts: seq<Token>)
    requires DistinctTokens(ts)
    ensures forall t :: t in ts ==> t.hash in Registry(ts) && Registry(ts)[t.hash] == t.id
    ensures forall h :: h in Registry(ts) ==> HasHash(ts, h)
  {
    if ts != [] {
      RegistryExact(ts[1..]);
      forall t | t in ts ensures t.hash in Registry(ts) && Registry(ts)[t.hash] == t.id {
        var i :| 0 <= i < |ts| && ts[i] == t;
        if i > 0 {
          assert t in ts[1..] && t.hash != ts[0].hash;
        }
      }
    }
  }

  lemma InitialGuarded(cfg: Setup, generated: string)
    requires ValidSetup(cfg) && ValidInstanceId(generated)
    ensures Guarded(cfg, Initial(cfg, generated))
  {
    InitialInv(cfg, generated);
    BaseIssued(cfg);
    hide Inv, ValidSetup, IssuedGood, AllTokens, TokenLive;
  }

  lemma BaseIssued(cfg: Setup)
    requires ValidSetup(cfg)
    ensures IssuedGood(cfg, [], {}, Registry(cfg.base))
  {
    RegistryExact(cfg.base);
    hide NormalToken, Registry;
    assert cfg.base + [] == cfg.base;
  }

  /** No session escapes: from a fresh installation, through any run in which no secret is
      used twice, every live session belongs to a live token and an unblocked client key or has
      had its closer collected, although a dial may sit between authorization and
      registration and migration relabels keys; and a shutdown leaves none uncollected. */
  lemma NoSessionEscapes(cfg: Setup, generated: string, acts: seq<Action>, tokenId: string, sid: nat)
    requires ValidSetup(cfg) && ValidInstanceId(generated) && NeverReusedAlong(cfg, Initial(cfg, generated), acts)
    requires LiveIn(Run(cfg, Initial(cfg, generated), acts).active, tokenId, sid)
    ensures var p := Run(cfg, Initial(cfg, generated), acts);
            || sid in p.collected
            || (!p.shuttingDown && TokenLive(cfg, p.mem, tokenId) && p.active[tokenId][sid].clientKey !in p.mem.blocked)
  {
    InitialGuarded(cfg, generated);
    RunGuarded(cfg, Initial(cfg, generated), acts);
  }

  /** From the beginning of shutdown to the end of the process no session is added: every later
      session was there when it began, and has been collected. */
  lemma {:induction false} RunRegistersNothing(cfg: Setup, p: Plane, acts: seq<Action>)
    requires p.shuttingDown && forall a :: a in acts ==> !a.DoRestart?
    ensures var q := Run(cfg, p, acts);
            && q.shuttingDown && q.nextSession == p.nextSession
            && forall t, sid: nat :: LiveIn(q.active, t, sid) ==> LiveIn(p.active, t, sid)
    decreases |acts|
  {
    hide Step, LiveIn;
    if acts != [] {
      assert acts[0] in acts && forall a :: a in acts[1..] ==> a in acts;
      StepRegistersNothing(cfg, p, acts[0]);
      RunRegistersNothing(cfg, Step(cfg, p, acts[0]), acts[1..]);
    }
  }

  lemma StepRegistersNothing(cfg: Setup, p: Plane, a: Action)
    requires p.shuttingDown && !a.DoRestart?
    ensures var q := Step(cfg, p, a);
            && q.shuttingDown && q.nextSession == p.nextSession
            && forall t, sid: nat :: LiveIn(q.active, t, sid) ==> LiveIn(p.active, t, sid)
  {
    hide Register, Unregister, LiveIn, EvictionOrder;
    StepFrame(cfg, p, a);
    if a.DoRegister? {
      NothingAfterShutdown(cfg, p, a.token, a.request, a.now, a.order);
    } else if a.DoUnregister? {
      UnregisterSessions(p, a.sid, a.now);
    }
  }

  lemma UnregisterSessions(p: Plane, sid: nat, now: nat)
    ensures forall t, s: nat :: LiveIn(Unregister(p, sid, now).active, t, s) ==> LiveIn(p.active, t, s)
  {
    hide Unlink, Touch, LiveIn, Arm;
    if sid in p.closures {
      UnlinkLives(p.active, p.closures[sid].tokenId, sid);
    }
  }

  /** What a session leaves when it ends: the closure stamps the record under the key it captured,
      which is the record of the session exactly when no migration has relabelled the session. */
  lemma UnregisterStamps(p: Plane, sid: nat, now: nat)
    requires sid in p.closures && LiveIn(p.active, p.closures[sid].tokenId, sid)
    ensures var c := p.closures[sid];
            var key := p.active[c.tokenId][sid].clientKey;
            var q := Unregister(p, sid, now);
            && !LiveIn(q.active, c.tokenId, sid)
            && q.mem.clients.Keys == p.mem.clients.Keys
            && (forall k :: k in p.mem.clients ==>
                  q.mem.clients[k] == if k == c.clientKey then p.mem.clients[k].(lastSeen := now) else p.mem.clients[k])
            && (key in p.mem.clients && p.mem.clients[key].lastSeen != now ==>
                  (q.mem.clients[key].lastSeen == now <==> key == c.clientKey))
  {
    hide Unlink, Arm;
    UnlinkLives(p.active, p.closures[sid].tokenId, sid);
    hide LiveIn;
  }

  /** Nothing is registered once shutdown has begun. */
  lemma NothingAfterShutdown(cfg: Setup, p: Plane, token: Token, r: Request, now: nat, order: seq<string>)
    requires p.shuttingDown
    ensures Register(cfg, p, token, r, now, order) == (p, None)
  {
  }
}
