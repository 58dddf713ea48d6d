/** What every locked region of the control plane keeps, and what follows for restarts,
    the state file and the write-behind flush over whole runs. */
module ControlInvariant {
  import opened Wrappers
  import opened Text
  import opened Config
  import opened ControlState
  import opened TokenLedger
  import opened Collections
  import opened Migration
  import opened Pruning

  // ------------------------------------------------------------- invariant

  ghost predicate MemoryGood(cfg: Setup, m: Durable) {
    && m.version == STATE_VERSION
    && ValidInstanceId(m.instanceId) && (cfg.configuredId != "" ==> m.instanceId == cfg.configuredId)
    && TokensGood(cfg, m.added, m.revoked, m.deleted)
    && ClientsGood(m.clients, m.blocked)
  }

  /** The state file holds a good state with the tokens, revocations and tombstones of
      memory and at least its blocks; it is behind memory only while memory is dirty. */
  ghost predicate DiskGood(cfg: Setup, disk: Option<Durable>, mem: Durable, dirty: bool, synced: bool) {
    match disk
    case None => mem.added == [] && mem.revoked == [] && mem.deleted == [] && mem.blocked == map[] && !synced
    case Some(d) => MemoryGood(cfg, d) && Behind(d, mem) && (!dirty ==> d == mem)
  }

  /** What write-behind may and may not leave out of the state file. */
  ghost predicate Behind(d: Durable, mem: Durable) {
    && d.version == mem.version && d.instanceId == mem.instanceId
    && d.added == mem.added && d.revoked == mem.revoked && d.deleted == mem.deleted
    && BlocksKept(mem.blocked, d.blocked)
  }

  ghost predicate BlocksKept(a: map<string, nat>, b: map<string, nat>) {
    forall k :: k in a ==> k in b && b[k] == a[k]
  }

  /** A remembered timer still has its callback ahead of it, and while the process is not
      shutting down dirty memory has a callback ahead of it. */
  predicate TimersGood(timers: Timers, dirty: bool, shuttingDown: bool) {
    var pending := timers.armed + timers.fired;
    && (timers.handle.Some? ==> timers.handle.value in pending)
    && (dirty && !shuttingDown ==> pending != {})
  }

  /** Every live session has exactly one unregister closure left, which knows its bucket;
      buckets are never empty. */
  ghost predicate SessionsGood(active: Active, next: nat, closures: map<nat, Closure>) {
    && (forall t :: t in active ==> active[t] != map[])
    && (forall t, sid: nat :: LiveIn(active, t, sid) ==> sid <= next && sid in closures && closures[sid].tokenId == t)
    && (forall sid: nat :: sid in closures ==> LiveIn(active, closures[sid].tokenId, sid))
  }

  ghost predicate AuthorizedGood(authorized: set<Token>) {
    forall t :: t in authorized ==> NormalToken(t)
  }

  ghost predicate Inv(cfg: Setup, p: Plane) {
    && MemoryGood(cfg, p.mem)
    && DiskGood(cfg, p.disk, p.mem, p.dirty, p.synced)
    && TimersGood(p.timers, p.dirty, p.shuttingDown)
    && SessionsGood(p.active, p.nextSession, p.closures)
    && AuthorizedGood(p.authorized)
  }

  /** The request stores a new token (it is neither refused nor a replay). */
  predicate Adds(cfg: Setup, p: Plane, a: Action) {
    a.DoCreate? && a.ok && MintedId(a.args.drawnId)
    && var r := CreateToken(cfg, p, a.args, true).1; r.Ok? && !r.value.replayed
  }

  /** What a caller can check before asking for a token: the hash of the secret is not that
      of a stored token and, without an idempotency key, neither is the drawn id. */
  predicate StoresNew(cfg: Setup, p: Plane, a: Action) {
    Adds(cfg, p, a) ==>
      var token := CreateToken(cfg, p, a.args, true).1.value.token;
      NewHash(cfg, p.mem, token.hash) && (SanitizeIdentifier(a.args.key, 96) == "" ==> NewId(cfg, p.mem, token.id))
  }

  // --------------------------------------------------------------- restart

  lemma LoadableFromGood(cfg: Setup, m: Durable)
    requires ValidSetup(cfg) && MemoryGood(cfg, m)
    ensures Loadable(m)
  {
    forall t | t in m.added
      ensures t.id != "" && StableTokenId(t) == t.id && SameDigest(t.hash, NormalizeHash(t.hash))
    {
      ValidHashIsNormal(t.hash);
    }
    forall h | h in m.revoked ensures NormalizeHash(h) != "" && SameDigest(h, NormalizeHash(h)) {
      var t :| t in cfg.base && t.hash == h;
      NormalHasHash(t);
      ValidHashIsNormal(h);
    }
    forall id | id in m.deleted ensures SanitizeIdentifier(id, 96) != "" {
      IdentifierIsTrimmed(id, 96);
    }
    forall k | k in m.clients ensures GoodClient(k, m.clients[k]) {
      IdentifierIsTrimmed(m.clients[k].tokenId, 96);
      IdentifierIsTrimmed(m.clients[k].deviceId, 96);
    }
    SubsetSize(m.blocked.Keys, m.clients.Keys);
  }

  /** For stored tokens the comparison with the configuration is distinctness. */
  lemma MatchesIsDistinct(cfg: Setup, d: Durable)
    requires forall t :: t in cfg.base + d.added ==> NormalToken(t)
    ensures MatchesConfig(cfg, d) <==> DistinctTokens(cfg.base + d.added)
  {
    var ts := cfg.base + d.added;
    var ids, hashes := Project(ts, StableTokenId), Project(ts, HashOf);
    forall i | 0 <= i < |ts| ensures ids[i] == ts[i].id && hashes[i] == ts[i].hash {
      assert ts[i] in ts;
    }
    if Distinct(ids) && Distinct(hashes) {
      DistinctProjections(ts, HashOf, StableTokenId, ts);
    }
  }

  /** A good state file is accepted, and memory after the restart is that file. */
  lemma GoodDiskStarts(cfg: Setup, d: Durable, generated: string)
    requires ValidSetup(cfg) && MemoryGood(cfg, d)
    ensures Start(cfg, Some(d), generated) == Ok(d)
  {
    LoadableFromGood(cfg, d);
    forall t | t in cfg.base + d.added ensures NormalToken(t) {}
    MatchesIsDistinct(cfg, d);
    assert d.(version := STATE_VERSION) == d;
  }

  lemma NoDiskStarts(cfg: Setup, generated: string)
    requires ValidSetup(cfg)
    ensures Start(cfg, None, generated) == Ok(Initial(cfg, generated).mem)
  {
    assert cfg.base + [] == cfg.base;
    MatchesIsDistinct(cfg, EMPTY_STATE);
  }

  lemma InitialInv(cfg: Setup, generated: string)
    requires ValidSetup(cfg) && ValidInstanceId(generated)
    ensures Inv(cfg, Initial(cfg, generated))
  {
    assert cfg.base + [] == cfg.base;
  }

  predicate Restartable(cfg: Setup, p: Plane, generated: string) {
    Start(cfg, p.disk, generated).Ok?
  }

  lemma InvRestarts(cfg: Setup, p: Plane, generated: string)
    requires ValidSetup(cfg) && Inv(cfg, p) && ValidInstanceId(generated)
    ensures Restartable(cfg, p, generated)
    ensures p.disk.Some? ==> Restart(cfg, p, generated) == Fresh(p.disk.value, p.disk, p.issued)
    ensures Inv(cfg, Restart(cfg, p, generated))
  {
    match p.disk
    case None => NoDiskStarts(cfg, generated); InitialInv(cfg, generated);
    case Some(d) => GoodDiskStarts(cfg, d, generated);
  }

  // ------------------------------------------------------- steps, one by one

  lemma PersistedInv(cfg: Setup, p: Plane)
    requires MemoryGood(cfg, p.mem) && SessionsGood(p.active, p.nextSession, p.closures) && AuthorizedGood(p.authorized)
    ensures Inv(cfg, PersistCritical(p, true))
    ensures PersistCritical(p, true).disk == Some(p.mem)
  {
    hide MemoryGood, SessionsGood, AuthorizedGood;
  }

  lemma ScheduleInv(cfg: Setup, p: Plane, q: Plane)
    requires Inv(cfg, p) && ClientsGood(q.mem.clients, q.mem.blocked)
        && SessionsGood(q.active, q.nextSession, q.closures)
    requires q == p.(mem := q.mem, active := q.active, nextSession := q.nextSession, closures := q.closures)
    requires q.mem == p.mem.(clients := q.mem.clients, blocked := q.mem.blocked)
    requires BlocksKept(q.mem.blocked, p.mem.blocked)
    ensures Inv(cfg, Schedule(q))
  {
    hide TokensGood, ClientsGood, SessionsGood, AuthorizedGood;
    assert MemoryGood(cfg, q.mem);
    assert p.mem.blocked == map[] ==> q.mem.blocked == map[];
  }

  lemma CreateInv(cfg: Setup, p: Plane, a: Action)
    requires ValidSetup(cfg) && Inv(cfg, p) && Adds(cfg, p, a) && StoresNew(cfg, p, a)
    ensures Inv(cfg, Step(cfg, p, a))
  {
    hide NormalToken, TokensGood, ClientsGood, SessionsGood, AuthorizedGood, CreateToken;
    CreatedIsNew(cfg, p, a.args);
    var token := CreateToken(cfg, p, a.args, true).1.value.token;
    if SanitizeIdentifier(a.args.key, 96) != "" {
      KeyedIdIsNew(cfg, p.mem, token.id);
    }
    AdditionExact(cfg, p.mem, token);
    PersistedInv(cfg, p.(mem := p.mem.(added := p.mem.added + [token])));
  }

  /** A request that stores nothing changes nothing, whether refused, replayed or not persisted. */
  lemma CreateElsewise(cfg: Setup, p: Plane, args: CreateArgs, ok: bool)
    requires MintedId(args.drawnId) && !Adds(cfg, p, DoCreate(args, ok))
    ensures CreateToken(cfg, p, args, ok).0 == p
  {
    hide AllTokens, Replay, Requested;
  }

  lemma DeleteInv(cfg: Setup, p: Plane, id: string, ok: bool)
    requires ValidSetup(cfg) && Inv(cfg, p)
    ensures Inv(cfg, DeleteToken(cfg, p, id, ok).0)
  {
    hide NormalToken, TokensGood, ClientsGood, SessionsGood, AuthorizedGood, Deletion;
    var r := DeleteToken(cfg, p, id, ok);
    if r.1.Ok? {
      var found := FindId(AllTokens(cfg, p.mem), Trim(id)).value;
      DeletionKeepsTokens(cfg, p.mem, found);
      DeletionKeepsClients(cfg, p.mem, found);
      PersistedInv(cfg, p.(mem := Deletion(cfg, p.mem, found)));
    }
  }

  lemma DeletionKeepsClients(cfg: Setup, m: Durable, found: Token)
    requires ClientsGood(m.clients, m.blocked)
    ensures var d := Deletion(cfg, m, found);
            ClientsGood(d.clients, d.blocked)
            && d == m.(added := d.added, revoked := d.revoked, deleted := d.deleted, clients := d.clients,
                       blocked := d.blocked)
  {
    SubmapSize(Deletion(cfg, m, found).clients, m.clients);
  }

  lemma BlockInv(cfg: Setup, p: Plane, t: string, d: string, block: bool, now: nat, ok: bool)
    requires ValidSetup(cfg) && Inv(cfg, p) && now > 0
    ensures Inv(cfg, SetBlocked(p, t, d, block, now, ok).0)
  {
    hide TokensGood, WellKeyed, SessionsGood, AuthorizedGood, DeviceKey, DeviceSessions;
    var r := SetBlocked(p, t, d, block, now, ok);
    if r.1.Ok? {
      PersistedInv(cfg, p.(mem := r.0.mem));
    }
  }

  lemma SeenGood(m: Durable, i: Identity, r: Request, now: nat)
    requires ClientsGood(m.clients, m.blocked) && |m.clients| < MAX_CLIENTS
    requires IsIdentifier(i.tokenId, 96) && IsIdentifier(i.deviceId, 96)
    ensures var s := Seen(m, i, r, now); s == m.(clients := s.clients) && ClientsGood(s.clients, s.blocked)
  {
    var key := ClientKey(i.tokenId, i.deviceId);
    assert Seen(m, i, r, now).clients == m.clients[key := Seen(m, i, r, now).clients[key]];
    UpdateSize(m.clients, key, Seen(m, i, r, now).clients[key]);
  }

  lemma UnblockedAfterPrune(m: Durable, n: Durable, i: Identity)
    requires !BlockedIdentity(m, i) && n.blocked.Keys <= m.blocked.Keys
    ensures !BlockedIdentity(n, i)
  {
    hide ClientKey, Candidates;
  }

  lemma PrunedMigration(p: Plane, tokenId: string, r: Request, order: seq<string>)
    requires ClientsGood(p.mem.clients, p.mem.blocked) && IsIdentifier(tokenId, 96) && LegacyId(r.legacyId)
    requires EvictionOrder(order, p.mem.clients, ActiveKeys(p.active))
        && !BlockedIdentity(p.mem, IdentityOf(tokenId, r))
    ensures var q := Migrate(p.(mem := Prune(p.mem, order)), IdentityOf(tokenId, r), r);
            && q == p.(mem := q.mem, active := q.active)
            && q.mem == p.mem.(clients := q.mem.clients, blocked := q.mem.blocked)
            && ClientsGood(q.mem.clients, q.mem.blocked) && |q.mem.clients| < MAX_CLIENTS
            && BlocksKept(q.mem.blocked, p.mem.blocked) && MovedSome(p.active, q.active)
  {
    hide EvictionOrder, Prune, Migrate, IdentityOf, LegacyId, IsIdentifier, BlockedIdentity, WellKeyed, SessionsMoved,
      RecordsMoved, CarriesStamps, ClientsGood, ActiveKeys, Merged, OldKeys, ClientKey, AllSessions, Elements;
    var pruned := p.(mem := Prune(p.mem, order));
    PruneKeepsGood(p.mem, ActiveKeys(p.active), order);
    UnblockedAfterPrune(p.mem, pruned.mem, IdentityOf(tokenId, r));
    MigrationConserves(pruned, tokenId, r);
  }

  /** Registration changes the client directory, the sessions and nothing else; it drops
      blocks only with the clients it prunes. */
  lemma RegisteredFrame(cfg: Setup, p: Plane, token: Token, r: Request, now: nat, order: seq<string>)
    requires ClientsGood(p.mem.clients, p.mem.blocked) && IsIdentifier(token.id, 96) && LegacyId(r.legacyId)
    requires EvictionOrder(order, p.mem.clients, ActiveKeys(p.active))
    requires !BlockedIdentity(p.mem, IdentityOf(token.id, r))
    ensures var i := IdentityOf(token.id, r);
            var migrated := Migrate(p.(mem := Prune(p.mem, order)), i, r);
            var q := Registered(p, i, r, now, order);
            && q == p.(mem := q.mem, active := q.active, nextSession := q.nextSession, closures := q.closures)
            && q.mem == p.mem.(clients := q.mem.clients, blocked := q.mem.blocked)
            && ClientsGood(q.mem.clients, q.mem.blocked) && BlocksKept(q.mem.blocked, p.mem.blocked)
            && MovedSome(p.active, migrated.active)
            && q.active == Link(migrated.active, token.id, p.nextSession + 1, ClientKey(token.id, i.deviceId))
            && q.nextSession == p.nextSession + 1 && q.mem.blocked == migrated.mem.blocked
            && q.closures == p.closures[p.nextSession + 1 := Closure(token.id, ClientKey(token.id, i.deviceId))]
  {
    hide BlockedIdentity, Candidates, ClientKey, EvictionOrder, IsIdentifier, Prune, Migrate, Recorded, Placed,
      IdentityOf, LegacyId, ClientsGood, BlocksKept, MovedSome, Link;
    var i := IdentityOf(token.id, r);
    PrunedMigration(p, token.id, r, order);
    IdentityShape(token.id, r);
    SeenGood(Migrate(p.(mem := Prune(p.mem, order)), i, r).mem, i, r, now);
  }

  ghost predicate MovedSome(before: Active, after: Active) {
    exists moved, key :: SessionsMoved(before, after, moved, key)
  }

  lemma MovedSame(before: Active, after: Active)
    requires MovedSome(before, after)
    ensures forall t :: t in after ==> t in before && (after[t] == map[] <==> before[t] == map[])
    ensures forall t, sid: nat :: LiveIn(after, t, sid) <==> LiveIn(before, t, sid)
  {
    forall t | t in after ensures after[t].Keys == before[t].Keys {}
  }

  lemma LinkLives(active: Active, tokenId: string, sid: nat, key: string)
    ensures var after := Link(active, tokenId, sid, key);
            && (forall t :: t in after ==> t == tokenId || (t in active && after[t] == active[t]))
            && tokenId in after && after[tokenId] != map[]
            && forall t, s: nat :: LiveIn(after, t, s) <==> LiveIn(active, t, s) || (t == tokenId && s == sid)
  {
    assert sid in Link(active, tokenId, sid, key)[tokenId];
  }

  lemma RegisterSessions(active: Active, next: nat, closures: map<nat, Closure>, migrated: Active, tokenId: string,
                         key: string)
    requires SessionsGood(active, next, closures) && MovedSome(active, migrated)
    ensures SessionsGood(Link(migrated, tokenId, next + 1, key), next + 1, closures[next + 1 := Closure(tokenId, key)])
  {
    hide LiveIn, Link, MovedSome;
    MovedSame(active, migrated);
    LinkLives(migrated, tokenId, next + 1, key);
  }

  lemma AuthorizedId(p: Plane, token: Token)
    requires AuthorizedGood(p.authorized) && token in p.authorized
    ensures IsIdentifier(token.id, 96)
  {
  }

  lemma RegisterInv(cfg: Setup, p: Plane, token: Token, r: Request, now: nat, order: seq<string>)
    requires ValidSetup(cfg) && Inv(cfg, p) && token in p.authorized && LegacyId(r.legacyId)
    requires EvictionOrder(order, p.mem.clients, ActiveKeys(p.active))
    ensures Inv(cfg, Register(cfg, p, token, r, now, order).0)
  {
    hide NormalToken, AuthorizedGood, IsIdentifier, TokensGood, DiskGood, TimersGood, ClientsGood, SessionsGood,
      EvictionOrder, Migrate, Prune, LegacyId, Schedule, MovedSome, Registered, Link, BlocksKept, TokenActive,
      IdentityOf;
    if Register(cfg, p, token, r, now, order).1.Some? {
      var i := IdentityOf(token.id, r);
      AuthorizedId(p, token);
      RegisteredFrame(cfg, p, token, r, now, order);
      var migrated := Migrate(p.(mem := Prune(p.mem, order)), i, r);
      RegisterSessions(p.active, p.nextSession, p.closures, migrated.active, token.id, ClientKey(token.id, i.deviceId));
      ScheduleInv(cfg, p, Registered(p, i, r, now, order));
    }
  }

  lemma UnregisterInv(cfg: Setup, p: Plane, sid: nat, now: nat)
    requires Inv(cfg, p)
    ensures Inv(cfg, Unregister(p, sid, now))
  {
    hide TokensGood, ClientsGood, SessionsGood, AuthorizedGood, Unlink, Touch;
    if sid in p.closures {
      var c := p.closures[sid];
      var q := p.(active := Unlink(p.active, c.tokenId, sid), mem := Touch(p.mem, c.clientKey, now),
                  closures := p.closures - {sid});
      TouchGood(p.mem, c.clientKey, now);
      UnlinkSessions(p.active, p.nextSession, p.closures, sid);
      ScheduleInv(cfg, p, q);
    }
  }

  lemma UnlinkSessions(active: Active, next: nat, closures: map<nat, Closure>, sid: nat)
    requires SessionsGood(active, next, closures) && sid in closures
    ensures SessionsGood(Unlink(active, closures[sid].tokenId, sid), next, closures - {sid})
  {
    UnlinkLives(active, closures[sid].tokenId, sid);
    hide LiveIn, Unlink;
  }

  lemma UnlinkLives(active: Active, tokenId: string, sid: nat)
    ensures var after := Unlink(active, tokenId, sid);
            && (forall t :: t in after ==> t in active && (t != tokenId ==> after[t] == active[t]))
            && (tokenId in after ==> after[tokenId] != map[])
            && forall t, s: nat :: LiveIn(after, t, s) <==> LiveIn(active, t, s) && !(t == tokenId && s == sid)
  {
    if tokenId in active {
      var rest := active[tokenId] - {sid};
      assert forall s: nat :: s in active[tokenId] && s != sid ==> s in rest;
    }
  }

  lemma TouchGood(m: Durable, key: string, now: nat)
    requires ClientsGood(m.clients, m.blocked)
    ensures var s := Touch(m, key, now); s == m.(clients := s.clients) && ClientsGood(s.clients, s.blocked)
  {
    if key in m.clients {
      UpdateSize(m.clients, key, m.clients[key].(lastSeen := now));
    }
  }

  lemma LocateInv(cfg: Setup, p: Plane, key: string, l: Lookup)
    requires Inv(cfg, p)
    ensures Inv(cfg, Locate(p, key, l))
  {
    hide Found, Schedule, Located;
    if key in p.mem.clients && Found(p.mem.clients[key], l).Some? {
      PlaceInv(cfg, p, key, Found(p.mem.clients[key], l).value);
    }
  }

  lemma PlaceInv(cfg: Setup, p: Plane, key: string, place: Place)
    requires Inv(cfg, p) && key in p.mem.clients
    ensures Inv(cfg, Schedule(p.(mem := p.mem.(clients := p.mem.clients[key := Located(p.mem.clients[key], place)]))))
  {
    hide Schedule, TokensGood, TimersGood, SessionsGood, AuthorizedGood;
    var located := Located(p.mem.clients[key], place);
    UpdateSize(p.mem.clients, key, located);
    ScheduleInv(cfg, p, p.(mem := p.mem.(clients := p.mem.clients[key := located])));
  }

  lemma FireInv(cfg: Setup, p: Plane, t: nat)
    requires Inv(cfg, p)
    ensures Inv(cfg, TimerFires(p, t))
  {
    hide MemoryGood, DiskGood, SessionsGood, AuthorizedGood;
    if t in p.timers.armed {
      assert t in TimerFires(p, t).timers.fired;
      assert p.timers.armed + p.timers.fired == TimerFires(p, t).timers.armed + TimerFires(p, t).timers.fired;
    }
  }

  lemma FlushInv(cfg: Setup, p: Plane, t: nat, ok: bool)
    requires Inv(cfg, p)
    ensures Inv(cfg, FlushCallback(p, t, ok))
  {
  }

  lemma ShutdownInv(cfg: Setup, p: Plane, ok: bool)
    requires Inv(cfg, p)
    ensures Inv(cfg, BeginShutdown(p))
    ensures p.shuttingDown ==> Inv(cfg, FinishShutdown(p, ok))
  {
    hide MemoryGood, SessionsGood, AuthorizedGood;
  }

  lemma AuthorizeInv(cfg: Setup, p: Plane, hash: string)
    requires ValidSetup(cfg) && Inv(cfg, p)
    ensures Inv(cfg, Step(cfg, p, DoAuthorize(hash)))
  {
    hide SessionsGood, ClientsGood;
    var t := Authorize(cfg, p.mem, hash);
    if t.Some? {
      AllTokensExact(cfg, p.mem, t.value);
    }
  }

  /** Every step keeps the invariant, provided that a stored token is new. */
  lemma StepInv(cfg: Setup, p: Plane, a: Action)
    requires ValidSetup(cfg) && Inv(cfg, p) && StoresNew(cfg, p, a)
    ensures Inv(cfg, Step(cfg, p, a))
  {
    hide MemoryGood, DiskGood, TimersGood, SessionsGood, AuthorizedGood, Register, DeleteToken, CreateToken,
      SetBlocked, Unregister, Locate, FlushCallback, FinishShutdown, Restart, EvictionOrder, TimerFires;
    if Enabled(p, a) {
      match a
      case DoPrepare(ok) => PersistedInv(cfg, p);
      case DoAuthorize(hash) => AuthorizeInv(cfg, p, hash);
      case DoCreate(args, ok) => if Adds(cfg, p, a) { CreateInv(cfg, p, a); } else { CreateElsewise(cfg, p, args, ok); }
      case DoDelete(id, ok) => DeleteInv(cfg, p, id, ok);
      case DoBlock(t, d, block, now, ok) => BlockInv(cfg, p, t, d, block, now, ok);
      case DoDisconnect(t, d) =>
      case DoRegister(token, r, now, order) => RegisterInv(cfg, p, token, r, now, order);
      case DoUnregister(sid, now) => UnregisterInv(cfg, p, sid, now);
      case DoLocate(key, lookup) => LocateInv(cfg, p, key, lookup);
      case DoFire(t) => FireInv(cfg, p, t);
      case DoFlush(t, ok) => FlushInv(cfg, p, t, ok);
      case DoBeginShutdown => ShutdownInv(cfg, p, true);
      case DoFinishShutdown(ok) => ShutdownInv(cfg, p, ok);
      case DoRestart(generated) => InvRestarts(cfg, p, generated);
    }
  }
}
