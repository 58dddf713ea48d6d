/** How long a block lasts: exactly until it is lifted, its token is deleted, or its client is
    evicted from a full directory. */
module Blocks {
  import opened Wrappers
  import opened Text
  import opened Config
  import opened ControlState
  import opened TokenLedger
  import opened Migration
  import opened Pruning
  import opened StepFrames
  import opened ControlInvariant
  import opened ControlRuns

  // ------------------------------------------------------------- one step

  /** The directory is full and the client is the first to be evicted. */
  predicate FirstOut(m: Durable, order: seq<string>, key: string) {
    |m.clients| == MAX_CLIENTS && order != [] && order[0] == key
  }

  /** An admitted registration loses the block of a client exactly when the directory is full and
      that client is the first to be evicted; it never changes a block otherwise. */
  lemma RegistrationBlocks(cfg: Setup, p: Plane, token: Token, r: Request, now: nat, order: seq<string>, key: string)
    requires Inv(cfg, p) && Enabled(p, DoRegister(token, r, now, order)) && Admits(cfg, p, token, r)
    requires key in p.mem.blocked
    ensures var q := Register(cfg, p, token, r, now, order).0;
            && (key in q.mem.blocked <==> !FirstOut(p.mem, order, key))
            && (key in q.mem.blocked ==> q.mem.blocked[key] == p.mem.blocked[key])
            && q.mem.blocked.Keys <= p.mem.blocked.Keys
  {
    hide TokenActive, IdentityOf, LegacyId, EvictionOrder, ActiveKeys, BlockedIdentity, Migrate, Recorded, Placed,
      Link, ClientKey, IsIdentifier, ClientsGood, MovedSome, TokensGood, TimersGood, SessionsGood, DiskGood, Prune,
      Registered, Schedule;
    AuthorizedId(p, token);
    DirectoryBound(p.mem);
    hide Inv;
    var i := IdentityOf(token.id, r);
    RegisteredFrame(cfg, p, token, r, now, order);
    MigratedBlocks(p, token.id, r, order);
    EvictedFirst(p.mem, ActiveKeys(p.active), order, key);
    ScheduledMemory(Registered(p, i, r, now, order));
  }

  lemma DirectoryBound(m: Durable)
    ensures ClientsGood(m.clients, m.blocked) ==> |m.clients| <= MAX_CLIENTS
  {
  }

  lemma ScheduledMemory(p: Plane)
    ensures Schedule(p).mem == p.mem && Schedule(p).active == p.active
  {
    hide Arm;
  }

  lemma MigratedBlocks(p: Plane, tokenId: string, r: Request, order: seq<string>)
    requires ClientsGood(p.mem.clients, p.mem.blocked) && IsIdentifier(tokenId, 96) && LegacyId(r.legacyId)
    requires EvictionOrder(order, p.mem.clients, ActiveKeys(p.active))
        && !BlockedIdentity(p.mem, IdentityOf(tokenId, r))
    ensures Migrate(p.(mem := Prune(p.mem, order)), IdentityOf(tokenId, r), r).mem.blocked
        == Prune(p.mem, order).blocked
  {
    hide EvictionOrder, Prune, Migrate, IdentityOf, LegacyId, IsIdentifier, BlockedIdentity, SessionsMoved,
      RecordsMoved, CarriesStamps, ClientsGood, ActiveKeys, Merged, OldKeys, ClientKey, AllSessions, Elements;
    var pruned := p.(mem := Prune(p.mem, order));
    PruneKeepsGood(p.mem, ActiveKeys(p.active), order);
    UnblockedAfterPrune(p.mem, pruned.mem, IdentityOf(tokenId, r));
    MigrationConserves(pruned, tokenId, r);
  }

  lemma EvictedFirst(m: Durable, live: set<string>, order: seq<string>, key: string)
    requires EvictionOrder(order, m.clients, live) && |m.clients| <= MAX_CLIENTS && key in m.blocked
    ensures var b := Prune(m, order).blocked;
            && (key in b <==> !FirstOut(m, order, key))
            && (key in b ==> b[key] == m.blocked[key]) && b.Keys <= m.blocked.Keys
  {
    if |m.clients| == MAX_CLIENTS {
      assert order[..1] == [order[0]];
      assert Elements(order[..1]) == {order[0]};
    } else {
      assert Elements(order[..0]) == {};
    }
  }

  /** The three ways in which a block ends. */
  predicate Lifts(cfg: Setup, p: Plane, a: Action, key: string) {
    Enabled(p, a) &&
    match a
    case DoBlock(t, d, block, _, ok) => !block && ok && DeviceKey(t, d) == Some(key)
    case DoDelete(id, ok) => DeleteToken(cfg, p, id, ok).1.Ok? && key in p.mem.clients
        && p.mem.clients[key].tokenId == Trim(id)
    case DoRegister(token, r, _, order) => Admits(cfg, p, token, r) && FirstOut(p.mem, order, key)
    case _ => false
  }

  lemma BlockingBlocks(p: Plane, t: string, d: string, block: bool, now: nat, ok: bool, key: string)
    requires key in p.mem.blocked && p.mem.blocked.Keys <= p.mem.clients.Keys
    ensures key in SetBlocked(p, t, d, block, now, ok).0.mem.blocked <==> block || !ok || DeviceKey(t, d) != Some(key)
  {
    hide DeviceKey, DeviceSessions, PersistCritical;
    var k := DeviceKey(t, d);
    if k.Some? && k.value in p.mem.clients && ok {
      var blocked := if block then p.mem.blocked[k.value := now] else p.mem.blocked - {k.value};
      PersistedMemory(p.(mem := p.mem.(blocked := blocked)));
    }
  }

  lemma DeletionBlocks(cfg: Setup, p: Plane, id: string, ok: bool, key: string)
    requires ClientsGood(p.mem.clients, p.mem.blocked) && key in p.mem.blocked
    ensures key in DeleteToken(cfg, p, id, ok).0.mem.blocked
            <==> DeleteToken(cfg, p, id, ok).1.Err? || p.mem.clients[key].tokenId != Trim(id)
  {
    hide AllTokens, Revocation, Refusal, PersistCritical, Trim, WellKeyed;
    var found := FindId(AllTokens(cfg, p.mem), Trim(id));
    if found.Some? {
      PersistedMemory(p.(mem := Deletion(cfg, p.mem, found.value)));
      PersistKept(p.(mem := Deletion(cfg, p.mem, found.value)));
    }
  }

  lemma PersistKept(p: Plane)
    ensures PersistCritical(p, true).active == p.active && PersistCritical(p, true).collected == p.collected
  {
  }

  lemma RestartBlocks(cfg: Setup, p: Plane, generated: string, key: string)
    requires ValidSetup(cfg) && Inv(cfg, p) && ValidInstanceId(generated) && key in p.mem.blocked
    ensures key in Restart(cfg, p, generated).mem.blocked
  {
    hide ValidSetup, TokensGood, ClientsGood, TimersGood, SessionsGood, AuthorizedGood, ValidInstanceId, Restart;
    InvRestarts(cfg, p, generated);
  }

  /** Over every step a block is gone exactly when the step is one that lifts it. */
  lemma StepBlockExact(cfg: Setup, p: Plane, a: Action, key: string)
    requires ValidSetup(cfg) && Inv(cfg, p) && key in p.mem.blocked
    ensures key in Step(cfg, p, a).mem.blocked <==> !Lifts(cfg, p, a, key)
  {
    hide ValidSetup, TokensGood, TimersGood, SessionsGood, AuthorizedGood, DiskGood, CreateToken, Register,
      DeleteToken, Restart, EvictionOrder, PersistCritical, SetBlocked, Disconnect, Unregister, Locate, TimerFires,
      FlushCallback, BeginShutdown, FinishShutdown, Authorize, Admits, LegacyId, ValidInstanceId, MintedId, DeviceKey,
      Trim, WellKeyed;
    if Enabled(p, a) {
      match a
      case DoDelete(id, ok) => DeletionBlocks(cfg, p, id, ok, key);
      case DoBlock(t, d, block, now, ok) => BlockingBlocks(p, t, d, block, now, ok, key);
      case DoRegister(token, r, now, order) => RegisterBlocks(cfg, p, token, r, now, order, key);
      case DoRestart(generated) => RestartBlocks(cfg, p, generated, key);
      case _ => StepFrame(cfg, p, a);
    }
  }

  lemma RegisterBlocks(cfg: Setup, p: Plane, token: Token, r: Request, now: nat, order: seq<string>, key: string)
    requires Inv(cfg, p) && Enabled(p, DoRegister(token, r, now, order)) && key in p.mem.blocked
    ensures key in Register(cfg, p, token, r, now, order).0.mem.blocked
            <==> !(Admits(cfg, p, token, r) && FirstOut(p.mem, order, key))
  {
    hide Inv, Enabled, Admits, Schedule, Registered, IdentityOf;
    if Admits(cfg, p, token, r) {
      RegistrationBlocks(cfg, p, token, r, now, order, key);
    }
  }

  // ----------------------------------------------------------------- runs

  /** No step along the run lifts the block. */
  predicate NeverLifted(cfg: Setup, p: Plane, acts: seq<Action>, key: string)
    decreases |acts|
  {
    acts == [] || (!Lifts(cfg, p, acts[0], key) && NeverLifted(cfg, Step(cfg, p, acts[0]), acts[1..], key))
  }

  /** A block survives every run short of the three steps that lift it, restarts and failed writes
      included, and while it lasts no request that names the device is admitted. */
  lemma {:induction false} RunKeepsBlock(cfg: Setup, p: Plane, acts: seq<Action>, key: string)
    requires ValidSetup(cfg) && Inv(cfg, p) && AllNew(cfg, p, acts) && key in p.mem.blocked
        && NeverLifted(cfg, p, acts, key)
    ensures var q := Run(cfg, p, acts);
            && key in q.mem.blocked
            && forall token: Token, r: Request, d ::
                 d in Candidates(IdentityOf(token.id, r)) && ClientKey(token.id, d) == key ==>
                   !Admits(cfg, q, token, r)
    decreases |acts|
  {
    hide Inv, StoresNew, Step, ValidSetup, Lifts;
    if acts != [] {
      StepBlockExact(cfg, p, acts[0], key);
      StepInv(cfg, p, acts[0]);
      RunKeepsBlock(cfg, Step(cfg, p, acts[0]), acts[1..], key);
    } else {
      forall token: Token, r: Request, d | d in Candidates(IdentityOf(token.id, r)) && ClientKey(token.id, d) == key
        ensures !Admits(cfg, p, token, r)
      {
        NamedIsRefused(cfg, p, token, r, d);
      }
    }
  }

  lemma NamedIsRefused(cfg: Setup, p: Plane, token: Token, r: Request, d: string)
    requires d in Candidates(IdentityOf(token.id, r)) && ClientKey(token.id, d) in p.mem.blocked
    ensures !Admits(cfg, p, token, r)
  {
    hide ClientKey, Candidates, TokenActive;
    assert IdentityOf(token.id, r).tokenId == token.id;
  }
}
