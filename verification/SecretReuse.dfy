/** Why the session guarantee needs secrets that are never used twice: a run in which every
    stored token is new when it is stored, and a session still escapes. */
module SecretReuse {
  import opened Wrappers
  import opened Text
  import opened Config
  import opened ControlState
  import opened TokenLedger
  import opened Migration
  import opened ControlInvariant
  import opened ControlRuns
  import opened ControlSessions

  /** An unkeyed request that draws this id. */
  predicate Draws(cfg: Setup, args: CreateArgs, token: Token) {
    && args.key == "" && MintedId(args.drawnId)
    && Requested(cfg, args).Ok? && Requested(cfg, args).value.0 == token && Requested(cfg, args).value.2 == ""
  }

  lemma Creates(cfg: Setup, p: Plane, args: CreateArgs, token: Token)
    requires ValidSetup(cfg) && Inv(cfg, p) && Draws(cfg, args, token)
    requires NewHash(cfg, p.mem, token.hash) && NewId(cfg, p.mem, token.id) && |AllTokens(cfg, p.mem)| < MAX_TOKENS
    ensures var a := DoCreate(args, true);
            && StoresNew(cfg, p, a) && Inv(cfg, Step(cfg, p, a)) && Step(cfg, p, a) == AddToken(p, token)
            && token in AllTokens(cfg, Step(cfg, p, a).mem) && "tok_" <= token.id && token.hash != ""
            && Authorize(cfg, Step(cfg, p, a).mem, token.hash) == Some(token)
  {
    hide NormalToken, TokensGood, ClientsGood, SessionsGood, AuthorizedGood, TimersGood, DiskGood, Requested,
      AllTokens, NewHash, NewId;
    var a := DoCreate(args, true);
    SanitizedEmpty();
    CreatedIsNew(cfg, p, args);
    NormalHasHash(token);
    CreateInv(cfg, p, a);
    NewTokenVisible(cfg, Step(cfg, p, a), token);
    AuthorizesIt(cfg, Step(cfg, p, a).mem, token);
  }

  lemma SanitizedEmpty()
    ensures SanitizeIdentifier("", 96) == ""
  {
    TrimIsTight("");
  }

  lemma AuthorizesIt(cfg: Setup, m: Durable, token: Token)
    requires ValidBase(cfg.base) && TokensGood(cfg, m.added, m.revoked, m.deleted) && token in AllTokens(cfg, m)
    ensures Authorize(cfg, m, token.hash) == Some(token)
    ensures FindId(AllTokens(cfg, m), token.id) == Some(token)
  {
    AllTokensExact(cfg, m, token);
    var byHash, byId := FindHash(AllTokens(cfg, m), token.hash).value, FindId(AllTokens(cfg, m), token.id).value;
    AllTokensExact(cfg, m, byHash);
    AllTokensExact(cfg, m, byId);
    SameHashSameToken(cfg, m, byHash, token);
    SameHashSameToken(cfg, m, byId, token);
  }

  /** Deleting a minted token by its id. */
  lemma Deletes(cfg: Setup, p: Plane, token: Token)
    requires ValidSetup(cfg) && Inv(cfg, p) && token in p.mem.added && "tok_" <= token.id
        && |p.mem.deleted| < MAX_TOMBSTONES
    requires !HasHash(cfg.base, token.hash)
    ensures var a := DoDelete(token.id, true);
            var q := Step(cfg, p, a);
            && StoresNew(cfg, p, a) && Inv(cfg, q)
            && q.mem.added == DropHash(p.mem.added, token.hash) && q.mem.revoked == p.mem.revoked
            && q.mem.deleted == (if token.id in p.mem.deleted then p.mem.deleted else p.mem.deleted + [token.id])
            && q.active == p.active && q.nextSession == p.nextSession && q.authorized == p.authorized
               && q.shuttingDown == p.shuttingDown
            && q.collected == p.collected + SessionsOf(p.active, token.id)
            && (p.mem.clients == map[] ==> q.mem.clients == map[] && q.mem.blocked == map[])
            && (forall t :: t in AllTokens(cfg, q.mem) ==> t.id != token.id && t.hash != token.hash)
  {
    hide NormalToken, ClientsGood, SessionsGood, AuthorizedGood, TimersGood, DiskGood, AllTokens;
    NewTokenVisible(cfg, p, token);
    AuthorizesIt(cfg, p.mem, token);
    FoundIsIdentifier(cfg, p.mem, token);
    DeleteInv(cfg, p, token.id, true);
    OnlyFoundHidden(cfg, p.mem, token);
    NoClientsNoBlocks(p.mem);
  }

  lemma NoClientsNoBlocks(m: Durable)
    requires ClientsGood(m.clients, m.blocked)
    ensures m.clients == map[] ==> m.blocked == map[]
  {
  }

  /** The directory is empty, so nothing is pruned and nothing migrates. */
  lemma RegistersFirst(cfg: Setup, p: Plane, token: Token, r: Request, now: nat)
    requires ValidSetup(cfg) && Inv(cfg, p) && p.mem.clients == map[] && p.active == map[] && !p.shuttingDown
    requires token in p.authorized && LegacyId(r.legacyId) && now > 0 && TokenActive(cfg, p.mem, token.hash)
    ensures var a := DoRegister(token, r, now, []);
            var q := Step(cfg, p, a);
            && StoresNew(cfg, p, a) && Inv(cfg, q) && q.mem.added == p.mem.added && q.mem.revoked == p.mem.revoked
               && q.mem.deleted == p.mem.deleted
            && q.collected == p.collected && LiveIn(q.active, token.id, p.nextSession + 1)
            && (forall t :: t in q.active ==> t == token.id)
  {
    hide ValidSetup, NormalToken, TokenActive, IdentityOf, LegacyId, Registered, EvictionOrder, ActiveKeys,
      BlockedIdentity, Migrate, Prune, Link, ClientKey, LiveIn, ClientsGood, SessionsGood, AuthorizedGood, TimersGood,
      DiskGood, TokensGood, MovedSome, BlocksKept, Register, Step, Schedule;
    var a, i := DoRegister(token, r, now, []), IdentityOf(token.id, r);
    NoClientsNoBlocks(p.mem);
    EmptyOrder(p);
    StepRegisters(cfg, p, token, r, now, []);
    AuthorizedId(p, token);
    NotBlocked(p.mem, i);
    hide Inv;
    RegisterInv(cfg, p, token, r, now, []);
    FirstFrame(cfg, p, token, r, now);
  }

  lemma EmptyOrder(p: Plane)
    requires p.mem.clients == map[]
    ensures EvictionOrder([], p.mem.clients, ActiveKeys(p.active))
  {
  }

  lemma StepRegisters(cfg: Setup, p: Plane, token: Token, r: Request, now: nat, order: seq<string>)
    requires Enabled(p, DoRegister(token, r, now, order))
    ensures Step(cfg, p, DoRegister(token, r, now, order)) == Register(cfg, p, token, r, now, order).0
    ensures StoresNew(cfg, p, DoRegister(token, r, now, order))
  {
    hide Register, EvictionOrder, LegacyId, ActiveKeys;
  }

  lemma NotBlocked(m: Durable, i: Identity)
    requires m.blocked == map[]
    ensures !BlockedIdentity(m, i)
  {
  }

  lemma FirstFrame(cfg: Setup, p: Plane, token: Token, r: Request, now: nat)
    requires ClientsGood(p.mem.clients, p.mem.blocked) && IsIdentifier(token.id, 96) && LegacyId(r.legacyId)
    requires p.mem.clients == map[] && p.active == map[] && Admits(cfg, p, token, r)
    ensures var q := Register(cfg, p, token, r, now, []).0;
            && q.mem.added == p.mem.added && q.mem.revoked == p.mem.revoked && q.mem.deleted == p.mem.deleted
            && q.collected == p.collected && LiveIn(q.active, token.id, p.nextSession + 1)
            && (forall t :: t in q.active ==> t == token.id)
  {
    hide TokenActive, IdentityOf, LegacyId, Registered, EvictionOrder, ActiveKeys, BlockedIdentity, Migrate, Prune,
      Link, ClientKey, LiveIn, ClientsGood, MovedSome, BlocksKept, IsIdentifier;
    var i := IdentityOf(token.id, r);
    EmptyOrder(p);
    NothingMigrates(p, i, r);
    RegisteredFrame(cfg, p, token, r, now, []);
    LinkLives(map[], token.id, p.nextSession + 1, ClientKey(token.id, i.deviceId));
  }

  lemma NothingMigrates(p: Plane, i: Identity, r: Request)
    requires p.mem.clients == map[]
    ensures Migrate(p.(mem := Prune(p.mem, [])), i, r).active == p.active
  {
    var q := p.(mem := Prune(p.mem, []));
    EmptyMerges(q, OldKeys(q.mem, i, r), i);
  }

  lemma {:induction false} EmptyMerges(p: Plane, keys: seq<string>, i: Identity)
    requires p.mem.clients == map[]
    ensures MergeKeys(p, keys, i) == p
    decreases |keys|
  {
    if keys != [] {
      EmptyMerges(p, keys[1..], i);
    }
  }

  lemma {:induction false} DropAppended(ts: seq<Token>, t: Token)
    requires !HasHash(ts, t.hash)
    ensures DropHash(ts + [t], t.hash) == ts
  {
    if ts != [] {
      assert (ts + [t])[1..] == ts[1..] + [t];
      DropAppended(ts[1..], t);
    }
  }

  /** Nothing is connected or known yet. */
  predicate Idle(p: Plane) {
    p.mem.clients == map[] && p.active == map[] && !p.shuttingDown && p.collected == {}
  }

  /** The owner creates A, a client is authorized with it, the owner deletes A: the lists are
      back where they were, but the authorization is still out. */
  lemma AuthorizedThenDeleted(cfg: Setup, p: Plane, args: CreateArgs, a: Token)
    requires ValidSetup(cfg) && Inv(cfg, p) && Idle(p) && Draws(cfg, args, a)
    requires NewHash(cfg, p.mem, a.hash) && NewId(cfg, p.mem, a.id)
    requires |AllTokens(cfg, p.mem)| < MAX_TOKENS && |p.mem.deleted| < MAX_TOMBSTONES
    ensures var p1 := Step(cfg, p, DoCreate(args, true));
            var p2 := Step(cfg, p1, DoAuthorize(a.hash));
            var q := Step(cfg, p2, DoDelete(a.id, true));
            && StoresNew(cfg, p, DoCreate(args, true)) && StoresNew(cfg, p1, DoAuthorize(a.hash))
               && StoresNew(cfg, p2, DoDelete(a.id, true))
            && Inv(cfg, q) && Idle(q) && a in q.authorized && q.nextSession == p.nextSession
            && q.mem.added == p.mem.added && q.mem.revoked == p.mem.revoked && |q.mem.deleted| <= |p.mem.deleted| + 1
  {
    hide NormalToken, TokensGood, ClientsGood, SessionsGood, AuthorizedGood, TimersGood, DiskGood, Requested,
      AllTokens, NewId, Draws, CreateToken, DeleteToken;
    var p1 := Step(cfg, p, DoCreate(args, true));
    Creates(cfg, p, args, a);
    var p2 := Step(cfg, p1, DoAuthorize(a.hash));
    AuthorizeInv(cfg, p1, a.hash);
    assert !HasHash(cfg.base, a.hash) && !HasHash(p.mem.added, a.hash) by {
      assert forall t :: t in cfg.base || t in p.mem.added ==> t in cfg.base + p.mem.added;
    }
    Deletes(cfg, p2, a);
    DropAppended(p.mem.added, a);
  }

  lemma RunFirst(cfg: Setup, p: Plane, a: Action, rest: seq<Action>)
    ensures Run(cfg, p, [a] + rest) == Run(cfg, Step(cfg, p, a), rest)
    ensures AllNew(cfg, p, [a] + rest) <==> StoresNew(cfg, p, a) && AllNew(cfg, Step(cfg, p, a), rest)
  {
    hide Step, StoresNew;
    assert ([a] + rest)[1..] == rest;
  }

  lemma RunThree(cfg: Setup, p: Plane, a: Action, b: Action, c: Action, rest: seq<Action>)
    requires StoresNew(cfg, p, a) && StoresNew(cfg, Step(cfg, p, a), b)
        && StoresNew(cfg, Step(cfg, Step(cfg, p, a), b), c)
    ensures var q := Step(cfg, Step(cfg, Step(cfg, p, a), b), c);
            && Run(cfg, p, [a, b, c] + rest) == Run(cfg, q, rest)
            && (AllNew(cfg, p, [a, b, c] + rest) <==> AllNew(cfg, q, rest))
  {
    hide Step, StoresNew, Run, AllNew;
    assert [a, b, c] + rest == [a] + ([b] + ([c] + rest));
    RunFirst(cfg, p, a, [b] + ([c] + rest));
    RunFirst(cfg, Step(cfg, p, a), b, [c] + rest);
    RunFirst(cfg, Step(cfg, Step(cfg, p, a), b), c, rest);
  }

  /** The session of A is admitted on the strength of B and outlives both. */
  lemma AdmittedThenOrphaned(cfg: Setup, p: Plane, args: CreateArgs, a: Token, b: Token, r: Request, now: nat)
    requires ValidSetup(cfg) && Inv(cfg, p) && Idle(p) && Draws(cfg, args, b) && a in p.authorized
    requires NewHash(cfg, p.mem, b.hash) && NewId(cfg, p.mem, b.id) && NewId(cfg, p.mem, a.id) && a.hash == b.hash
        && a.id != b.id
    requires |AllTokens(cfg, p.mem)| < MAX_TOKENS && |p.mem.deleted| < MAX_TOMBSTONES
    requires LegacyId(r.legacyId) && now > 0
    ensures var p1 := Step(cfg, p, DoCreate(args, true));
            var p2 := Step(cfg, p1, DoRegister(a, r, now, []));
            var q := Step(cfg, p2, DoDelete(b.id, true));
            && StoresNew(cfg, p, DoCreate(args, true)) && StoresNew(cfg, p1, DoRegister(a, r, now, []))
               && StoresNew(cfg, p2, DoDelete(b.id, true))
            && LiveIn(q.active, a.id, p.nextSession + 1) && p.nextSession + 1 !in q.collected
            && !TokenLive(cfg, q.mem, a.id) && Authorize(cfg, q.mem, a.hash).None?
  {
    hide Step, Inv, StoresNew, NewHash, NewId, AllTokens, Draws, LegacyId, LiveIn, TokenLive, NormalToken, ValidBase;
    var p1 := Step(cfg, p, DoCreate(args, true));
    Creates(cfg, p, args, b);
    RegistersFirst(cfg, p1, a, r, now);
    var p2 := Step(cfg, p1, DoRegister(a, r, now, []));
    NotStored(cfg, p.mem, b.hash);
    Deletes(cfg, p2, b);
    var q := Step(cfg, p2, DoDelete(b.id, true));
    DropAppended(p.mem.added, b);
    NoneVisible(cfg, p.mem, q.mem, a, b);
    StillLive(p2.active, q.active, a.id, p.nextSession + 1);
  }

  lemma NotStored(cfg: Setup, m: Durable, hash: string)
    requires NewHash(cfg, m, hash)
    ensures !HasHash(cfg.base, hash) && !HasHash(m.added, hash)
  {
    assert forall t :: t in cfg.base || t in m.added ==> t in cfg.base + m.added;
  }

  lemma StillLive(before: Active, after: Active, tokenId: string, sid: nat)
    requires LiveIn(before, tokenId, sid) && after == before
    ensures LiveIn(after, tokenId, sid)
  {
  }

  lemma NoneVisible(cfg: Setup, m: Durable, n: Durable, a: Token, b: Token)
    requires NewId(cfg, m, a.id) && n.added == m.added && a.hash == b.hash
    requires forall t :: t in AllTokens(cfg, n) ==> t.id != b.id && t.hash != b.hash
    ensures !TokenLive(cfg, n, a.id) && Authorize(cfg, n, a.hash).None?
  {
    forall t | t in AllTokens(cfg, n) ensures t.id != a.id {
      StillStored(cfg, n, t);
    }
  }

  lemma StillStored(cfg: Setup, m: Durable, t: Token)
    requires t in AllTokens(cfg, m)
    ensures t in cfg.base + m.added
  {
    VisibleSound(cfg.base + m.added, m.revoked, {});
  }

  /** The escape: token A is authorized and its dial begins; A is deleted; the owner creates
      token B with the same secret; the dial ends and its session is admitted because the hash
      is active again, but filed under the id of A; deleting B closes the sessions of B only.
      Every stored token was new when it was stored. */
  lemma SecretReuseEscapes(cfg: Setup, p: Plane, first: CreateArgs, second: CreateArgs, a: Token, b: Token, r: Request,
                           now: nat)
    requires ValidSetup(cfg) && Inv(cfg, p) && Idle(p)
    requires Draws(cfg, first, a) && Draws(cfg, second, b) && a.hash == b.hash && a.id != b.id
    requires NewHash(cfg, p.mem, a.hash) && NewId(cfg, p.mem, a.id) && NewId(cfg, p.mem, b.id)
    requires |AllTokens(cfg, p.mem)| < MAX_TOKENS && |p.mem.deleted| < MAX_TOMBSTONES - 1
    requires LegacyId(r.legacyId) && now > 0
    ensures var acts := [DoCreate(first, true), DoAuthorize(a.hash), DoDelete(a.id, true)]
                        + [DoCreate(second, true), DoRegister(a, r, now, []), DoDelete(b.id, true)];
            var q := Run(cfg, p, acts);
            && AllNew(cfg, p, acts)
            && LiveIn(q.active, a.id, p.nextSession + 1) && p.nextSession + 1 !in q.collected
            && !TokenLive(cfg, q.mem, a.id) && Authorize(cfg, q.mem, a.hash).None?
  {
    hide Step, Inv, ValidSetup, StoresNew, Draws, LegacyId, Authorize, TokenLive, LiveIn, Run, AllNew, AllTokens;
    AuthorizedThenDeleted(cfg, p, first, a);
    var q := Step(cfg, Step(cfg, Step(cfg, p, DoCreate(first, true)), DoAuthorize(a.hash)), DoDelete(a.id, true));
    SameTokens(cfg, p.mem, q.mem);
    AdmittedThenOrphaned(cfg, q, second, a, b, r, now);
    var rest := [DoCreate(second, true), DoRegister(a, r, now, []), DoDelete(b.id, true)];
    RunThree(cfg, p, DoCreate(first, true), DoAuthorize(a.hash), DoDelete(a.id, true), rest);
    RunThree(cfg, q, rest[0], rest[1], rest[2], []);
    assert rest == [rest[0], rest[1], rest[2]] + [];
    RunNone(cfg, Step(cfg, Step(cfg, Step(cfg, q, rest[0]), rest[1]), rest[2]));
  }

  lemma RunNone(cfg: Setup, p: Plane)
    ensures Run(cfg, p, []) == p && AllNew(cfg, p, [])
  {
  }
}
