/** Whole runs of the control plane, through failed writes, late timers, crashes and
    restarts. A crash is a restart at any moment; a crash in the middle of an atomic write
    is either the restart without the write or the restart after it. */
module ControlRuns {
  import opened Wrappers
  import opened Text
  import opened Config
  import opened ControlState
  import opened TokenLedger
  import opened Migration
  import opened StepFrames
  import opened ControlInvariant

  /** Along the run every stored token is new when it is stored. */
  predicate AllNew(cfg: Setup, p: Plane, acts: seq<Action>)
    decreases |acts|
  {
    acts == [] || (StoresNew(cfg, p, acts[0]) && AllNew(cfg, Step(cfg, p, acts[0]), acts[1..]))
  }

  lemma {:induction false} RunInv(cfg: Setup, p: Plane, acts: seq<Action>)
    requires ValidSetup(cfg) && Inv(cfg, p) && AllNew(cfg, p, acts)
    ensures Inv(cfg, Run(cfg, p, acts))
    decreases |acts|
  {
    hide Inv, StoresNew, Step, ValidSetup;
    if acts != [] {
      StepInv(cfg, p, acts[0]);
      RunInv(cfg, Step(cfg, p, acts[0]), acts[1..]);
    }
  }

  // --------------------------------------------------------------- restart

  /** A step leads to a state file that the next start accepts exactly when a token it
      stores is new: the program itself compares neither the hash nor the drawn id. */
  lemma RestartExact(cfg: Setup, p: Plane, a: Action, generated: string)
    requires ValidSetup(cfg) && Inv(cfg, p) && ValidInstanceId(generated)
    ensures Restartable(cfg, Step(cfg, p, a), generated) <==> StoresNew(cfg, p, a)
  {
    if StoresNew(cfg, p, a) {
      StepInv(cfg, p, a);
      InvRestarts(cfg, Step(cfg, p, a), generated);
    } else {
      StaleAddition(cfg, p, a, generated);
    }
  }

  lemma StaleAddition(cfg: Setup, p: Plane, a: Action, generated: string)
    requires ValidSetup(cfg) && Inv(cfg, p) && !StoresNew(cfg, p, a)
    ensures !Restartable(cfg, Step(cfg, p, a), generated)
  {
    hide NormalToken, ClientsGood, SessionsGood, AuthorizedGood, DiskGood, CreateToken, Loadable, MatchesConfig;
    CreatedIsNew(cfg, p, a.args);
    var token := CreateToken(cfg, p, a.args, true).1.value.token;
    AdditionExact(cfg, p.mem, token);
    var m := p.mem.(added := p.mem.added + [token]);
    assert Step(cfg, p, a).disk == Some(m);
    var ts := cfg.base + p.mem.added;
    assert cfg.base + m.added == ts + [token];
    DistinctAppend(ts, token);
    MatchesIsDistinct(cfg, m);
    assert m.(version := STATE_VERSION) == m;
  }

  /** Storing the hash of a stored token under a new id is accepted by the program and
      makes the next start fail. */
  lemma ReusedHashBlocksRestart(cfg: Setup, p: Plane, args: CreateArgs, generated: string)
    requires ValidSetup(cfg) && Inv(cfg, p) && ValidInstanceId(generated)
    requires MintedId(args.drawnId) && args.key == ""
    requires ValidClientSecret(cfg, Trim(args.secret)) && HasHash(cfg.base, cfg.tokenHash(Trim(args.secret)))
    requires |AllTokens(cfg, p.mem)| < MAX_TOKENS
    ensures Adds(cfg, p, DoCreate(args, true))
    ensures !Restartable(cfg, Step(cfg, p, DoCreate(args, true)), generated)
  {
    hide Inv, ValidSetup, AllTokens, ValidClientSecret, MintedId, ValidInstanceId, Restartable, Step;
    var a := DoCreate(args, true);
    assert CreateToken(cfg, p, args, true).1.Ok? && !CreateToken(cfg, p, args, true).1.value.replayed
      && CreateToken(cfg, p, args, true).1.value.token.hash == cfg.tokenHash(Trim(args.secret)) by {
      UnkeyedCreation(cfg, p, args);
    }
    hide CreateToken;
    var t :| t in cfg.base && t.hash == cfg.tokenHash(Trim(args.secret));
    assert t in cfg.base + p.mem.added;
    StaleAddition(cfg, p, a, generated);
  }

  lemma UnkeyedCreation(cfg: Setup, p: Plane, args: CreateArgs)
    requires args.key == "" && ValidClientSecret(cfg, Trim(args.secret)) && |AllTokens(cfg, p.mem)| < MAX_TOKENS
    ensures var r := CreateToken(cfg, p, args, true).1;
            r.Ok? && !r.value.replayed && r.value.token.hash == cfg.tokenHash(Trim(args.secret))
  {
    hide AllTokens, CleanName;
  }

  /** The restart theorem: from a fresh installation, through any mix of operations, failed
      writes, crashes and earlier restarts, the next start succeeds; it finds every token,
      revocation, tombstone and block that was in force, and the same identity. */
  lemma RestartAlwaysSucceeds(cfg: Setup, generated: string, acts: seq<Action>, generated2: string)
    requires ValidSetup(cfg) && ValidInstanceId(generated) && ValidInstanceId(generated2)
    requires AllNew(cfg, Initial(cfg, generated), acts)
    ensures var p := Run(cfg, Initial(cfg, generated), acts);
            && Restartable(cfg, p, generated2)
            && var q := Restart(cfg, p, generated2);
               && q.active == map[] && !q.shuttingDown
               && q.mem.added == p.mem.added && q.mem.revoked == p.mem.revoked && q.mem.deleted == p.mem.deleted
               && BlocksKept(p.mem.blocked, q.mem.blocked)
               && (p.disk.Some? ==> q.mem == p.disk.value && q.mem.instanceId == p.mem.instanceId)
  {
    InitialInv(cfg, generated);
    RunInv(cfg, Initial(cfg, generated), acts);
    InvRestarts(cfg, Run(cfg, Initial(cfg, generated), acts), generated2);
    if Run(cfg, Initial(cfg, generated), acts).disk.None? {
      NoDiskStarts(cfg, generated2);
    }
  }

  // ----------------------------------------------------------- owner mutations

  /** Owner mutations are all or nothing: a refusal, a limit or a failed write leaves the
      whole state as it was, and a success is on disk before it is reported. */
  lemma OwnerMutationsAtomic(cfg: Setup, p: Plane, args: CreateArgs, id: string, tokenId: string, deviceId: string,
                             block: bool, now: nat, ok: bool)
    ensures var (q, r) := CreateToken(cfg, p, args, ok);
            (r.Err? || r.value.replayed ==> q == p)
                && (r.Ok? && !r.value.replayed ==> q.disk == Some(q.mem) && !q.dirty)
    ensures var (q, r) := DeleteToken(cfg, p, id, ok);
            (r.Err? ==> q == p) && (r.Ok? ==> q.disk == Some(q.mem) && !q.dirty)
    ensures var (q, r) := SetBlocked(p, tokenId, deviceId, block, now, ok);
            (r.Err? ==> q == p) && (r.Ok? ==> q.disk == Some(q.mem) && !q.dirty)
    ensures !ok ==>
            CreateToken(cfg, p, args, ok).0 == p && DeleteToken(cfg, p, id, ok).0 == p
                && SetBlocked(p, tokenId, deviceId, block, now, ok).0 == p
  {
    hide CreateToken, DeleteToken, SetBlocked;
    CreateAtomic(cfg, p, args, ok);
    DeleteAtomic(cfg, p, id, ok);
    BlockAtomic(p, tokenId, deviceId, block, now, ok);
  }

  lemma CreateAtomic(cfg: Setup, p: Plane, args: CreateArgs, ok: bool)
    ensures var (q, r) := CreateToken(cfg, p, args, ok);
            (r.Err? || r.value.replayed || !ok ==> q == p)
                && (r.Ok? && !r.value.replayed ==> q.disk == Some(q.mem) && !q.dirty)
  {
    hide AllTokens, Requested, Stop;
  }

  lemma DeleteAtomic(cfg: Setup, p: Plane, id: string, ok: bool)
    ensures var (q, r) := DeleteToken(cfg, p, id, ok);
            (r.Err? || !ok ==> q == p) && (r.Ok? ==> q.disk == Some(q.mem) && !q.dirty)
  {
    hide AllTokens, Stop, SessionsOf, Deletion, HasHash, Trim;
  }

  lemma BlockAtomic(p: Plane, tokenId: string, deviceId: string, block: bool, now: nat, ok: bool)
    ensures var (q, r) := SetBlocked(p, tokenId, deviceId, block, now, ok);
            (r.Err? || !ok ==> q == p) && (r.Ok? ==> q.disk == Some(q.mem) && !q.dirty)
  {
    hide Stop, DeviceSessions, DeviceKey;
  }

  // ----------------------------------------------------------- write-behind

  /** Write-behind loses no update: once this process has written its state, clean memory is
      the state file, and dirty memory has a flush callback ahead of it until shutdown begins,
      however late the callbacks of stopped timers run. */
  lemma WriteBehindLosesNothing(cfg: Setup, generated: string, acts: seq<Action>)
    requires ValidSetup(cfg) && ValidInstanceId(generated) && AllNew(cfg, Initial(cfg, generated), acts)
    ensures var p := Run(cfg, Initial(cfg, generated), acts);
            && (p.synced && !p.dirty ==> p.disk == Some(p.mem))
            && (p.dirty && !p.shuttingDown ==> exists t :: t in p.timers.armed || t in p.timers.fired)
  {
    InitialInv(cfg, generated);
    var p := Run(cfg, Initial(cfg, generated), acts);
    RunInv(cfg, Initial(cfg, generated), acts);
    if p.dirty && !p.shuttingDown {
      var t :| t in p.timers.armed + p.timers.fired;
    }
  }

  /** Any pending callback whose write succeeds brings the file up to date, and a failed one
      leaves another ahead. */
  lemma FlushDelivers(cfg: Setup, p: Plane, t: nat, ok: bool)
    requires Inv(cfg, p) && t in p.timers.fired
    ensures var q := FlushCallback(p, t, ok);
            && q.mem == p.mem
            && (ok && (p.dirty || p.synced) ==> q.disk == Some(q.mem) && !q.dirty)
            && (!ok && p.dirty ==> q.disk == p.disk && q.dirty && q.timers.armed != {})
  {
    hide MemoryGood, SessionsGood, AuthorizedGood;
    SyncedIsFile(cfg, p);
  }

  /** The last write of shutdown leaves nothing behind: if it succeeds, a process that has ever
      written its state leaves a file that holds all of memory. */
  lemma ShutdownDelivers(cfg: Setup, p: Plane)
    requires Inv(cfg, p) && p.shuttingDown
    ensures var q := FinishShutdown(p, true);
            !q.dirty && q.mem == p.mem && (p.dirty || p.synced ==> q.disk == Some(q.mem))
  {
    hide MemoryGood, SessionsGood, AuthorizedGood, Stop;
    SyncedIsFile(cfg, p);
  }

  lemma SyncedIsFile(cfg: Setup, p: Plane)
    requires Inv(cfg, p)
    ensures p.synced && !p.dirty ==> p.disk == Some(p.mem)
  {
  }

  /** A process that has written its state once stays in that position until it ends. */
  lemma {:induction false} RunStaysSynced(cfg: Setup, p: Plane, acts: seq<Action>)
    requires p.synced && forall a :: a in acts ==> !a.DoRestart?
    ensures Run(cfg, p, acts).synced
    decreases |acts|
  {
    hide Step;
    if acts != [] {
      assert acts[0] in acts && forall a :: a in acts[1..] ==> a in acts;
      StepFrame(cfg, p, acts[0]);
      RunStaysSynced(cfg, Step(cfg, p, acts[0]), acts[1..]);
    }
  }

  /** Over whole runs: once a process, the first or one after a restart, has written its state,
      whatever happens in between, a shutdown whose write succeeds leaves a file that holds all of
      memory. */
  lemma ShutdownSaves(cfg: Setup, p: Plane, acts: seq<Action>)
    requires ValidSetup(cfg) && Inv(cfg, p) && p.synced && AllNew(cfg, p, acts)
        && forall a :: a in acts ==> !a.DoRestart?
    ensures var q := Run(cfg, p, acts);
            q.shuttingDown ==> FinishShutdown(q, true).disk == Some(q.mem)
  {
    hide ValidSetup, Inv;
    RunInv(cfg, p, acts);
    RunStaysSynced(cfg, p, acts);
    if Run(cfg, p, acts).shuttingDown {
      ShutdownDelivers(cfg, Run(cfg, p, acts));
    }
  }

  /** The first write of a process, of the file it found or of a new one, puts it there. */
  lemma PreparedIsSynced(cfg: Setup, p: Plane)
    requires ValidSetup(cfg) && Inv(cfg, p)
    ensures Inv(cfg, Step(cfg, p, DoPrepare(true))) && Step(cfg, p, DoPrepare(true)).synced
  {
    hide ValidSetup, Inv;
    StepInv(cfg, p, DoPrepare(true));
  }

  // ------------------------------------------------------------- permanence

  /** Revocations and tombstones are only ever appended to, by operations and restarts alike,
      and an id becomes a tombstone only by its own deletion. */
  lemma StepAppends(cfg: Setup, p: Plane, a: Action)
    requires ValidSetup(cfg) && Inv(cfg, p)
    ensures p.mem.revoked <= Step(cfg, p, a).mem.revoked && p.mem.deleted <= Step(cfg, p, a).mem.deleted
    ensures forall id :: id in Step(cfg, p, a).mem.deleted && id !in p.mem.deleted ==> a.DoDelete? && id == Trim(a.id)
  {
    hide Inv, ValidSetup, DeleteToken, Restart, Step, ValidInstanceId;
    match a
    case DoDelete(id, ok) =>
      StepDeletes(cfg, p, id, ok);
      DeleteAppends(cfg, p, id, ok);
    case DoRestart(generated) =>
      StepRestarts(cfg, p, generated);
      if ValidInstanceId(generated) {
        RestartAppends(cfg, p, generated);
      }
    case _ => StepFrame(cfg, p, a);
  }

  lemma DeleteAppends(cfg: Setup, p: Plane, id: string, ok: bool)
    ensures var q := DeleteToken(cfg, p, id, ok).0;
            && p.mem.revoked <= q.mem.revoked && p.mem.deleted <= q.mem.deleted
            && forall d :: d in q.mem.deleted && d !in p.mem.deleted ==> d == Trim(id)
  {
    hide AllTokens, SessionsOf, HasHash, Deletion;
    var r := DeleteToken(cfg, p, id, ok);
    if r.1.Ok? {
      DeletionAppends(cfg, p.mem, FindId(AllTokens(cfg, p.mem), Trim(id)).value);
    }
  }

  lemma DeletionAppends(cfg: Setup, m: Durable, found: Token)
    ensures var n := Deletion(cfg, m, found);
            && m.revoked <= n.revoked && m.deleted <= n.deleted
            && forall d :: d in n.deleted && d !in m.deleted ==> d == found.id
  {
    hide HasHash, DropHash;
  }

  lemma RestartAppends(cfg: Setup, p: Plane, generated: string)
    requires ValidSetup(cfg) && Inv(cfg, p) && ValidInstanceId(generated)
    ensures var q := Restart(cfg, p, generated);
            q.mem.added == p.mem.added && q.mem.revoked == p.mem.revoked && q.mem.deleted == p.mem.deleted
  {
    InvRestarts(cfg, p, generated);
    if p.disk.None? {
      NoDiskStarts(cfg, generated);
    }
  }

  lemma {:induction false} RunAppends(cfg: Setup, p: Plane, acts: seq<Action>)
    requires ValidSetup(cfg) && Inv(cfg, p) && AllNew(cfg, p, acts)
    ensures p.mem.revoked <= Run(cfg, p, acts).mem.revoked && p.mem.deleted <= Run(cfg, p, acts).mem.deleted
    ensures forall id :: id in Run(cfg, p, acts).mem.deleted && id !in p.mem.deleted ==>
              exists a :: a in acts && a.DoDelete? && Trim(a.id) == id
    decreases |acts|
  {
    hide Inv, StoresNew, Step, ValidSetup;
    if acts != [] {
      StepAppends(cfg, p, acts[0]);
      StepInv(cfg, p, acts[0]);
      RunAppends(cfg, Step(cfg, p, acts[0]), acts[1..]);
      assert forall a :: a in acts[1..] ==> a in acts;
    }
  }

  /** Deletion takes the token out of service at once, and tombstones what could come back:
      the hash of a configured token, the id of a minted one. */
  lemma DeletionRevokes(cfg: Setup, p: Plane, id: string)
    requires ValidSetup(cfg) && Inv(cfg, p) && DeleteToken(cfg, p, id, true).1.Ok?
    ensures var q := DeleteToken(cfg, p, id, true).0;
            && (forall t :: t in AllTokens(cfg, q.mem) ==> t.id != Trim(id))
            && ("tok_" <= Trim(id) ==> Trim(id) in q.mem.deleted)
            && exists found :: found in AllTokens(cfg, p.mem) && found.id == Trim(id)
                 && (HasHash(cfg.base, found.hash) ==> found.hash in q.mem.revoked)
                 && Authorize(cfg, q.mem, found.hash).None?
  {
    hide AllTokens, Deletion, PersistCritical, Trim, TokensGood, ClientsGood, SessionsGood, AuthorizedGood, DiskGood,
      TimersGood, ValidBase, HasHash;
    var found := FindId(AllTokens(cfg, p.mem), Trim(id)).value;
    PersistedMemory(p.(mem := Deletion(cfg, p.mem, found)));
    OnlyFoundHidden(cfg, p.mem, found);
    DeletionRecords(cfg, p.mem, found);
    assert found in AllTokens(cfg, p.mem) && found.id == Trim(id);
  }

  lemma PersistedMemory(p: Plane)
    ensures PersistCritical(p, true).mem == p.mem
  {
  }

  lemma DeletionRecords(cfg: Setup, m: Durable, found: Token)
    ensures var n := Deletion(cfg, m, found);
            && ("tok_" <= found.id ==> found.id in n.deleted)
            && (HasHash(cfg.base, found.hash) ==> found.hash in n.revoked)
  {
    hide DropHash, HasHash;
  }

  lemma OnlyFoundHidden(cfg: Setup, m: Durable, found: Token)
    requires ValidBase(cfg.base) && TokensGood(cfg, m.added, m.revoked, m.deleted) && found in AllTokens(cfg, m)
    requires HasHash(cfg.base, found.hash) && found.hash !in m.revoked ==> |m.revoked| < MAX_TOMBSTONES
    requires "tok_" <= found.id && found.id !in m.deleted ==> |m.deleted| < MAX_TOMBSTONES
    ensures forall t :: t in AllTokens(cfg, Deletion(cfg, m, found)) ==> t.id != found.id && t.hash != found.hash
  {
    forall t | t in AllTokens(cfg, Deletion(cfg, m, found)) ensures t.id != found.id && t.hash != found.hash {
      DeletionExact(cfg, m, found, t);
      AllTokensExact(cfg, m, t);
      AllTokensExact(cfg, m, found);
      if t.id == found.id || t.hash == found.hash {
        SameHashSameToken(cfg, m, t, found);
      }
    }
  }

  /** Revocation is permanent: a hash revoked at any time authorizes at no later time. */
  lemma RevocationPermanent(cfg: Setup, p: Plane, acts: seq<Action>, hash: string)
    requires ValidSetup(cfg) && Inv(cfg, p) && AllNew(cfg, p, acts) && hash in p.mem.revoked
    ensures var q := Run(cfg, p, acts); hash in q.mem.revoked && Authorize(cfg, q.mem, hash).None?
  {
    RunAppends(cfg, p, acts);
  }

  /** A deleted idempotency key never creates a token again. */
  lemma TombstonePermanent(cfg: Setup, p: Plane, acts: seq<Action>, args: CreateArgs, ok: bool)
    requires ValidSetup(cfg) && Inv(cfg, p) && AllNew(cfg, p, acts)
    requires var key := SanitizeIdentifier(args.key, 96); key != "" && cfg.requestId(key) in p.mem.deleted
    ensures var q := Run(cfg, p, acts);
            CreateToken(cfg, q, args, ok).0 == q && CreateToken(cfg, q, args, ok).1.Err?
  {
    RunAppends(cfg, p, acts);
  }

  // ------------------------------------------------------------ idempotence

  /** A visible token stays visible until its id is deleted. */
  lemma StepKeepsToken(cfg: Setup, p: Plane, a: Action, token: Token)
    requires ValidSetup(cfg) && Inv(cfg, p) && StoresNew(cfg, p, a)
    requires token in AllTokens(cfg, p.mem) && (a.DoDelete? ==> Trim(a.id) != token.id)
    ensures token in AllTokens(cfg, Step(cfg, p, a).mem)
  {
    hide Inv, ValidSetup, StoresNew, CreateToken, Register, DeleteToken, Restart, EvictionOrder, PersistCritical,
      SetBlocked, Disconnect, Unregister, Locate, TimerFires, FlushCallback, BeginShutdown, FinishShutdown, Authorize,
      Visible, Adds;
    if Enabled(p, a) {
      match a
      case DoCreate(args, ok) =>
        if Adds(cfg, p, a) { CreateKeepsToken(cfg, p, a, token); } else { CreateElsewise(cfg, p, args, ok); }
      case DoDelete(id, ok) => DeleteKeepsToken(cfg, p, id, ok, token);
      case DoRestart(generated) =>
        RestartAppends(cfg, p, generated);
      case _ => StepFrame(cfg, p, a);
    }
  }

  lemma CreateKeepsToken(cfg: Setup, p: Plane, a: Action, token: Token)
    requires ValidSetup(cfg) && Inv(cfg, p) && Adds(cfg, p, a) && StoresNew(cfg, p, a) && token in AllTokens(cfg, p.mem)
    ensures token in AllTokens(cfg, Step(cfg, p, a).mem)
  {
    hide NormalToken, TokensGood, ClientsGood, SessionsGood, AuthorizedGood, TimersGood, CreateToken;
    CreatedIsNew(cfg, p, a.args);
    CreateInv(cfg, p, a);
    AllTokensExact(cfg, p.mem, token);
    AllTokensExact(cfg, Step(cfg, p, a).mem, token);
  }

  lemma DeleteKeepsToken(cfg: Setup, p: Plane, id: string, ok: bool, token: Token)
    requires ValidSetup(cfg) && Inv(cfg, p) && token in AllTokens(cfg, p.mem) && Trim(id) != token.id
    ensures token in AllTokens(cfg, DeleteToken(cfg, p, id, ok).0.mem)
  {
    hide NormalToken, TokensGood, ClientsGood, SessionsGood, AuthorizedGood, TimersGood, DiskGood;
    var r := DeleteToken(cfg, p, id, ok);
    if r.1.Ok? {
      DeletionExact(cfg, p.mem, FindId(AllTokens(cfg, p.mem), Trim(id)).value, token);
    }
  }

  lemma {:induction false} RunKeepsToken(cfg: Setup, p: Plane, acts: seq<Action>, token: Token)
    requires ValidSetup(cfg) && Inv(cfg, p) && AllNew(cfg, p, acts) && token in AllTokens(cfg, p.mem)
    requires forall a :: a in acts && a.DoDelete? ==> Trim(a.id) != token.id
    ensures token in AllTokens(cfg, Run(cfg, p, acts).mem)
    decreases |acts|
  {
    hide Inv, StoresNew, Step, ValidSetup, AllTokens;
    if acts != [] {
      StepKeepsToken(cfg, p, acts[0], token);
      StepInv(cfg, p, acts[0]);
      RunKeepsToken(cfg, Step(cfg, p, acts[0]), acts[1..], token);
    }
  }

  /** What a keyed request finds when its token is visible. */
  lemma ReplayExact(cfg: Setup, p: Plane, args: CreateArgs, ok: bool, token: Token)
    requires ValidSetup(cfg) && Inv(cfg, p) && token in AllTokens(cfg, p.mem) && token.id !in p.mem.deleted
    requires Requested(cfg, args).Ok? && SanitizeIdentifier(args.key, 96) != ""
    requires var t := Requested(cfg, args).value.0; token.id == t.id && token.hash == t.hash && token.name == t.name
    ensures CreateToken(cfg, p, args, ok)
         == (p, if Tight(token.name) then Ok(Created(token, Requested(cfg, args).value.1, true)) else Err(OtherName))
  {
    hide NormalToken, TokensGood, ClientsGood, SessionsGood, AuthorizedGood, TimersGood, DiskGood;
    var existing := FindId(AllTokens(cfg, p.mem), token.id).value;
    AllTokensExact(cfg, p.mem, existing);
    AllTokensExact(cfg, p.mem, token);
    SameIdSameToken(cfg, p.mem, existing, token);
    CleanNameFixpoint(args.name);
  }

  lemma SameIdSameToken(cfg: Setup, m: Durable, t: Token, u: Token)
    requires TokensGood(cfg, m.added, m.revoked, m.deleted)
    requires t in cfg.base + m.added && u in cfg.base + m.added && t.id == u.id
    ensures t == u
  {
    SameHashSameToken(cfg, m, t, u);
  }

  lemma CleanNameFixpoint(name: string)
    ensures SanitizeDisplay(CleanName(name), 128) == CleanName(name) <==> Tight(CleanName(name))
  {
    hide SanitizeDisplay, Tight;
    SanitizeDisplayFixpoint(name, 128);
    DefaultNameClean();
  }

  lemma DefaultNameClean()
    ensures SanitizeDisplay(DEFAULT_NAME, 128) == DEFAULT_NAME && Tight(DEFAULT_NAME)
  {
    hide DropControls, Trim;
    TrimFixpoint(DEFAULT_NAME);
    DropControlsFixpoint(DEFAULT_NAME);
  }

  /** Creation is idempotent exactly for names whose cleaned form is free of white space at
      its ends: after a keyed creation, whatever happens short of deleting that token, the same
      request changes nothing and returns the same token; for other names it is refused. */
  lemma CreationIdempotent(cfg: Setup, p: Plane, args: CreateArgs, acts: seq<Action>, again: CreateArgs, ok: bool)
    requires ValidSetup(cfg) && Inv(cfg, p)
    requires Adds(cfg, p, DoCreate(args, true)) && SanitizeIdentifier(args.key, 96) != ""
    requires again.name == args.name && again.secret == args.secret && again.key == args.key
    requires var first := CreateToken(cfg, p, args, true);
             && AllNew(cfg, p, [DoCreate(args, true)] + acts)
             && forall a :: a in acts && a.DoDelete? ==> Trim(a.id) != first.1.value.token.id
    ensures var (q, first) := CreateToken(cfg, p, args, true);
            var later := Run(cfg, q, acts);
            CreateToken(cfg, later, again, ok)
              == (later, if Tight(CleanName(args.name)) then Ok(Created(first.value.token, first.value.secret, true))
                  else Err(OtherName))
  {
    hide Inv, ValidSetup, AllTokens, Requested, StoresNew, Step, Run, CreateToken, CleanName, Tight;
    var a := DoCreate(args, true);
    var (q, first) := CreateToken(cfg, p, args, true);
    FirstStep(cfg, p, args, acts);
    KeyedCreation(cfg, p, args);
    CreateInv(cfg, p, a);
    NewTokenVisible(cfg, q, first.value.token);
    RunKeepsToken(cfg, q, acts, first.value.token);
    RunInv(cfg, q, acts);
    KeptUndeleted(cfg, q, acts, first.value.token);
    SameRequest(cfg, args, again);
    ReplayExact(cfg, Run(cfg, q, acts), again, ok, first.value.token);
  }

  lemma FirstStep(cfg: Setup, p: Plane, args: CreateArgs, acts: seq<Action>)
    requires Adds(cfg, p, DoCreate(args, true)) && AllNew(cfg, p, [DoCreate(args, true)] + acts)
    ensures StoresNew(cfg, p, DoCreate(args, true)) && AllNew(cfg, CreateToken(cfg, p, args, true).0, acts)
    ensures Step(cfg, p, DoCreate(args, true)) == CreateToken(cfg, p, args, true).0
  {
    hide CreateToken, StoresNew;
    assert ([DoCreate(args, true)] + acts)[1..] == acts;
  }

  /** What a keyed creation stores. */
  lemma KeyedCreation(cfg: Setup, p: Plane, args: CreateArgs)
    requires ValidSetup(cfg) && Adds(cfg, p, DoCreate(args, true)) && SanitizeIdentifier(args.key, 96) != ""
    ensures var (q, first) := CreateToken(cfg, p, args, true);
            && first.Ok? && q.mem.added == p.mem.added + [first.value.token]
            && first.value.token.id !in q.mem.deleted
            && Requested(cfg, args).Ok? && first.value.token == Requested(cfg, args).value.0
            && first.value.secret == Requested(cfg, args).value.1 && first.value.token.name == CleanName(args.name)
  {
    hide AllTokens, CleanName, NormalToken, Stop;
    CreatedIsNew(cfg, p, args);
  }

  lemma KeptUndeleted(cfg: Setup, q: Plane, acts: seq<Action>, token: Token)
    requires ValidSetup(cfg) && Inv(cfg, q) && AllNew(cfg, q, acts) && token.id !in q.mem.deleted
    requires forall a :: a in acts && a.DoDelete? ==> Trim(a.id) != token.id
    ensures token.id !in Run(cfg, q, acts).mem.deleted
  {
    hide Inv, ValidSetup, Run;
    RunAppends(cfg, q, acts);
  }

  lemma SameRequest(cfg: Setup, args: CreateArgs, again: CreateArgs)
    requires again.name == args.name && again.secret == args.secret && again.key == args.key
    requires SanitizeIdentifier(args.key, 96) != "" && Requested(cfg, args).Ok?
    ensures var (s, t) := (Requested(cfg, args), Requested(cfg, again));
            && t.Ok? && t.value.0.id == s.value.0.id && t.value.0.hash == s.value.0.hash
            && t.value.0.name == s.value.0.name && t.value.1 == s.value.1
  {
    hide CleanName, Trim, ValidClientSecret;
  }

  lemma NewTokenVisible(cfg: Setup, q: Plane, token: Token)
    requires ValidSetup(cfg) && Inv(cfg, q) && token in q.mem.added
    ensures token in AllTokens(cfg, q.mem)
  {
    AllTokensExact(cfg, q.mem, token);
    AddedNotRevoked(cfg, q.mem.added, q.mem.revoked, q.mem.deleted, token);
  }
}
