/** Which record a session stamps when it ends: its own, unless a migration has filed the session
    under another key than the one its closing function captured. */
module SessionLabels {
  import opened Text
  import opened Config
  import opened ControlState
  import opened TokenLedger
  import opened Migration
  import opened Pruning
  import opened StepFrames
  import opened ControlInvariant
  import opened ControlRuns
  import opened ControlSessions
  import opened SecretReuse
  import opened BlockLoss

  // ------------------------------------------------------------------ one step

  /** The key under which a registration files its session. */
  function KeyFor(token: Token, r: Request): string {
    ClientKey(token.id, IdentityOf(token.id, r).deviceId)
  }

  /** The keys whose records, and with them their sessions, a registration merges into its own. */
  function Absorbed(p: Plane, token: Token, r: Request, order: seq<string>): set<string> {
    var m := Prune(p.mem, order);
    Merged(m.clients, OldKeys(m, IdentityOf(token.id, r), r), KeyFor(token, r))
  }

  /** The step files the sessions with this key under another one. */
  predicate Relabels(cfg: Setup, p: Plane, a: Action, key: string) {
    a.DoRegister? && Enabled(p, a) && Admits(cfg, p, a.token, a.request)
    && key in Absorbed(p, a.token, a.request, a.order)
  }

  /** The session is filed under the key that its closing function captured. */
  predicate OwnLabel(p: Plane, t: string, sid: nat) {
    LiveIn(p.active, t, sid) && sid in p.closures && p.active[t][sid].clientKey == p.closures[sid].clientKey
  }

  /** An admitted registration begins a session with its own label, and gives another session
      the new key exactly when its record is absorbed; no captured key changes. */
  lemma RegistrationLabels(cfg: Setup, p: Plane, a: Action, t: string, sid: nat)
    requires Inv(cfg, p) && a.DoRegister? && Enabled(p, a) && Admits(cfg, p, a.token, a.request)
        && LiveIn(p.active, t, sid)
    ensures var q := Step(cfg, p, a);
            var key := p.active[t][sid].clientKey;
            && LiveIn(q.active, t, sid) && sid in q.closures && q.closures[sid] == p.closures[sid]
            && q.active[t][sid].clientKey == if Relabels(cfg, p, a, key) then KeyFor(a.token, a.request) else key
    ensures OwnLabel(Step(cfg, p, a), a.token.id, p.nextSession + 1)
  {
    hide Inv, Admits, EvictionOrder, LegacyId, ActiveKeys, Register, Absorbed, KeyFor, Step;
    StepRegisters(cfg, p, a.token, a.request, a.now, a.order);
    RegisteredLabels(cfg, p, a.token, a.request, a.now, a.order, t, sid);
  }

  lemma RegisteredLabels(cfg: Setup, p: Plane, token: Token, r: Request, now: nat, order: seq<string>, t: string,
                         sid: nat)
    requires Inv(cfg, p) && Enabled(p, DoRegister(token, r, now, order)) && Admits(cfg, p, token, r)
        && LiveIn(p.active, t, sid)
    ensures var q := Register(cfg, p, token, r, now, order).0;
            Labelled(p, q, Absorbed(p, token, r, order), KeyFor(token, r), t, sid)
                && OwnLabel(q, token.id, p.nextSession + 1)
  {
    hide IdentityOf, LegacyId, EvictionOrder, ActiveKeys, Admits, Registered, Schedule, Absorbed, Labelled, OwnLabel,
      KeyFor, Inv;
    var q := Registered(p, IdentityOf(token.id, r), r, now, order);
    LinkedLabels(cfg, p, token, r, now, order, t, sid);
    OwnScheduled(q, token.id, p.nextSession + 1);
    assert Labelled(p, Schedule(q), Absorbed(p, token, r, order), KeyFor(token, r), t, sid) by {
      ScheduledPlane(q);
      LabelledSame(p, q, Schedule(q), Absorbed(p, token, r, order), KeyFor(token, r), t, sid);
    }
  }

  /** The session still lives with the key it captured, filed under the new key if its own was
      absorbed and under its own otherwise. */
  predicate Labelled(p: Plane, q: Plane, moved: set<string>, newKey: string, t: string, sid: nat) {
    && LiveIn(p.active, t, sid) && sid in p.closures
    && LiveIn(q.active, t, sid) && sid in q.closures && q.closures[sid] == p.closures[sid]
    && var key := p.active[t][sid].clientKey;
       q.active[t][sid].clientKey == if key in moved then newKey else key
  }

  lemma LabelledSame(p: Plane, q: Plane, r: Plane, moved: set<string>, newKey: string, t: string, sid: nat)
    requires Labelled(p, q, moved, newKey, t, sid) && r.active == q.active && r.closures == q.closures
    ensures Labelled(p, r, moved, newKey, t, sid)
  {
  }

  lemma LinkedLabels(cfg: Setup, p: Plane, token: Token, r: Request, now: nat, order: seq<string>, t: string, sid: nat)
    requires Inv(cfg, p) && Enabled(p, DoRegister(token, r, now, order)) && Admits(cfg, p, token, r)
        && LiveIn(p.active, t, sid)
    ensures var q := Registered(p, IdentityOf(token.id, r), r, now, order);
            Labelled(p, q, Absorbed(p, token, r, order), KeyFor(token, r), t, sid)
                && OwnLabel(q, token.id, p.nextSession + 1)
  {
    hide TokenActive, IdentityOf, LegacyId, EvictionOrder, ActiveKeys, BlockedIdentity, Migrate, Prune, IsIdentifier,
      ClientsGood, MovedSome, Registered, Absorbed, BlocksKept, SessionsMoved, Link, LiveIn, OwnLabel, KeyFor;
    ClosureOf(cfg, p, t, sid);
    AuthorizedId(p, token);
    hide Inv;
    var q := Registered(p, IdentityOf(token.id, r), r, now, order);
    var migrated := Migrate(p.(mem := Prune(p.mem, order)), IdentityOf(token.id, r), r);
    RegisteredFrame(cfg, p, token, r, now, order);
    MigrationLabels(p, token, r, order);
    KeyUnfolds(token, r);
    LinkLabels(p.active, migrated.active, Absorbed(p, token, r, order), KeyFor(token, r), token.id, p.nextSession + 1,
               t, sid);
    LinkOwn(q, migrated.active, token.id, p.nextSession + 1, KeyFor(token, r));
  }

  lemma KeyUnfolds(token: Token, r: Request)
    ensures KeyFor(token, r) == ClientKey(token.id, IdentityOf(token.id, r).deviceId)
  {
  }

  /** Relabelling, then linking a new session. */
  lemma LinkLabels(before: Active, migrated: Active, moved: set<string>, key: string, tokenId: string, next: nat,
                   t: string, sid: nat)
    requires SessionsMoved(before, migrated, moved, key) && LiveIn(before, t, sid) && sid != next
    ensures var after := Link(migrated, tokenId, next, key);
            LiveIn(after, t, sid)
            && after[t][sid].clientKey == if before[t][sid].clientKey in moved then key else before[t][sid].clientKey
  {
  }

  lemma LinkOwn(q: Plane, migrated: Active, tokenId: string, next: nat, key: string)
    requires q.active == Link(migrated, tokenId, next, key) && next in q.closures && q.closures[next].clientKey == key
    ensures OwnLabel(q, tokenId, next)
  {
  }

  lemma OwnScheduled(q: Plane, t: string, sid: nat)
    requires OwnLabel(q, t, sid)
    ensures OwnLabel(Schedule(q), t, sid)
  {
    hide Schedule;
    ScheduledPlane(q);
  }

  lemma ScheduledPlane(p: Plane)
    ensures Schedule(p).mem == p.mem && Schedule(p).active == p.active && Schedule(p).closures == p.closures
    ensures Schedule(p).nextSession == p.nextSession && Schedule(p).shuttingDown == p.shuttingDown
    ensures Schedule(p).authorized == p.authorized
  {
    hide Arm;
  }

  lemma MigrationLabels(p: Plane, token: Token, r: Request, order: seq<string>)
    requires ClientsGood(p.mem.clients, p.mem.blocked) && IsIdentifier(token.id, 96) && LegacyId(r.legacyId)
    requires EvictionOrder(order, p.mem.clients, ActiveKeys(p.active))
        && !BlockedIdentity(p.mem, IdentityOf(token.id, r))
    ensures var q := Migrate(p.(mem := Prune(p.mem, order)), IdentityOf(token.id, r), r);
            SessionsMoved(p.active, q.active, Absorbed(p, token, r, order), KeyFor(token, r))
  {
    hide EvictionOrder, Prune, Migrate, LegacyId, IsIdentifier, BlockedIdentity, SessionsMoved, RecordsMoved,
      CarriesStamps, ClientsGood, ActiveKeys, Merged, OldKeys, ClientKey, AllSessions, Elements, IdentityOf;
    var pruned := p.(mem := Prune(p.mem, order));
    PruneKeepsGood(p.mem, ActiveKeys(p.active), order);
    UnblockedAfterPrune(p.mem, pruned.mem, IdentityOf(token.id, r));
    IdentityShape(token.id, r);
    MigrationConserves(pruned, token.id, r);
  }

  /** Over any step that a session survives, its captured key stays, and the key it is filed under
      changes exactly when the step relabels it. */
  lemma StepLabels(cfg: Setup, p: Plane, a: Action, t: string, sid: nat)
    requires ValidSetup(cfg) && Inv(cfg, p) && LiveIn(p.active, t, sid) && LiveIn(Step(cfg, p, a).active, t, sid)
    ensures var q := Step(cfg, p, a);
            var key := p.active[t][sid].clientKey;
            && sid in p.closures && sid in q.closures && q.closures[sid] == p.closures[sid]
            && q.active[t][sid].clientKey == if Relabels(cfg, p, a, key) then KeyFor(a.token, a.request) else key
  {
    ClosureOf(cfg, p, t, sid);
    hide Inv, ValidSetup, Admits, Register, Unregister, EvictionOrder, Absorbed, KeyFor, ValidInstanceId, Restart,
      ActiveKeys, LegacyId;
    if a.DoRestart? {
      hide Step;
      StepRestarts(cfg, p, a.generated);
      if ValidInstanceId(a.generated) {
        InvRestarts(cfg, p, a.generated);
      }
    } else if a.DoRegister? && Enabled(p, a) {
      if Admits(cfg, p, a.token, a.request) {
        hide Step;
        RegistrationLabels(cfg, p, a, t, sid);
      } else {
        RefusedRegistration(cfg, p, a);
      }
    } else if a.DoUnregister? {
      OthersStay(p, a.sid, a.now, t, sid);
    } else {
      hide Step;
      StepFrame(cfg, p, a);
    }
  }

  lemma RefusedRegistration(cfg: Setup, p: Plane, a: Action)
    requires a.DoRegister? && !Admits(cfg, p, a.token, a.request)
    ensures Step(cfg, p, a) == p
  {
    hide Admits, EvictionOrder, ActiveKeys, LegacyId;
  }

  lemma ClosureOf(cfg: Setup, p: Plane, t: string, sid: nat)
    requires Inv(cfg, p) && LiveIn(p.active, t, sid)
    ensures sid in p.closures && p.closures[sid].tokenId == t && sid <= p.nextSession
  {
    hide TokensGood, ClientsGood, AuthorizedGood, TimersGood, DiskGood;
  }

  /** The end of one session leaves the others as they are. */
  lemma OthersStay(p: Plane, s: nat, now: nat, t: string, sid: nat)
    requires LiveIn(p.active, t, sid) && sid in p.closures && p.closures[sid].tokenId == t && s != sid
    ensures var q := Unregister(p, s, now);
            && LiveIn(q.active, t, sid) && q.active[t][sid] == p.active[t][sid]
            && sid in q.closures && q.closures[sid] == p.closures[sid]
  {
    hide Touch, Schedule;
    if s in p.closures {
      var c := p.closures[s];
      ScheduledPlane(p.(active := Unlink(p.active, c.tokenId, s), mem := Touch(p.mem, c.clientKey, now),
                        closures := p.closures - {s}));
      UnlinkLives(p.active, c.tokenId, s);
      UnlinkedSame(p.active, c.tokenId, s);
      hide Unlink;
    }
  }

  // ---------------------------------------------------------------------- runs

  /** The session lives all along the run, and no step relabels it. */
  predicate KeepsLabel(cfg: Setup, p: Plane, acts: seq<Action>, t: string, sid: nat)
    decreases |acts|
  {
    && LiveIn(p.active, t, sid)
    && (acts == [] || (!Relabels(cfg, p, acts[0], p.active[t][sid].clientKey)
                       && KeepsLabel(cfg, Step(cfg, p, acts[0]), acts[1..], t, sid)))
  }

  /** A session that begins with its own label and is never relabelled stamps, when it ends, the
      record it is filed under and no other. */
  lemma {:induction false} UnrelabelledStampsOwn(cfg: Setup, p: Plane, acts: seq<Action>, t: string, sid: nat, now: nat)
    requires ValidSetup(cfg) && Inv(cfg, p) && AllNew(cfg, p, acts) && OwnLabel(p, t, sid)
        && KeepsLabel(cfg, p, acts, t, sid)
    ensures var q := Run(cfg, p, acts);
            && OwnLabel(q, t, sid)
            && var after, key := Unregister(q, sid, now).mem.clients, q.active[t][sid].clientKey;
               && after.Keys == q.mem.clients.Keys
               && forall k :: k in after ==>
                    after[k] == if k == key then q.mem.clients[k].(lastSeen := now) else q.mem.clients[k]
    decreases |acts|
  {
    hide Inv, Step, ValidSetup, StoresNew, Unregister, Relabels, LiveIn;
    if acts == [] {
      ClosureOf(cfg, p, t, sid);
      UnregisterStamps(p, sid, now);
    } else {
      var q := Step(cfg, p, acts[0]);
      StepInv(cfg, p, acts[0]);
      StepLabels(cfg, p, acts[0], t, sid);
      UnrelabelledStampsOwn(cfg, q, acts[1..], t, sid, now);
    }
  }

  // ------------------------------------------------------------- a stamp that is lost

  /** The second request comes from the same device under its new id and names the old one. */
  predicate Upgrades(token: Token, first: Request, second: Request) {
    IdentityOf(token.id, second).previousId != ""
        && IdentityOf(token.id, second).previousId == IdentityOf(token.id, first).deviceId
  }

  const OLD_REQUEST := Device(0).(rawDevice := "dev_1")
  const NEW_REQUEST := Device(0).(rawDevice := "dev2_1", rawPrevious := "dev_1")

  lemma UpgradeExists(token: Token)
    ensures Upgrades(token, OLD_REQUEST, NEW_REQUEST) && LegacyId(OLD_REQUEST.legacyId)
        && LegacyId(NEW_REQUEST.legacyId)
  {
    IdentifierIsTrimmed("dev_1", 96);
    IdentifierIsTrimmed("dev2_1", 96);
    EmptyIsNone();
    DeviceIdentity(token, 0);
  }

  lemma UpgradedKeysDiffer(token: Token, first: Request, second: Request)
    requires Upgrades(token, first, second)
    ensures KeyFor(token, first) != KeyFor(token, second)
    ensures KeyFor(token, first) == ClientKey(token.id, IdentityOf(token.id, second).previousId)
  {
    hide SanitizeIdentifier;
    var n := |token.id| + 1;
    assert KeyFor(token, first)[n..] == IdentityOf(token.id, first).deviceId;
    assert KeyFor(token, second)[n..] == IdentityOf(token.id, second).deviceId;
  }

  /** A registration records a client under its key. */
  lemma RegisteredRecord(p: Plane, i: Identity, r: Request, now: nat, order: seq<string>)
    ensures ClientKey(i.tokenId, i.deviceId) in Registered(p, i, r, now, order).mem.clients
  {
    hide Migrate, Prune, Link, ClientKey, ApplyHeaders, Located;
  }

  /** Registrations change none of these; `now` and `order` are the registration's. */
  lemma RegisterKeeps(cfg: Setup, p: Plane, token: Token, r: Request, now: nat, order: seq<string>)
    requires ValidSetup(cfg) && Inv(cfg, p) && Enabled(p, DoRegister(token, r, now, order)) && Admits(cfg, p, token, r)
    ensures var a := DoRegister(token, r, now, order);
            var q := Step(cfg, p, a);
            && StoresNew(cfg, p, a) && Inv(cfg, q) && KeyFor(token, r) in q.mem.clients
            && q.authorized == p.authorized && q.shuttingDown == p.shuttingDown && q.nextSession == p.nextSession + 1
            && OwnLabel(q, token.id, p.nextSession + 1)
               && q.active[token.id][p.nextSession + 1].clientKey == KeyFor(token, r)
  {
    hide TokenActive, IdentityOf, LegacyId, EvictionOrder, ActiveKeys, BlockedIdentity, Migrate, Prune, IsIdentifier,
      ValidSetup, ClientsGood, MovedSome, Registered, Schedule, BlocksKept, LiveIn, Step, KeyFor, AuthorizedGood;
    var a, i := DoRegister(token, r, now, order), IdentityOf(token.id, r);
    StepRegisters(cfg, p, token, r, now, order);
    AuthorizedId(p, token);
    IdentityIsTokens(token.id, r);
    StepInv(cfg, p, a);
    RegisteredFrame(cfg, p, token, r, now, order);
    KeyUnfolds(token, r);
    RegisteredRecord(p, i, r, now, order);
    hide Inv;
    var q := Registered(p, i, r, now, order);
    ScheduledPlane(q);
    LinkOwn(q, Migrate(p.(mem := Prune(p.mem, order)), i, r).active, token.id, p.nextSession + 1, KeyFor(token, r));
    OwnScheduled(q, token.id, p.nextSession + 1);
  }

  lemma IdentityIsTokens(tokenId: string, r: Request)
    ensures IdentityOf(tokenId, r).tokenId == tokenId
  {
    hide SanitizeIdentifier;
  }

  /** Nothing is blocked and the token is in force. */
  ghost predicate Open(cfg: Setup, p: Plane, token: Token) {
    && Inv(cfg, p) && token in p.authorized && token in AllTokens(cfg, p.mem) && !p.shuttingDown
       && p.mem.blocked == map[]
  }

  lemma OpenAdmits(cfg: Setup, p: Plane, token: Token, r: Request)
    requires ValidSetup(cfg) && Open(cfg, p, token)
    ensures Admits(cfg, p, token, r)
  {
    hide AllTokens, IdentityOf, ClientsGood, SessionsGood, AuthorizedGood, TimersGood, DiskGood, NormalToken;
    AuthorizesIt(cfg, p.mem, token);
    AllTokensExact(cfg, p.mem, token);
    FoundIsIdentifier(cfg, p.mem, token);
    NotBlocked(p.mem, IdentityOf(token.id, r));
  }

  /** A registration into an unblocked directory leaves it unblocked and the token in force. */
  lemma StaysOpen(cfg: Setup, p: Plane, token: Token, r: Request, now: nat, order: seq<string>)
    requires ValidSetup(cfg) && Open(cfg, p, token) && Enabled(p, DoRegister(token, r, now, order))
    ensures Open(cfg, Step(cfg, p, DoRegister(token, r, now, order)), token)
  {
    hide IdentityOf, LegacyId, EvictionOrder, ActiveKeys, Registered, AllTokens, ValidSetup, Step, Inv, Register,
      Admits;
    var a := DoRegister(token, r, now, order);
    OpenAdmits(cfg, p, token, r);
    RegisterKeeps(cfg, p, token, r, now, order);
    StepFrame(cfg, p, a);
    SameTokenLists(cfg, p.mem, Step(cfg, p, a).mem);
    NoNewBlocks(cfg, p, token, r, now, order);
  }

  lemma NoNewBlocks(cfg: Setup, p: Plane, token: Token, r: Request, now: nat, order: seq<string>)
    requires Inv(cfg, p) && Enabled(p, DoRegister(token, r, now, order)) && Admits(cfg, p, token, r)
        && p.mem.blocked == map[]
    ensures Step(cfg, p, DoRegister(token, r, now, order)).mem.blocked == map[]
  {
    hide TokenActive, IdentityOf, LegacyId, EvictionOrder, ActiveKeys, BlockedIdentity, Migrate, Prune, IsIdentifier,
      ClientsGood, MovedSome, Registered, Schedule, Link, Step, AuthorizedGood;
    StepRegisters(cfg, p, token, r, now, order);
    AuthorizedId(p, token);
    RegisteredFrame(cfg, p, token, r, now, order);
    ScheduledPlane(Registered(p, IdentityOf(token.id, r), r, now, order));
  }

  lemma OnlyRecord(p: Plane, i: Identity, r: Request, now: nat)
    requires p.mem.clients == map[]
    ensures Registered(p, i, r, now, []).mem.clients.Keys == {ClientKey(i.tokenId, i.deviceId)}
  {
    hide ClientKey, OldKeys, Link, ApplyHeaders, Located;
    var q := p.(mem := Prune(p.mem, []));
    EmptyMerges(q, OldKeys(q.mem, i, r), i);
  }

  /** The first session of a new installation. */
  lemma FirstSession(cfg: Setup, p: Plane, token: Token, first: Request, now: nat)
    requires ValidSetup(cfg) && Open(cfg, p, token) && p.mem.clients == map[] && LegacyId(first.legacyId) && now > 0
    ensures var a := DoRegister(token, first, now, []);
            var q := Step(cfg, p, a);
            && StoresNew(cfg, p, a) && Open(cfg, q, token) && q.mem.clients.Keys == {KeyFor(token, first)}
            && q.nextSession == p.nextSession + 1
               && Filed(q, token.id, p.nextSession + 1, KeyFor(token, first), KeyFor(token, first))
  {
    hide Open, ValidSetup, Inv, IdentityOf, Registered, Step, Schedule, KeyFor, EvictionOrder, ActiveKeys, Admits,
      StoresNew, LegacyId;
    EmptyOrder(p);
    OpenInv(cfg, p, token);
    OpenAdmits(cfg, p, token, first);
    StaysOpen(cfg, p, token, first, now, []);
    RegisterKeeps(cfg, p, token, first, now, []);
    StepRegisters(cfg, p, token, first, now, []);
    KeyUnfolds(token, first);
    IdentityIsTokens(token.id, first);
    OnlyRecord(p, IdentityOf(token.id, first), first, now);
    ScheduledPlane(Registered(p, IdentityOf(token.id, first), first, now, []));
    var q := Step(cfg, p, DoRegister(token, first, now, []));
    OpenInv(cfg, q, token);
    ClosureOf(cfg, q, token.id, p.nextSession + 1);
  }

  lemma OpenInv(cfg: Setup, p: Plane, token: Token)
    requires Open(cfg, p, token)
    ensures Inv(cfg, p) && token in p.authorized
  {
    hide Inv;
  }

  /** The session is filed under one key and its closing function captured another, or the same. */
  predicate Filed(p: Plane, t: string, sid: nat, key: string, captured: string) {
    LiveIn(p.active, t, sid) && p.active[t][sid].clientKey == key && sid in p.closures
        && p.closures[sid] == Closure(t, captured)
  }

  lemma LoneOrder(key: string, clients: map<string, Client>, live: set<string>)
    requires clients.Keys == {key}
    ensures EvictionOrder([key], clients, live) && |clients| == 1
  {
    assert |clients.Keys| == 1;
  }

  /** The old record is the only one, so nothing is pruned and it is absorbed. */
  lemma OldIsAbsorbed(p: Plane, token: Token, first: Request, second: Request)
    requires Upgrades(token, first, second) && p.mem.clients.Keys == {KeyFor(token, first)}
    ensures KeyFor(token, first) in Absorbed(p, token, second, [KeyFor(token, first)])
  {
    hide KeyFor, IdentityOf, LegacyMatches;
    var key := KeyFor(token, first);
    UpgradedKeysDiffer(token, first, second);
    LoneOrder(key, p.mem.clients, {});
    assert Elements([key][..0]) == {};
    assert p.mem.clients - {} == p.mem.clients;
    IdentityIsTokens(token.id, second);
    assert OldKeys(Prune(p.mem, [key]), IdentityOf(token.id, second), second)[0] == key;
  }

  /** The device comes again under its new id while its first session lives. */
  lemma SecondSession(cfg: Setup, p: Plane, token: Token, first: Request, second: Request, now: nat, sid: nat)
    requires ValidSetup(cfg) && Open(cfg, p, token) && Upgrades(token, first, second) && LegacyId(second.legacyId)
        && now > 0
    requires p.mem.clients.Keys == {KeyFor(token, first)}
        && Filed(p, token.id, sid, KeyFor(token, first), KeyFor(token, first))
    ensures var a := DoRegister(token, second, now, [KeyFor(token, first)]);
            var q := Step(cfg, p, a);
            && StoresNew(cfg, p, a) && Open(cfg, q, token) && KeyFor(token, second) in q.mem.clients
            && Filed(q, token.id, sid, KeyFor(token, second), KeyFor(token, first))
            && Filed(q, token.id, p.nextSession + 1, KeyFor(token, second), KeyFor(token, second))
               && sid <= p.nextSession
  {
    hide Open, ValidSetup, Inv, IdentityOf, Step, KeyFor, EvictionOrder, ActiveKeys, Admits, StoresNew, LegacyId,
      Absorbed, Upgrades;
    var order := [KeyFor(token, first)];
    var a := DoRegister(token, second, now, order);
    LoneOrder(KeyFor(token, first), p.mem.clients, ActiveKeys(p.active));
    OpenInv(cfg, p, token);
    OpenAdmits(cfg, p, token, second);
    StaysOpen(cfg, p, token, second, now, order);
    RegisterKeeps(cfg, p, token, second, now, order);
    OldIsAbsorbed(p, token, first, second);
    RegistrationLabels(cfg, p, a, token.id, sid);
    ClosureOf(cfg, p, token.id, sid);
    OpenInv(cfg, Step(cfg, p, a), token);
    ClosureOf(cfg, Step(cfg, p, a), token.id, p.nextSession + 1);
  }

  /** The second session ends and stamps the record, then the first one ends and does not. */
  lemma BothEnd(cfg: Setup, p: Plane, t: string, one: nat, two: nat, newKey: string, oldKey: string, now: nat,
                later: nat)
    requires Filed(p, t, one, newKey, oldKey) && Filed(p, t, two, newKey, newKey) && one != two && oldKey != newKey
        && newKey in p.mem.clients
    ensures var q := Unregister(p, two, now);
            var r := Unregister(q, one, later);
            && Filed(q, t, one, newKey, oldKey) && newKey in q.mem.clients && q.mem.clients[newKey].lastSeen == now
            && !LiveIn(r.active, t, one) && !LiveIn(r.active, t, two)
            && newKey in r.mem.clients && r.mem.clients[newKey].lastSeen == now
  {
    UnregisterStamps(p, two, now);
    OthersStay(p, two, now, t, one);
    var q := Unregister(p, two, now);
    UnregisterStamps(q, one, later);
    UnregisterSessions(q, one, later);
    hide Unregister;
  }

  lemma BeginsOpen(cfg: Setup, generated: string, token: Token)
    requires ValidSetup(cfg) && ValidInstanceId(generated) && token in cfg.base
    ensures var a := DoAuthorize(token.hash);
            var q := Step(cfg, Initial(cfg, generated), a);
            StoresNew(cfg, Initial(cfg, generated), a) && Open(cfg, q, token) && q.mem.clients == map[]
                && q.nextSession == 0
  {
    hide Inv, ValidSetup, AllTokens, KeyOf, ClientKey, ValidInstanceId;
    Begin(cfg, generated, token);
    StepFrame(cfg, Initial(cfg, generated), DoAuthorize(token.hash));
  }

  /** A session that was relabelled ends without a trace. From a fresh installation: a device
      connects, comes again under its new id and names the old one, its second session ends, and
      only then the first. The first session is filed under the new key, but its closing function
      stamps the old one, under which there is no record any more; the record of the device keeps
      the time at which the second session ended, however much later the first one does. */
  lemma RelabelledStampsNothing(cfg: Setup, generated: string, token: Token, first: Request, second: Request,
                                t1: nat, t2: nat, t3: nat, t4: nat)
    requires ValidSetup(cfg) && ValidInstanceId(generated) && token in cfg.base && t1 > 0 && t2 > 0
    requires Upgrades(token, first, second) && LegacyId(first.legacyId) && LegacyId(second.legacyId)
    ensures var p0 := Initial(cfg, generated);
            var oldKey, newKey := KeyFor(token, first), KeyFor(token, second);
            var acts := [DoAuthorize(token.hash), DoRegister(token, first, t1, []),
                         DoRegister(token, second, t2, [oldKey])]
                        + [DoUnregister(2, t3)];
            var p := Run(cfg, p0, acts);
            var q := Run(cfg, p0, acts + [DoUnregister(1, t4)]);
            && AllNew(cfg, p0, acts + [DoUnregister(1, t4)])
            && oldKey != newKey && Filed(p, token.id, 1, newKey, oldKey)
            && newKey in p.mem.clients && p.mem.clients[newKey].lastSeen == t3
            && !LiveIn(q.active, token.id, 1) && !LiveIn(q.active, token.id, 2)
            && newKey in q.mem.clients && q.mem.clients[newKey].lastSeen == t3
  {
    hide Inv, ValidSetup, Open, Filed, KeyFor, Step, StoresNew, Run, AllNew, Initial, LiveIn, Unregister, Upgrades,
      LegacyId, ValidInstanceId;
    var p0, a := Initial(cfg, generated), DoAuthorize(token.hash);
    var p1, b := Step(cfg, p0, a), DoRegister(token, first, t1, []);
    var p2, c := Step(cfg, p1, b), DoRegister(token, second, t2, [KeyFor(token, first)]);
    var p3, d, e := Step(cfg, p2, c), DoUnregister(2, t3), DoUnregister(1, t4);
    BeginsOpen(cfg, generated, token);
    FirstSession(cfg, p1, token, first, t1);
    SecondSession(cfg, p2, token, first, second, t2, 1);
    UpgradedKeysDiffer(token, first, second);
    BothEnd(cfg, p3, token.id, 1, 2, KeyFor(token, second), KeyFor(token, first), t3, t4);
    StepUnregisters(cfg, p3, 2, t3);
    StepUnregisters(cfg, Step(cfg, p3, d), 1, t4);
    RunThree(cfg, p0, a, b, c, [d]);
    RunOne(cfg, p3, d);
    RunOne(cfg, Step(cfg, p3, d), e);
    RunAppend(cfg, p0, [a, b, c] + [d], [e]);
  }

  lemma RunOne(cfg: Setup, p: Plane, a: Action)
    ensures Run(cfg, p, [a]) == Step(cfg, p, a) && (AllNew(cfg, p, [a]) <==> StoresNew(cfg, p, a))
  {
    hide Step, StoresNew;
    assert [a][1..] == [];
  }
}
