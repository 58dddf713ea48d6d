/** What a registration asks for, when it is admitted, and what it records. */
module Registration {
  import opened Wrappers
  import opened Text
  import opened Config
  import opened ControlState
  import opened TokenLedger
  import opened Migration
  import opened Pruning
  import opened ControlInvariant
  import opened SessionLabels

  // ------------------------------------------------------------ the identity

  /** The device id is the trimmed header if that is an identifier, and otherwise the id derived from
      the address; a previous id counts only from a `dev_` id to another `dev2_` id. */
  lemma IdentityExact(tokenId: string, r: Request)
    ensures var i := IdentityOf(tokenId, r);
            var device, previous := Trim(r.rawDevice), Trim(r.rawPrevious);
            && i.tokenId == tokenId && i.legacyId == r.legacyId
            && i.deviceId == (if IsIdentifier(device, 96) then device else r.legacyId)
            && i.previousId == if IsIdentifier(device, 96) && IsIdentifier(previous, 96)
                                  && "dev2_" <= device && "dev_" <= previous && previous != device
                               then previous else ""
  {
    hide Trim;
  }

  // ------------------------------------------------------------ the admission

  /** Some stored token with the hash is not revoked. */
  predicate HashInForce(cfg: Setup, m: Durable, hash: string) {
    hash !in m.revoked && exists t :: t in cfg.base + m.added && t.hash == hash
  }

  /** Authorization finds the one token in force with the hash. */
  lemma AuthorizeExact(cfg: Setup, m: Durable, hash: string)
    requires ValidBase(cfg.base) && TokensGood(cfg, m.added, m.revoked, m.deleted)
    ensures Authorize(cfg, m, hash).Some? <==> HashInForce(cfg, m, hash)
    ensures Authorize(cfg, m, hash).Some? ==>
              Authorize(cfg, m, hash).value in cfg.base + m.added && Authorize(cfg, m, hash).value.hash == hash
  {
    hide AllTokens, TokensGood, ValidBase;
    if t :| t in cfg.base + m.added && t.hash == hash && hash !in m.revoked {
      AllTokensExact(cfg, m, t);
    }
    var found := Authorize(cfg, m, hash);
    if found.Some? {
      AllTokensExact(cfg, m, found.value);
    }
  }

  /** The device, its previous id and its address, as far as the request names them. */
  predicate Named(i: Identity, d: string) {
    d != "" && (d == i.deviceId || d == i.previousId || d == i.legacyId)
  }

  /** A session is registered exactly when shutdown has not begun, the token's hash is still in
      force, and nothing the request names is blocked; the session gets a number that was never
      given out, and otherwise nothing changes. */
  lemma AdmissionExact(cfg: Setup, p: Plane, token: Token, r: Request, now: nat, order: seq<string>)
    requires ValidSetup(cfg) && Inv(cfg, p) && token.hash != ""
    ensures var (q, sid) := Register(cfg, p, token, r, now, order);
            && (sid.Some? <==>
                  && !p.shuttingDown && HashInForce(cfg, p.mem, token.hash)
                  && forall d :: Named(IdentityOf(token.id, r), d) ==> ClientKey(token.id, d) !in p.mem.blocked)
            && (sid.None? ==> q == p)
            && (sid.Some? ==> sid.value == p.nextSession + 1 && sid.value !in p.closures && q.dirty)
  {
    hide IdentityOf, ClientKey, Registered, Authorize, TokensGood, ClientsGood, SessionsGood, AuthorizedGood,
      TimersGood, DiskGood, ValidBase, HashInForce, Arm;
    AuthorizeExact(cfg, p.mem, token.hash);
    IdentityIsTokens(token.id, r);
    var i := IdentityOf(token.id, r);
    forall d ensures Named(i, d) <==> d in Candidates(i) {
    }
    NumbersAreNew(p);
  }

  lemma NumbersAreNew(p: Plane)
    requires SessionsGood(p.active, p.nextSession, p.closures)
    ensures p.nextSession + 1 !in p.closures
  {
    hide LiveIn;
  }

  // ------------------------------------------------------------ the record

  /** The record of a device that has just registered; `known` is what was on record under its key
      after pruning and migration. */
  ghost predicate RecordedNow(known: Option<Client>, c: Client, token: Token, r: Request, now: nat) {
    && c.lastSeen == now
    && c.firstSeen == (if known.Some? then known.value.firstSeen else now)
    && c.meta[REMOTE_IP] == r.remoteIp
    && (forall j :: 0 <= j < HEADER_FIELDS ==>
          var clean := SanitizeDisplay(r.headers[j], LIMITS[j]);
          c.meta[j] == if clean != "" then clean else KnownField(known, j))
    && if KnownField(known, COUNTRY) == "" && r.remoteIp != "" && r.cached.Some? then
         c.meta[COUNTRY] == r.cached.value.country && c.meta[CITY] == r.cached.value.city
       else
         c.meta[COUNTRY] == KnownField(known, COUNTRY) && c.meta[CITY] == KnownField(known, CITY)
  }

  function KnownField(known: Option<Client>, j: nat): string
    requires j < FIELDS
  {
    if known.Some? then known.value.meta[j] else ""
  }

  function RecordUnder(clients: map<string, Client>, key: string): Option<Client> {
    if key in clients then Some(clients[key]) else None
  }

  /** Recording a device: its record as it should be, every other record as it was. */
  lemma SeenExact(m: Durable, i: Identity, token: Token, r: Request, now: nat)
    ensures var key, n := ClientKey(i.tokenId, i.deviceId), Seen(m, i, r, now);
            && n == m.(clients := n.clients) && n.clients.Keys == m.clients.Keys + {key}
            && RecordedNow(RecordUnder(m.clients, key), n.clients[key], token, r, now)
            && (key !in m.clients ==> n.clients[key].tokenId == i.tokenId && n.clients[key].deviceId == i.deviceId)
            && forall k :: k in m.clients && k != key ==> n.clients[k] == m.clients[k]
  {
    hide SanitizeDisplay, ClientKey;
    var key := ClientKey(i.tokenId, i.deviceId);
    var known := RecordUnder(m.clients, key);
    var before := if known.Some? then known.value.meta else EMPTY_META;
    var meta := ApplyHeaders(before, r);
    assert forall j :: 0 <= j < HEADER_FIELDS ==> meta[j] == Refreshed(before, r, j);
    assert meta[REMOTE_IP] == Refreshed(before, r, REMOTE_IP);
    assert meta[COUNTRY] == Refreshed(before, r, COUNTRY) && meta[CITY] == Refreshed(before, r, CITY);
    assert forall j :: 0 <= j < FIELDS ==> known.None? ==> before[j] == "";
  }

  /** An admitted registration records under the request's key that the device was seen now, at its
      address, with every header that is not empty once cleaned, keeping what else was known of it
      after pruning and migration; no other record and nothing else in memory changes after these. */
  lemma RegistrationRecords(cfg: Setup, p: Plane, token: Token, r: Request, now: nat, order: seq<string>)
    requires Inv(cfg, p) && Enabled(p, DoRegister(token, r, now, order)) && Admits(cfg, p, token, r)
    ensures var i := IdentityOf(token.id, r);
            var key := ClientKey(token.id, i.deviceId);
            var m := Migrate(p.(mem := Prune(p.mem, order)), i, r).mem;
            var n := Register(cfg, p, token, r, now, order).0.mem;
            && n == m.(clients := n.clients) && n.clients.Keys == m.clients.Keys + {key}
            && RecordedNow(RecordUnder(m.clients, key), n.clients[key], token, r, now)
            && n.clients[key].tokenId == token.id && n.clients[key].deviceId == i.deviceId
            && forall k :: k in m.clients && k != key ==> n.clients[k] == m.clients[k]
  {
    hide IdentityOf, LegacyId, EvictionOrder, ActiveKeys, Admits, Migrate, Prune, Seen, Schedule, RecordedNow,
      ClientKey, RecordUnder, Link, Inv;
    var i := IdentityOf(token.id, r);
    IdentityIsTokens(token.id, r);
    var m := Migrate(p.(mem := Prune(p.mem, order)), i, r).mem;
    SeenExact(m, i, token, r, now);
    ScheduledPlane(Registered(p, i, r, now, order));
    RegisteredIsSeen(p, i, r, now, order);
    RecordIsDevices(cfg, p, token, r, now, order);
  }

  lemma RegisteredIsSeen(p: Plane, i: Identity, r: Request, now: nat, order: seq<string>)
    ensures Registered(p, i, r, now, order).mem == Seen(Migrate(p.(mem := Prune(p.mem, order)), i, r).mem, i, r, now)
  {
    hide Migrate, Prune, Link, Placed, Recorded;
  }

  lemma RecordIsDevices(cfg: Setup, p: Plane, token: Token, r: Request, now: nat, order: seq<string>)
    requires Inv(cfg, p) && Enabled(p, DoRegister(token, r, now, order)) && Admits(cfg, p, token, r)
    ensures var i := IdentityOf(token.id, r);
            var key, n := ClientKey(token.id, i.deviceId), Register(cfg, p, token, r, now, order).0.mem;
            key in n.clients ==> n.clients[key].tokenId == token.id && n.clients[key].deviceId == i.deviceId
  {
    hide IdentityOf, LegacyId, EvictionOrder, ActiveKeys, TokenActive, BlockedIdentity, Migrate, Prune, Schedule,
      IsIdentifier, Registered, TokensGood, SessionsGood, TimersGood, DiskGood, Link, MovedSome, BlocksKept;
    AuthorizedId(p, token);
    var i := IdentityOf(token.id, r);
    RegisteredFrame(cfg, p, token, r, now, order);
    var q := Registered(p, i, r, now, order);
    ScheduledPlane(q);
    var key := ClientKey(token.id, i.deviceId);
    if key in q.mem.clients {
      var c := q.mem.clients[key];
      assert WellKeyed(key, c);
      JoinInjective(c.tokenId, c.deviceId, token.id, i.deviceId, 96);
    }
  }

  // ------------------------------------------------------ what is absorbed

  /** The record of the address is taken for the device's own: it was seen at the same address by a
      client of the same maker and model, letter case apart. */
  predicate SameDevice(c: Client, r: Request) {
    var maker, model := SanitizeDisplay(r.headers[1], 96), SanitizeDisplay(r.headers[4], 128);
    && r.remoteIp != "" && c.meta[13] == r.remoteIp && maker != "" && model != ""
    && Lower(c.meta[1]) == Lower(maker) && Lower(c.meta[4]) == Lower(model)
  }

  lemma MigratedKeys(cfg: Setup, p: Plane, token: Token, r: Request, order: seq<string>)
    requires Inv(cfg, p) && token in p.authorized && LegacyId(r.legacyId) && Admits(cfg, p, token, r)
    requires EvictionOrder(order, p.mem.clients, ActiveKeys(p.active))
    ensures var i := IdentityOf(token.id, r);
            var m := Prune(p.mem, order);
            var n := Migrate(p.(mem := m), i, r).mem;
            var address := ClientKey(token.id, r.legacyId);
            && (i.previousId != "" ==> ClientKey(token.id, i.previousId) !in n.clients)
            && (i.deviceId != r.legacyId ==>
                  (address in n.clients <==> address in m.clients && !SameDevice(m.clients[address], r)))
  {
    hide EvictionOrder, Prune, Migrate, LegacyId, IsIdentifier, BlockedIdentity, SessionsMoved, RecordsMoved,
      CarriesStamps, ActiveKeys, Merged, OldKeys, ClientKey, AllSessions, Elements, IdentityOf, TokenActive,
      ClientsGood, FirstFilled, SameDevice, TokensGood, SessionsGood, TimersGood, DiskGood, AuthorizedGood;
    var i := IdentityOf(token.id, r);
    var pruned := p.(mem := Prune(p.mem, order));
    AuthorizedId(p, token);
    PruneKeepsGood(p.mem, ActiveKeys(p.active), order);
    UnblockedAfterPrune(p.mem, pruned.mem, i);
    MigrationConserves(pruned, token.id, r);
    IdentityIsTokens(token.id, r);
    OldKeysExact(pruned.mem, token.id, r);
    KeysGone(pruned.mem.clients, Migrate(pruned, i, r).mem.clients, token.id, r);
  }

  /** The old keys of a request: the previous id's, and the address's if its record is taken for the
      device's own. */
  lemma OldKeysExact(m: Durable, tokenId: string, r: Request)
    requires LegacyId(r.legacyId)
    ensures var i := IdentityOf(tokenId, r);
            var address := ClientKey(tokenId, r.legacyId);
            && (i.previousId != "" ==> ClientKey(tokenId, i.previousId) in Elements(OldKeys(m, i, r)))
            && (i.deviceId != r.legacyId ==>
                  (address in Elements(OldKeys(m, i, r))
                   <==> address in m.clients && SameDevice(m.clients[address], r)))
  {
    hide IdentityOf, LegacyMatches, SameDevice, ClientKey, SanitizeDisplay;
    var i := IdentityOf(tokenId, r);
    IdentityExact(tokenId, r);
    DeviceKeysDiffer(tokenId, i.previousId, r.legacyId);
    PrefixesDiffer(i.previousId, r.legacyId);
    var address := ClientKey(tokenId, r.legacyId);
    if address in m.clients {
      assert LegacyMatches(m.clients[address], r) == SameDevice(m.clients[address], r)
          by { MatchIsSameDevice(m.clients[address], r); }
    }
  }

  lemma MatchIsSameDevice(c: Client, r: Request)
    ensures LegacyMatches(c, r) == SameDevice(c, r)
  {
    hide SanitizeDisplay, Lower;
  }

  lemma PrefixesDiffer(previous: string, legacy: string)
    requires "legacy_" <= legacy
    ensures "dev_" <= previous ==> previous != legacy
  {
    assert legacy[0] == "legacy_"[0];
    if "dev_" <= previous {
      assert previous[0] == "dev_"[0];
    }
  }

  lemma KeysGone(before: map<string, Client>, after: map<string, Client>, tokenId: string, r: Request)
    requires var i := IdentityOf(tokenId, r);
             var address := ClientKey(tokenId, r.legacyId);
             exists keys :: RecordsMoved(before, after, keys, ClientKey(tokenId, i.deviceId))
               && (i.previousId != "" ==> ClientKey(tokenId, i.previousId) in keys)
               && (i.deviceId != r.legacyId ==>
                     (address in keys <==> address in before && SameDevice(before[address], r)))
    ensures var i := IdentityOf(tokenId, r);
            var address := ClientKey(tokenId, r.legacyId);
            && (i.previousId != "" ==> ClientKey(tokenId, i.previousId) !in after)
            && (i.deviceId != r.legacyId ==>
                  (address in after <==> address in before && !SameDevice(before[address], r)))
  {
    hide SameDevice, IdentityOf, ClientKey;
    var i := IdentityOf(tokenId, r);
    IdentityExact(tokenId, r);
    DeviceKeysDiffer(tokenId, i.deviceId, i.previousId);
    DeviceKeysDiffer(tokenId, i.deviceId, r.legacyId);
  }

  /** After a registration there is no record under a previous id; one under the id of the address,
      if that is not the device's, is gone exactly if it was pruned or taken for the device's own. */
  lemma AbsorptionExact(cfg: Setup, p: Plane, token: Token, r: Request, now: nat, order: seq<string>)
    requires Inv(cfg, p) && Enabled(p, DoRegister(token, r, now, order)) && Admits(cfg, p, token, r)
    ensures var i := IdentityOf(token.id, r);
            var m, n := Prune(p.mem, order), Register(cfg, p, token, r, now, order).0.mem;
            var address := ClientKey(token.id, r.legacyId);
            && (i.previousId != "" ==> ClientKey(token.id, i.previousId) !in n.clients)
            && (i.deviceId != r.legacyId ==>
                  (address in n.clients <==> address in m.clients && !SameDevice(m.clients[address], r)))
  {
    hide LegacyId, EvictionOrder, ActiveKeys, Admits, Migrate, Prune, Schedule, RecordedNow, RecordUnder, Register,
      IdentityOf, ClientKey, SameDevice;
    RegistrationRecords(cfg, p, token, r, now, order);
    MigratedKeys(cfg, p, token, r, order);
    hide Inv;
    var i := IdentityOf(token.id, r);
    IdentityExact(token.id, r);
    DeviceKeysDiffer(token.id, i.deviceId, r.legacyId);
    DeviceKeysDiffer(token.id, i.deviceId, i.previousId);
  }

  /** Where the survivor of a migration has its fields from: its own record, then the previous id's,
      and then, if it is taken for the device's own, the address's. */
  lemma SurvivorFields(p: Plane, tokenId: string, r: Request, j: nat)
    requires ClientsGood(p.mem.clients, p.mem.blocked) && j < FIELDS
    requires IsIdentifier(tokenId, 96) && LegacyId(r.legacyId) && !BlockedIdentity(p.mem, IdentityOf(tokenId, r))
    ensures var i, before := IdentityOf(tokenId, r), p.mem.clients;
            var after := Migrate(p, i, r).mem.clients;
            var newKey, address := ClientKey(tokenId, i.deviceId), ClientKey(tokenId, r.legacyId);
            var own, previous := FieldOf(before, newKey, j), FieldOf(before, ClientKey(tokenId, i.previousId), j);
            newKey in after ==>
              after[newKey].meta[j] == if own != "" then own
                                       else if i.previousId != "" && previous != "" then previous
                                       else if i.deviceId != r.legacyId && address in before
                                               && SameDevice(before[address], r) then FieldOf(before, address, j)
                                       else ""
  {
    hide IdentityOf, LegacyId, IsIdentifier, BlockedIdentity, ClientsGood, SessionsMoved, RecordsMoved, CarriesStamps,
      Merged, AllSessions, FieldOf, Migrate, ClientKey, SameDevice, LegacyMatches, FirstFilled;
    var i, before := IdentityOf(tokenId, r), p.mem.clients;
    IdentityExact(tokenId, r);
    MigrationConserves(p, tokenId, r);
    var newKey, address := ClientKey(tokenId, i.deviceId), ClientKey(tokenId, r.legacyId);
    if address in before {
      MatchIsSameDevice(before[address], r);
    }
    if newKey in Migrate(p, i, r).mem.clients {
      FirstOfThree(before, newKey, OldKeys(p.mem, i, r), j, Migrate(p, i, r).mem.clients[newKey].meta[j]);
    }
  }

  lemma FirstOfThree(clients: map<string, Client>, newKey: string, keys: seq<string>, j: nat, text: string)
    requires j < FIELDS && |keys| <= 2 && FirstFilled(clients, [newKey] + keys, j, text)
    ensures text == if FieldOf(clients, newKey, j) != "" then FieldOf(clients, newKey, j)
                    else if keys == [] then ""
                    else if FieldOf(clients, keys[0], j) != "" then FieldOf(clients, keys[0], j)
                    else if |keys| == 1 then "" else FieldOf(clients, keys[1], j)
  {
    hide FieldOf;
    var all := [newKey] + keys;
    assert all[0] == newKey && forall n :: 0 <= n < |keys| ==> all[n + 1] == keys[n];
    if k :| k in all && FieldOf(clients, k, j) != "" {
      var n :| 0 <= n < |all| && FilledAt(clients, all, j, n) && text == FieldOf(clients, all[n], j);
    } else {
      assert forall k :: k in all ==> FieldOf(clients, k, j) == "";
      assert newKey in all && forall k :: k in keys ==> k in all;
    }
  }

  lemma DeviceKeysDiffer(t: string, a: string, b: string)
    ensures ClientKey(t, a) == ClientKey(t, b) <==> a == b
  {
    assert ClientKey(t, a)[|t| + 1..] == a && ClientKey(t, b)[|t| + 1..] == b;
  }

  // ---------------------------------------------------------------- places

  /** A lookup ends in a write exactly when the client is on record and, for an answer, that is not
      empty and the client is still at the address that was looked up. */
  predicate Writes(m: Durable, key: string, l: Lookup) {
    && key in m.clients
    && (l.Resolved? ==> (l.place.country != "" || l.place.city != "") && m.clients[key].meta[REMOTE_IP] == l.ip)
  }

  /** The write sets country and city, as they are from the cache and cleaned from an answer, and
      nothing else. */
  lemma LocateExact(p: Plane, key: string, l: Lookup)
    ensures var q := Locate(p, key, l);
            && (!Writes(p.mem, key, l) ==> q == p)
            && (Writes(p.mem, key, l) ==>
                  && q.dirty && q.mem == p.mem.(clients := q.mem.clients) && q.mem.clients.Keys == p.mem.clients.Keys
                  && (forall k :: k in p.mem.clients && k != key ==> q.mem.clients[k] == p.mem.clients[k])
                  && var c, d := p.mem.clients[key], q.mem.clients[key];
                     && d == c.(meta := d.meta)
                     && (forall j :: 0 <= j < FIELDS && j != COUNTRY && j != CITY ==> d.meta[j] == c.meta[j])
                     && d.meta[COUNTRY]
                        == (if l.FromCache? then l.place.country else SanitizeDisplay(l.place.country, 128))
                     && d.meta[CITY] == if l.FromCache? then l.place.city else SanitizeDisplay(l.place.city, 128))
  {
    hide SanitizeDisplay, Schedule, Located;
    if Writes(p.mem, key, l) {
      var c, place := p.mem.clients[key], Found(p.mem.clients[key], l).value;
      LocatedExact(c, place);
      var q := p.(mem := p.mem.(clients := p.mem.clients[key := Located(c, place)]));
      ScheduledPlane(q);
      ScheduledIsDirty(q);
    }
  }

  lemma LocatedExact(c: Client, place: Place)
    ensures var d := Located(c, place);
            && d == c.(meta := d.meta) && d.meta[COUNTRY] == place.country && d.meta[CITY] == place.city
            && forall j :: 0 <= j < FIELDS && j != COUNTRY && j != CITY ==> d.meta[j] == c.meta[j]
  {
  }

  lemma ScheduledIsDirty(p: Plane)
    ensures Schedule(p).dirty
  {
    hide Arm;
  }
}
