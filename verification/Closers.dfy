/** Which sessions an operation closes: the closers that it hands out, and what else it leaves. */
module Closers {
  import opened Wrappers
  import opened Text
  import opened Config
  import opened ControlState
  import opened TokenLedger
  import opened Migration
  import opened StepFrames
  import opened ControlInvariant
  import opened ControlRuns
  import opened ControlSessions
  import opened SecretReuse

  /** The closers are those of exactly the live sessions under the token. */
  ghost predicate ClosesToken(active: Active, tokenId: string, closers: set<nat>) {
    forall sid :: sid in closers <==> LiveIn(active, tokenId, sid)
  }

  /** The closers are those of exactly the live sessions with the key, under whatever token. */
  ghost predicate ClosesKey(active: Active, key: string, closers: set<nat>) {
    forall sid :: sid in closers <==> exists t :: LiveIn(active, t, sid) && active[t][sid].clientKey == key
  }

  // ------------------------------------------------------------------- deletion

  /** Why a deletion fails. */
  ghost predicate NotDeleted(cfg: Setup, m: Durable, id: string, ok: bool, e: DeleteError) {
    if id == "" then e == IdRequired
    else if forall t :: t in cfg.base + m.added && t.hash !in m.revoked ==> t.id != id then e == NoSuchToken
    else if |m.revoked| >= 2048 && exists t :: t in cfg.base && t.hash !in m.revoked && t.id == id then
      e == TooManyRevocations
    else if |m.deleted| >= 2048 && "tok_" <= id && id !in m.deleted then e == TooManyTombstones
    else !ok && e == DeleteNotPersisted
  }

  /** A deletion fails exactly for these reasons. When it succeeds it hands out the closers of exactly
      the live sessions of the token, and of the directory and its blocks what is left is exactly what
      belongs to other tokens. */
  lemma DeletionCloses(cfg: Setup, p: Plane, id: string, ok: bool)
    requires ValidSetup(cfg) && Inv(cfg, p)
    ensures var (q, r) := DeleteToken(cfg, p, id, ok);
            && (forall e :: r == Err(e) <==> NotDeleted(cfg, p.mem, Trim(id), ok, e))
            && (r.Err? ==> q == p)
            && (r.Ok? ==>
                  && ClosesToken(p.active, Trim(id), r.value) && q.collected == p.collected + r.value
                  && q.active == p.active
                  && Kept(p.mem.clients, q.mem.clients, Trim(id)) && BlocksOf(p.mem, q.mem))
  {
    hide AllTokens, Trim, Revocation, HasHash, PersistCritical, TokensGood, ClientsGood, SessionsGood, AuthorizedGood,
      TimersGood, DiskGood, ValidBase, NotDeleted, Refusal, Kept, BlocksOf;
    var cleanId := Trim(id);
    DeletionFails(cfg, p, id, ok);
    var found := FindId(AllTokens(cfg, p.mem), cleanId);
    if found.Some? {
      var m := Deletion(cfg, p.mem, found.value);
      PersistedMemory(p.(mem := m));
      PersistKeeps(p.(mem := m));
      DeletionLeaves(cfg, p.mem, found.value);
    }
  }

  lemma PersistKeeps(p: Plane)
    ensures var q := PersistCritical(p, true); q.active == p.active && q.collected == p.collected
  {
    hide Stop;
  }

  /** The records of other tokens, as they were. */
  ghost predicate Kept(before: map<string, Client>, after: map<string, Client>, tokenId: string) {
    && (forall k :: k in after <==> k in before && before[k].tokenId != tokenId)
    && (forall k :: k in after ==> after[k] == before[k])
  }

  /** The blocks of the records that are left, as they were. */
  ghost predicate BlocksOf(before: Durable, after: Durable) {
    && (forall k :: k in after.blocked <==> k in before.blocked && k in after.clients)
    && (forall k :: k in after.blocked ==> after.blocked[k] == before.blocked[k])
  }

  lemma DeletionLeaves(cfg: Setup, m: Durable, found: Token)
    requires ClientsGood(m.clients, m.blocked)
    ensures Kept(m.clients, Deletion(cfg, m, found).clients, found.id) && BlocksOf(m, Deletion(cfg, m, found))
  {
    hide HasHash, DropHash, WellKeyed;
  }

  lemma DeletionFails(cfg: Setup, p: Plane, id: string, ok: bool)
    requires ValidSetup(cfg) && Inv(cfg, p)
    ensures forall e :: DeleteToken(cfg, p, id, ok).1 == Err(e) <==> NotDeleted(cfg, p.mem, Trim(id), ok, e)
  {
    hide AllTokens, Trim, Deletion, PersistCritical, TokensGood, ClientsGood, SessionsGood, AuthorizedGood, TimersGood,
      DiskGood, ValidBase, Refusal, NotDeleted;
    var cleanId := Trim(id);
    var found := FindId(AllTokens(cfg, p.mem), cleanId);
    FoundInForce(cfg, p.mem, cleanId);
    if cleanId == "" || found.None? {
      EarlyFailures(cfg, p.mem, cleanId, ok);
    } else {
      RefusalExact(cfg, p.mem, found.value, ok);
    }
  }

  lemma EarlyFailures(cfg: Setup, m: Durable, id: string, ok: bool)
    requires id == "" || forall t :: t in cfg.base + m.added && t.hash !in m.revoked ==> t.id != id
    ensures forall e :: NotDeleted(cfg, m, id, ok, e) <==> e == if id == "" then IdRequired else NoSuchToken
  {
  }

  /** The token that is found is the one in force with the id. */
  lemma FoundInForce(cfg: Setup, m: Durable, id: string)
    requires ValidBase(cfg.base) && TokensGood(cfg, m.added, m.revoked, m.deleted)
    ensures var found := FindId(AllTokens(cfg, m), id);
            && (found.None? <==> forall t :: t in cfg.base + m.added && t.hash !in m.revoked ==> t.id != id)
            && (found.Some? ==>
                 found.value in cfg.base + m.added && found.value.hash !in m.revoked && found.value.id == id)
  {
    hide AllTokens, TokensGood, ValidBase;
    var found := FindId(AllTokens(cfg, m), id);
    forall t | t in cfg.base + m.added && t.hash !in m.revoked ensures t in AllTokens(cfg, m) {
      AllTokensExact(cfg, m, t);
    }
    if found.Some? {
      AllTokensExact(cfg, m, found.value);
    }
  }

  lemma RefusalExact(cfg: Setup, m: Durable, found: Token, ok: bool)
    requires ValidBase(cfg.base) && TokensGood(cfg, m.added, m.revoked, m.deleted)
    requires found in cfg.base + m.added && found.hash !in m.revoked && found.id != ""
    ensures forall e :: Refusal(cfg, m, found, ok) == Some(e) <==> NotDeleted(cfg, m, found.id, ok, e)
  {
    hide TokensGood, ValidBase;
    assert HasHash(cfg.base, found.hash) <==> exists t :: t in cfg.base && t.hash !in m.revoked && t.id == found.id by {
      BaseOrAdded(cfg, m, found);
    }
    hide HasHash;
  }

  /** A token in force shares its hash with a configured one exactly if it shares its id with one. */
  lemma BaseOrAdded(cfg: Setup, m: Durable, found: Token)
    requires TokensGood(cfg, m.added, m.revoked, m.deleted) && found in cfg.base + m.added && found.hash !in m.revoked
    ensures HasHash(cfg.base, found.hash) <==> exists t :: t in cfg.base && t.hash !in m.revoked && t.id == found.id
  {
    hide NormalToken;
    if t :| t in cfg.base && t.hash == found.hash {
      SameHashSameToken(cfg, m, t, found);
      assert found in cfg.base;
    }
    if t :| t in cfg.base && t.hash !in m.revoked && t.id == found.id {
      SameHashSameToken(cfg, m, t, found);
    }
  }

  // ------------------------------------------------------ blocking, disconnecting

  /** The key of a device as the owner names it, if both parts are identifiers once trimmed. */
  lemma DeviceKeyExact(tokenId: string, deviceId: string)
    ensures DeviceKey(tokenId, deviceId)
            == if IsIdentifier(Trim(tokenId), 96) && IsIdentifier(Trim(deviceId), 96)
               then Some(Trim(tokenId) + ":" + Trim(deviceId)) else None
  {
    hide Trim;
  }

  /** What is wrong with a device that the owner names. */
  predicate NoDevice(m: Durable, tokenId: string, deviceId: string, e: DeviceError) {
    if !IsIdentifier(Trim(tokenId), 96) || !IsIdentifier(Trim(deviceId), 96) then e == BadDevice
    else Trim(tokenId) + ":" + Trim(deviceId) !in m.clients && e == NoSuchDevice
  }

  /** A block is stored with its time, and lifting one removes it, no other block changing; a block
      hands out the closers of exactly the live sessions of the device, lifting one none. */
  lemma BlockCloses(p: Plane, tokenId: string, deviceId: string, block: bool, now: nat, ok: bool)
    ensures var (q, r) := SetBlocked(p, tokenId, deviceId, block, now, ok);
            var key := Trim(tokenId) + ":" + Trim(deviceId);
            && (forall e :: r == Err(e) <==>
                  || NoDevice(p.mem, tokenId, deviceId, e)
                  || ((forall f :: !NoDevice(p.mem, tokenId, deviceId, f)) && !ok && e == BlockNotPersisted))
            && (r.Err? ==> q == p)
            && (r.Ok? ==>
                  && (if block then ClosesKey(p.active, key, r.value) else r.value == {})
                  && q.collected == p.collected + r.value && q.active == p.active
                  && q.mem == p.mem.(blocked := q.mem.blocked)
                  && (key in q.mem.blocked <==> block) && (block ==> q.mem.blocked[key] == now)
                  && forall k :: k != key ==>
                       (k in q.mem.blocked <==> k in p.mem.blocked)
                       && (k in p.mem.blocked ==> q.mem.blocked[k] == p.mem.blocked[k]))
  {
    hide Trim, DeviceKey, PersistCritical, ClosesKey, IsIdentifier;
    DeviceKeyExact(tokenId, deviceId);
    var key := Trim(tokenId) + ":" + Trim(deviceId);
    DeviceSessionsClose(p.active, key);
    hide DeviceSessions;
    var blocked := if block then p.mem.blocked[key := now] else p.mem.blocked - {key};
    PersistedMemory(p.(mem := p.mem.(blocked := blocked)));
    PersistKeeps(p.(mem := p.mem.(blocked := blocked)));
    var r := SetBlocked(p, tokenId, deviceId, block, now, ok).1;
    if r.Err? && r.error != BlockNotPersisted {
      assert NoDevice(p.mem, tokenId, deviceId, r.error);
    }
  }

  lemma DeviceSessionsClose(active: Active, key: string)
    ensures ClosesKey(active, key, DeviceSessions(active, key))
  {
    DeviceSessionsLive(active, key);
  }

  /** Disconnecting hands out the closers of exactly the live sessions of the device and changes
      nothing else. */
  lemma DisconnectCloses(p: Plane, tokenId: string, deviceId: string)
    ensures var (q, r) := Disconnect(p, tokenId, deviceId);
            && (forall e :: r == Err(e) <==> NoDevice(p.mem, tokenId, deviceId, e))
            && (r.Ok? ==> ClosesKey(p.active, Trim(tokenId) + ":" + Trim(deviceId), r.value))
            && q == p.(collected := p.collected + if r.Ok? then r.value else {})
  {
    hide Trim, DeviceKey, DeviceSessions;
    DeviceKeyExact(tokenId, deviceId);
    var key := DeviceKey(tokenId, deviceId);
    if key.Some? {
      DeviceSessionsLive(p.active, key.value);
    }
  }

  // ------------------------------------------------------------------------ runs

  /** The closers that a step hands out to be run. */
  function HandedOut(cfg: Setup, p: Plane, a: Action): set<nat> {
    if !Enabled(p, a) then {}
    else match a
      case DoDelete(id, ok) => var r := DeleteToken(cfg, p, id, ok).1; if r.Ok? then r.value else {}
      case DoBlock(t, d, block, now, ok) =>
          var r := SetBlocked(p, t, d, block, now, ok).1; if r.Ok? then r.value else {}
      case DoDisconnect(t, d) => var r := Disconnect(p, t, d).1; if r.Ok? then r.value else {}
      case DoBeginShutdown => AllSessions(p.active)
      case _ => {}
  }

  /** Sessions are collected by being handed out, and only so. */
  lemma StepHandsOut(cfg: Setup, p: Plane, a: Action)
    requires ValidSetup(cfg) && Inv(cfg, p) && !a.DoRestart?
    ensures Step(cfg, p, a).collected == p.collected + HandedOut(cfg, p, a)
  {
    hide Inv, ValidSetup, DeleteToken, SetBlocked, Disconnect, CreateToken, Register, Unregister, Locate, TimerFires,
      FlushCallback, FinishShutdown, PersistCritical, Authorize, AllSessions, EvictionOrder, LegacyId, MintedId,
      ActiveKeys;
    if Enabled(p, a) {
      match a
      case DoDelete(id, ok) => DeletionCloses(cfg, p, id, ok);
      case DoBlock(t, d, block, now, ok) => BlockCloses(p, t, d, block, now, ok);
      case DoDisconnect(t, d) => DisconnectCloses(p, t, d);
      case DoBeginShutdown =>
      case _ =>
        hide Step;
        StepFrame(cfg, p, a);
    }
  }

  /** A start, which ends every session; numbers are given out anew after it. */
  predicate Restarts(a: Action) {
    a.DoRestart? && ValidInstanceId(a.generated)
  }

  /** Every collected session was handed out by some step of the run since the last start. */
  lemma {:induction false} CollectedWereHandedOut(cfg: Setup, p: Plane, acts: seq<Action>, sid: nat) returns (k: nat)
    requires ValidSetup(cfg) && Inv(cfg, p) && AllNew(cfg, p, acts) && sid in Run(cfg, p, acts).collected
    requires sid !in p.collected || exists a :: a in acts && Restarts(a)
    ensures k < |acts| && sid in HandedOut(cfg, Run(cfg, p, acts[..k]), acts[k])
    ensures forall j :: k < j < |acts| ==> !Restarts(acts[j])
    decreases |acts|
  {
    hide Inv, Step, ValidSetup, StoresNew, HandedOut, Restarts;
    assert acts != [];
    var a, q, rest := acts[0], Step(cfg, p, acts[0]), acts[1..];
    assert acts == [a] + rest;
    StepInv(cfg, p, a);
    StepCollects(cfg, p, a);
    if sid !in q.collected || exists b :: b in rest && Restarts(b) {
      var j := CollectedWereHandedOut(cfg, q, rest, sid);
      k := j + 1;
      assert acts[..k] == [a] + rest[..j];
      RunFirst(cfg, p, a, rest[..j]);
    } else {
      k := 0;
      assert acts[..0] == [];
      RunNone(cfg, p);
      forall j | 0 < j < |acts| ensures !Restarts(acts[j]) {
        assert acts[j] in rest;
      }
    }
  }

  lemma StepCollects(cfg: Setup, p: Plane, a: Action)
    requires ValidSetup(cfg) && Inv(cfg, p)
    ensures Step(cfg, p, a).collected == if Restarts(a) then {} else p.collected + HandedOut(cfg, p, a)
  {
    hide Inv, ValidSetup, Step, Restart, ValidInstanceId;
    if a.DoRestart? {
      StepRestarts(cfg, p, a.generated);
      if ValidInstanceId(a.generated) {
        RestartCollects(cfg, p, a.generated);
      }
    } else {
      StepHandsOut(cfg, p, a);
    }
  }

  lemma RestartCollects(cfg: Setup, p: Plane, generated: string)
    requires ValidSetup(cfg) && Inv(cfg, p) && ValidInstanceId(generated)
    ensures Restart(cfg, p, generated).collected == {}
  {
    hide Inv, ValidSetup, ValidInstanceId, Start;
    InvRestarts(cfg, p, generated);
  }

  /** No session escapes, in terms of what the program does: a live session without a live token, or
      with a blocked key, was handed out to be closed by some step of the run since the last start. */
  lemma EscapedWereHandedOut(cfg: Setup, generated: string, acts: seq<Action>, tokenId: string, sid: nat)
      returns (k: nat)
    requires ValidSetup(cfg) && ValidInstanceId(generated) && NeverReusedAlong(cfg, Initial(cfg, generated), acts)
    requires var p := Run(cfg, Initial(cfg, generated), acts);
             LiveIn(p.active, tokenId, sid)
             && (p.shuttingDown || !TokenLive(cfg, p.mem, tokenId) || p.active[tokenId][sid].clientKey in p.mem.blocked)
    ensures k < |acts| && sid in HandedOut(cfg, Run(cfg, Initial(cfg, generated), acts[..k]), acts[k])
    ensures forall j :: k < j < |acts| ==> !Restarts(acts[j])
  {
    hide Restarts, Run, HandedOut, Initial, TokenLive, LiveIn;
    NoSessionEscapes(cfg, generated, acts, tokenId, sid);
    InitialGuarded(cfg, generated);
    NeverReusedAllNew(cfg, Initial(cfg, generated), acts);
    InitialCollects(cfg, generated);
    k := CollectedWereHandedOut(cfg, Initial(cfg, generated), acts, sid);
  }

  lemma InitialCollects(cfg: Setup, generated: string)
    ensures Initial(cfg, generated).collected == {}
  {
  }

  lemma {:induction false} NeverReusedAllNew(cfg: Setup, p: Plane, acts: seq<Action>)
    requires ValidSetup(cfg) && Guarded(cfg, p) && NeverReusedAlong(cfg, p, acts)
    ensures AllNew(cfg, p, acts) && Inv(cfg, p)
    decreases |acts|
  {
    hide ValidSetup, Inv, NeverReused, StoresNew, Step, IssuedGood, NoEscape, CollectedGood;
    if acts != [] {
      NeverReusedIsNew(cfg, p, acts[0]);
      StepGuarded(cfg, p, acts[0]);
      NeverReusedAllNew(cfg, Step(cfg, p, acts[0]), acts[1..]);
    }
  }
}
