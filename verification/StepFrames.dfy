/** What each step of the control plane leaves alone. */
module StepFrames {
  import opened Wrappers
  import opened Text
  import opened Config
  import opened ControlState

  /** What only the named steps may change in memory; a restart is not among these steps. */
  predicate FramedMemory(a: Action, m: Durable, n: Durable) {
    && (!a.DoCreate? && !a.DoDelete? ==> n.added == m.added)
    && (!a.DoDelete? ==> n.revoked == m.revoked && n.deleted == m.deleted)
    && (!a.DoDelete? && !a.DoBlock? && !a.DoRegister? ==> n.blocked == m.blocked)
  }

  /** The same of the rest of the plane. */
  predicate FramedRest(a: Action, p: Plane, q: Plane) {
    && (p.synced ==> q.synced)
    && (!a.DoRegister? && !a.DoUnregister? ==> q.active == p.active && q.closures == p.closures)
    && (!a.DoRegister? ==> q.nextSession == p.nextSession)
    && (!a.DoDelete? && !a.DoBlock? && !a.DoDisconnect? && !a.DoBeginShutdown? ==> q.collected == p.collected)
    && (!a.DoBeginShutdown? ==> q.shuttingDown == p.shuttingDown)
    && (!a.DoAuthorize? ==> q.authorized == p.authorized)
    && (!a.DoCreate? ==> q.issued == p.issued)
  }

  predicate Framed(a: Action, p: Plane, q: Plane) {
    FramedMemory(a, p.mem, q.mem) && FramedRest(a, p, q)
  }

  lemma NothingTouched(a: Action, p: Plane)
    ensures Framed(a, p, p)
  {
  }

  /** Write-behind state, timers and the file are nobody's. */
  lemma FilesAndTimers(a: Action, p: Plane, q: Plane, disk: Option<Durable>, synced: bool, dirty: bool, timers: Timers)
    requires Framed(a, p, q) && (q.synced ==> synced)
    ensures Framed(a, p, q.(disk := disk, synced := synced, dirty := dirty, timers := timers))
  {
    hide FramedMemory;
  }

  lemma CriticalWrite(a: Action, p: Plane, q: Plane, ok: bool)
    requires Framed(a, p, q)
    ensures Framed(a, p, PersistCritical(q, ok))
  {
    hide Framed, Stop;
    FilesAndTimers(a, p, q, Some(q.mem), true, false, Stop(q.timers));
  }

  lemma ScheduledWrite(a: Action, p: Plane, q: Plane)
    requires Framed(a, p, q)
    ensures Framed(a, p, Schedule(q))
  {
    hide Framed, Arm;
    FilesAndTimers(a, p, q, q.disk, q.synced, true, q.timers);
    FilesAndTimers(a, p, q, q.disk, q.synced, true, Arm(q.timers));
  }

  lemma CreateFramed(cfg: Setup, p: Plane, args: CreateArgs, ok: bool)
    ensures Framed(DoCreate(args, ok), p, CreateToken(cfg, p, args, ok).0)
  {
    hide AllTokens, Requested, Replay, AddToken, Framed;
    var a := DoCreate(args, ok);
    NothingTouched(a, p);
    if Requested(cfg, args).Ok? {
      AddFramed(a, p, Requested(cfg, args).value.0);
    }
  }

  lemma AddFramed(a: Action, p: Plane, token: Token)
    requires a.DoCreate?
    ensures Framed(a, p, AddToken(p, token))
  {
    hide PersistCritical;
    CriticalWrite(a, p, p.(mem := p.mem.(added := p.mem.added + [token])), true);
  }

  lemma DeleteFramed(cfg: Setup, p: Plane, id: string, ok: bool)
    ensures Framed(DoDelete(id, ok), p, DeleteToken(cfg, p, id, ok).0)
  {
    hide AllTokens, Refusal, Deletion, Trim, PersistCritical, Framed;
    var a, found := DoDelete(id, ok), FindId(AllTokens(cfg, p.mem), Trim(id));
    NothingTouched(a, p);
    if found.Some? {
      DeletedFramed(a, p, Deletion(cfg, p.mem, found.value), p.collected + SessionsOf(p.active, Trim(id)));
    }
  }

  lemma DeletedFramed(a: Action, p: Plane, m: Durable, collected: set<nat>)
    requires a.DoDelete?
    ensures Framed(a, p, PersistCritical(p.(mem := m), true).(collected := collected))
  {
    hide PersistCritical;
    CriticalWrite(a, p, p.(mem := m), true);
  }

  lemma BlockFramed(p: Plane, t: string, d: string, block: bool, now: nat, ok: bool)
    ensures Framed(DoBlock(t, d, block, now, ok), p, SetBlocked(p, t, d, block, now, ok).0)
  {
    hide DeviceKey, DeviceSessions, PersistCritical, Framed;
    var a, key := DoBlock(t, d, block, now, ok), DeviceKey(t, d);
    NothingTouched(a, p);
    if key.Some? {
      var blocked := if block then p.mem.blocked[key.value := now] else p.mem.blocked - {key.value};
      BlockedFramed(a, p, blocked, p.collected + if block then DeviceSessions(p.active, key.value) else {});
    }
  }

  lemma BlockedFramed(a: Action, p: Plane, blocked: map<string, nat>, collected: set<nat>)
    requires a.DoBlock?
    ensures Framed(a, p, PersistCritical(p.(mem := p.mem.(blocked := blocked)), true).(collected := collected))
  {
    hide PersistCritical;
    CriticalWrite(a, p, p.(mem := p.mem.(blocked := blocked)), true);
  }

  lemma DisconnectFramed(p: Plane, t: string, d: string)
    ensures Framed(DoDisconnect(t, d), p, Disconnect(p, t, d).0)
  {
    hide DeviceKey, DeviceSessions, FramedMemory;
    NothingTouched(DoDisconnect(t, d), p);
  }

  /** Migration touches records, blocks and sessions only. */
  lemma {:induction false} MergeFrame(p: Plane, keys: seq<string>, i: Identity)
    ensures var q := MergeKeys(p, keys, i);
            q == p.(mem := p.mem.(clients := q.mem.clients, blocked := q.mem.blocked), active := q.active)
    decreases |keys|
  {
    if keys != [] {
      var newKey := ClientKey(i.tokenId, i.deviceId);
      var q := if keys[0] == newKey then p else MergeKey(p, keys[0], newKey, i.tokenId, i.deviceId);
      hide MergeClient, Relabel;
      MergeFrame(q, keys[1..], i);
    }
  }

  lemma RegisterFramed(cfg: Setup, p: Plane, token: Token, r: Request, now: nat, order: seq<string>)
    ensures Framed(DoRegister(token, r, now, order), p, Register(cfg, p, token, r, now, order).0)
  {
    hide Admits, IdentityOf, Registered, Schedule, Framed;
    var a, i := DoRegister(token, r, now, order), IdentityOf(token.id, r);
    NothingTouched(a, p);
    RegisteredFramed(a, p, i, r, now, order);
    ScheduledWrite(a, p, Registered(p, i, r, now, order));
  }

  lemma RegisteredFramed(a: Action, p: Plane, i: Identity, r: Request, now: nat, order: seq<string>)
    requires a.DoRegister?
    ensures Framed(a, p, Registered(p, i, r, now, order))
  {
    hide OldKeys, Link, ClientKey, ApplyHeaders, Located, MergeKeys;
    var pruned := p.(mem := Prune(p.mem, order));
    MergeFrame(pruned, OldKeys(pruned.mem, i, r), i);
  }

  lemma UnregisterFramed(p: Plane, sid: nat, now: nat)
    ensures Framed(DoUnregister(sid, now), p, Unregister(p, sid, now))
  {
    hide Unlink, Schedule;
    var a := DoUnregister(sid, now);
    if sid in p.closures {
      var c := p.closures[sid];
      ScheduledWrite(a, p, p.(active := Unlink(p.active, c.tokenId, sid), mem := Touch(p.mem, c.clientKey, now),
                              closures := p.closures - {sid}));
    }
  }

  lemma LocateFramed(p: Plane, key: string, l: Lookup)
    ensures Framed(DoLocate(key, l), p, Locate(p, key, l))
  {
    hide Located, Found, Schedule, Framed;
    var a := DoLocate(key, l);
    NothingTouched(a, p);
    if key in p.mem.clients && Found(p.mem.clients[key], l).Some? {
      LocatedFramed(a, p, p.mem.clients[key := Located(p.mem.clients[key], Found(p.mem.clients[key], l).value)]);
    }
  }

  lemma LocatedFramed(a: Action, p: Plane, clients: map<string, Client>)
    ensures Framed(a, p, Schedule(p.(mem := p.mem.(clients := clients))))
  {
    hide Schedule;
    ScheduledWrite(a, p, p.(mem := p.mem.(clients := clients)));
  }

  lemma FireFramed(p: Plane, t: nat)
    ensures Framed(DoFire(t), p, TimerFires(p, t))
  {
    hide Framed;
    var a := DoFire(t);
    NothingTouched(a, p);
    FilesAndTimers(a, p, p, p.disk, p.synced, p.dirty, TimerFires(p, t).timers);
  }

  /** A write at preparation, by a callback or at the end of shutdown. */
  lemma WriteFramed(a: Action, p: Plane, t: nat, ok: bool)
    ensures Framed(a, p, PersistCritical(p, ok)) && Framed(a, p, FlushCallback(p, t, ok))
        && Framed(a, p, FinishShutdown(p, ok))
  {
    hide Framed, Arm, Stop;
    NothingTouched(a, p);
    CriticalWrite(a, p, p, ok);
    var q, r := FlushCallback(p, t, ok), FinishShutdown(p, ok);
    FilesAndTimers(a, p, p, q.disk, q.synced, q.dirty, q.timers);
    FilesAndTimers(a, p, p, r.disk, r.synced, r.dirty, r.timers);
  }

  lemma BeginFramed(p: Plane)
    ensures Framed(DoBeginShutdown, p, BeginShutdown(p))
  {
    hide AllSessions, FramedMemory;
    NothingTouched(DoBeginShutdown, p);
  }

  lemma AuthorizeFramed(a: Action, p: Plane, tokens: set<Token>)
    requires a.DoAuthorize?
    ensures Framed(a, p, p.(authorized := tokens))
  {
    hide FramedMemory;
    NothingTouched(a, p);
  }

  /** The frame of every step. */
  lemma StepFrame(cfg: Setup, p: Plane, a: Action)
    requires !a.DoRestart?
    ensures Framed(a, p, Step(cfg, p, a))
  {
    hide CreateToken, Register, DeleteToken, PersistCritical, SetBlocked, Disconnect, Unregister, Locate, TimerFires,
      FlushCallback, BeginShutdown, FinishShutdown, Authorize, Enabled, Framed;
    NothingTouched(a, p);
    match a
    case DoPrepare(ok) => WriteFramed(a, p, 0, ok);
    case DoAuthorize(hash) =>
      var t := Authorize(cfg, p.mem, hash);
      if t.Some? {
        AuthorizeFramed(a, p, p.authorized + {t.value});
      }
    case DoCreate(args, ok) => CreateFramed(cfg, p, args, ok);
    case DoDelete(id, ok) => DeleteFramed(cfg, p, id, ok);
    case DoBlock(t, d, block, now, ok) => BlockFramed(p, t, d, block, now, ok);
    case DoDisconnect(t, d) => DisconnectFramed(p, t, d);
    case DoRegister(token, r, now, order) => RegisterFramed(cfg, p, token, r, now, order);
    case DoUnregister(sid, now) => UnregisterFramed(p, sid, now);
    case DoLocate(key, l) => LocateFramed(p, key, l);
    case DoFire(t) => FireFramed(p, t);
    case DoFlush(t, ok) => WriteFramed(a, p, t, ok);
    case DoBeginShutdown => BeginFramed(p);
    case DoFinishShutdown(ok) => WriteFramed(a, p, 0, ok);
  }

  lemma StepDeletes(cfg: Setup, p: Plane, id: string, ok: bool)
    ensures Step(cfg, p, DoDelete(id, ok)) == DeleteToken(cfg, p, id, ok).0
  {
    hide DeleteToken;
  }

  lemma StepRestarts(cfg: Setup, p: Plane, generated: string)
    ensures Step(cfg, p, DoRestart(generated)) == if ValidInstanceId(generated) then Restart(cfg, p, generated) else p
  {
    hide ValidInstanceId, Restart;
  }
}
