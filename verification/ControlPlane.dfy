/** The control plane as the program runs it: one object, one method for every locked
    region, proved to leave the state that the model on values says. The outcome of each
    write is a parameter. */
module ControlPlane {
  import opened Wrappers
  import opened Text
  import opened Config
  import opened ControlState
  import opened StepFrames
  import opened Eviction

  lemma {:induction false} VisibleStep(done: seq<Token>, ts: seq<Token>, revoked: seq<string>, seen: set<string>)
    requires ts != []
    ensures var t := ts[0];
            done + Visible(ts, revoked, seen)
            == if t.hash == "" || t.hash in revoked || t.hash in seen then done + Visible(ts[1..], revoked, seen)
               else (done + [t]) + Visible(ts[1..], revoked, seen + {t.hash})
  {
  }

  lemma {:induction false} DropHashSnoc(ts: seq<Token>, t: Token, hash: string)
    ensures DropHash(ts + [t], hash) == DropHash(ts, hash) + if t.hash == hash then [] else [t]
  {
    if ts == [] {
      assert [] + [t] == [t];
    } else {
      assert (ts + [t])[1..] == ts[1..] + [t];
      DropHashSnoc(ts[1..], t, hash);
    }
  }

  class ControlPlane {
    const cfg: Setup
    /** Everything the state file holds but the added tokens. */
    var state: Durable
    /** The added tokens are the first `tokenCount` elements of an array with room behind them. */
    var tokens: array<Token>
    var tokenCount: nat
    ghost var added: seq<Token>
    var active: Active
    var nextSession: nat
    var closures: map<nat, Closure>
    var dirty: bool
    var flush: Option<nat>
    var shuttingDown: bool

    // the environment: timers, the state file and what the proofs remember
    ghost var armed: set<nat>
    ghost var fired: set<nat>
    var nextTimer: nat
    ghost var disk: Option<Durable>
    ghost var synced: bool
    ghost var authorized: set<Token>
    ghost var collected: set<nat>
    ghost var issued: map<string, string>

    ghost predicate Valid()
      reads this`state, this`tokens, this`tokenCount, this`added, tokens
    {
      && state.version == STATE_VERSION && state.added == []
      && tokenCount <= tokens.Length && added == tokens[..tokenCount]
    }

    ghost function Memory(): Durable
      reads this`state, this`added
    {
      state.(added := added)
    }

    ghost function State(): Plane
      reads this
    {
      Plane(Memory(), active, nextSession, closures, dirty, Timers(flush, armed, fired, nextTimer), shuttingDown,
            disk, synced, authorized, collected, issued)
    }

    // ------------------------------------------------------ construction

    constructor (cfg: Setup, mem: Durable, file: Option<Durable>, ghost history: map<string, string>)
      requires mem.version == STATE_VERSION
      ensures Valid() && this.cfg == cfg && fresh(tokens)
      ensures State() == Fresh(mem, file, history)
    {
      this.cfg := cfg;
      state := mem.(added := []);
      tokens := new Token[|mem.added|](i requires 0 <= i < |mem.added| => mem.added[i]);
      tokenCount, added := |mem.added|, mem.added;
      active, nextSession, closures, dirty, flush, shuttingDown := map[], 0, map[], false, None, false;
      armed, fired, nextTimer := {}, {}, 0;
      disk, synced, authorized, collected, issued := file, false, {}, {}, history;
      new;
      assert tokens[..tokenCount] == mem.added;
    }

    // ------------------------------------------------------- persistence

    method Persist(ok: bool) returns (done: bool)
      requires Valid()
      modifies this`disk, this`synced, this`state
      ensures Valid() && done == ok
      ensures State() == if ok then Persisted(old(State())) else old(State())
    {
      state := state.(version := STATE_VERSION);
      if ok {
        disk, synced := Some(Memory()), true;
      }
      done := ok;
    }

    method StopFlush()
      modifies this`flush, this`armed
      ensures State() == old(State()).(timers := Stop(old(State()).timers))
    {
      if flush.Some? {
        armed := armed - {flush.value};
        flush := None;
      }
    }

    method PersistCritical(ok: bool) returns (done: bool)
      requires Valid()
      modifies this`disk, this`synced, this`state, this`dirty, this`flush, this`armed
      ensures Valid() && done == ok
      ensures State() == ControlState.PersistCritical(old(State()), ok)
    {
      done := Persist(ok);
      if !done {
        return;
      }
      dirty := false;
      StopFlush();
    }

    method StartTimer()
      modifies this`flush, this`armed, this`nextTimer
      ensures State() == old(State()).(timers := Arm(old(State()).timers))
    {
      flush := Some(nextTimer);
      armed := armed + {nextTimer};
      nextTimer := nextTimer + 1;
    }

    method ScheduleClientPersist()
      modifies this`dirty, this`flush, this`armed, this`nextTimer
      ensures State() == Schedule(old(State()))
    {
      dirty := true;
      if shuttingDown {
        return;
      }
      if flush.Some? {
        return;
      }
      StartTimer();
    }

    /** The callback of timer `t`, entering its critical section. */
    method FlushClientState(ghost t: nat, ok: bool)
      requires Valid() && t in fired
      modifies this`disk, this`synced, this`state, this`dirty, this`flush, this`armed, this`fired, this`nextTimer
      ensures Valid() && State() == FlushCallback(old(State()), t, ok)
    {
      fired := fired - {t};
      flush := None;
      if !dirty {
        return;
      }
      var done := Persist(ok);
      if !done {
        StartTimer();
        return;
      }
      dirty := false;
    }

    // ------------------------------------------------------------ tokens

    method AllTokensLocked() returns (result: seq<Token>)
      requires Valid()
      ensures result == AllTokens(cfg, Memory())
    {
      var all := cfg.base + tokens[..tokenCount];
      result := [];
      var seen: set<string> := {};
      var i := 0;
      while i < |all|
        invariant 0 <= i <= |all|
        invariant result + Visible(all[i..], state.revoked, seen) == AllTokens(cfg, Memory())
      {
        VisibleStep(result, all[i..], state.revoked, seen);
        assert all[i..][1..] == all[i + 1..];
        var token := all[i];
        i := i + 1;
        if token.hash == "" || token.hash in state.revoked {
          continue;
        }
        if token.hash in seen {
          continue;
        }
        seen := seen + {token.hash};
        result := result + [token];
      }
      assert all[i..] == [];
    }

    method FindToken(id: string) returns (found: Option<Token>)
      requires Valid()
      ensures found == FindId(AllTokens(cfg, Memory()), id)
    {
      var all := AllTokensLocked();
      found := None;
      var i := 0;
      while i < |all|
        invariant 0 <= i <= |all| && found.None?
        invariant FindId(all[i..], id) == FindId(all, id)
      {
        if all[i].id == id {
          found := Some(all[i]);
          return;
        }
        assert all[i..][1..] == all[i + 1..];
        i := i + 1;
      }
    }

    method FindHashToken(hash: string) returns (found: Option<Token>)
      requires Valid()
      ensures found == FindHash(AllTokens(cfg, Memory()), hash)
    {
      var all := AllTokensLocked();
      found := None;
      var i := 0;
      while i < |all|
        invariant 0 <= i <= |all| && found.None?
        invariant FindHash(all[i..], hash) == FindHash(all, hash)
      {
        if all[i].hash == hash {
          return Some(all[i]);
        }
        assert all[i..][1..] == all[i + 1..];
        i := i + 1;
      }
    }

    method AuthorizeClient(hash: string) returns (found: Option<Token>)
      requires Valid()
      modifies this`authorized
      ensures found == Authorize(cfg, old(Memory()), hash)
      ensures State() == Step(cfg, old(State()), DoAuthorize(hash))
    {
      if hash in state.revoked {
        return None;
      }
      found := FindHashToken(hash);
      if found.Some? {
        authorized := authorized + {found.value};
      }
    }

    /** Cleans and checks a request before the lock is taken. */
    method ParseRequest(a: CreateArgs) returns (r: Result<(Token, string, string), CreateError>)
      ensures r == Requested(cfg, a)
    {
      var raw, key := Trim(a.secret), SanitizeIdentifier(a.key, 96);
      if a.key != "" && key == "" {
        return Err(BadKey);
      }
      if raw != "" && !ValidClientSecret(cfg, raw) {
        return Err(BadSecret);
      }
      if key != "" && raw == "" {
        return Err(SecretRequired);
      }
      if raw == "" {
        raw := a.drawnSecret;
      }
      var id := a.drawnId;
      if key != "" {
        id := cfg.requestId(key);
      }
      return Ok((Token(id, CleanName(a.name), cfg.tokenHash(raw), a.createdAt), raw, key));
    }

    /** Looks for a token under the id that a keyed request derives. */
    method FindReplay(token: Token, secret: string) returns (r: Option<Result<Created, CreateError>>)
      requires Valid()
      ensures r == Replay(cfg, Memory(), token, secret)
    {
      if token.id in state.deleted {
        return Some(Err(DeletedKey));
      }
      var existing := FindToken(token.id);
      if existing.None? {
        return None;
      }
      if existing.value.hash != token.hash {
        return Some(Err(OtherSecret));
      }
      if SanitizeDisplay(existing.value.name, 128) != token.name {
        return Some(Err(OtherName));
      }
      return Some(Ok(Created(existing.value, secret, true)));
    }

    /** Appends behind the tokens, in place while there is room and else in a larger array. */
    method AppendToken(token: Token)
      requires Valid()
      modifies this`tokens, this`tokenCount, this`added, tokens
      ensures Valid() && (tokens == old(tokens) || fresh(tokens))
      ensures tokenCount == old(tokenCount) + 1 && added == old(added) + [token]
    {
      if tokenCount == tokens.Length {
        var larger := new Token[2 * tokenCount + 1](i => token);
        for i := 0 to tokenCount
          invariant forall j :: 0 <= j < i ==> larger[j] == added[j]
          invariant tokens == old(tokens) && tokenCount == old(tokenCount) && Valid() && fresh(larger)
          modifies larger
        {
          larger[i] := tokens[i];
        }
        tokens := larger;
        assert tokens[..tokenCount] == added;
      }
      tokens[tokenCount] := token;
      tokenCount, added := tokenCount + 1, added + [token];
      assert tokens[..tokenCount - 1] == old(added);
    }

    /** Cuts off the last token. */
    method CutToken()
      requires Valid() && tokenCount > 0
      modifies this`tokenCount, this`added
      ensures Valid() && added == old(added)[..|old(added)| - 1]
    {
      tokenCount, added := tokenCount - 1, added[..|added| - 1];
    }

    /** A new token is appended and, when the state cannot be written, cut off again. */
    method StoreToken(token: Token, ok: bool)
      requires Valid()
      modifies this`state, this`tokens, this`tokenCount, this`added, tokens
      modifies this`disk, this`synced, this`dirty, this`flush, this`armed
      ensures Valid() && (tokens == old(tokens) || fresh(tokens))
      ensures var m := old(Memory()).(added := old(added) + [token]);
              State() == if ok then ControlState.PersistCritical(old(State()).(mem := m), true) else old(State())
    {
      hide ControlState.PersistCritical;
      AppendToken(token);
      PersistFails(State());
      var done := PersistCritical(ok);
      if !done {
        CutToken();
      }
    }

    /** Whatever is refused leaves everything as it was. */
    method CreateToken(a: CreateArgs, ok: bool) returns (r: Result<Created, CreateError>)
      requires Valid()
      modifies this`state, this`tokens, this`tokenCount, this`added, tokens
      modifies this`disk, this`synced, this`dirty, this`flush, this`armed, this`issued
      ensures Valid() && (tokens == old(tokens) || fresh(tokens))
      ensures (State(), r) == ControlState.CreateToken(cfg, old(State()), a, ok)
      ensures r.Err? || r.value.replayed ==> State() == old(State())
    {
      hide AllTokens, Stop, Requested, Replay;
      var request := ParseRequest(a);
      if request.Err? {
        return Err(request.error);
      }
      var (token, secret, key) := request.value;
      if key != "" {
        var replay := FindReplay(token, secret);
        if replay.Some? {
          return replay.value;
        }
      }
      var all := AllTokensLocked();
      if |all| >= MAX_TOKENS {
        return Err(TooManyTokens);
      }
      StoreToken(token, ok);
      if !ok {
        return Err(CreateNotPersisted);
      }
      issued := issued[token.hash := token.id];
      return Ok(Created(token, secret, false));
    }

    method IsBaseHash(hash: string) returns (base: bool)
      ensures base == HasHash(cfg.base, hash)
    {
      base := false;
      for i := 0 to |cfg.base|
        invariant !base && forall j :: 0 <= j < i ==> cfg.base[j].hash != hash
      {
        if cfg.base[i].hash == hash {
          return true;
        }
      }
    }

    /** Removes the clients of a token and their blocks, and returns what was removed. */
    method RemoveClients(id: string) returns (removedClients: map<string, Client>, removedBlocked: map<string, nat>)
      modifies this`state
      ensures removedClients == TokenClients(old(state.clients), id, old(state.clients).Keys)
      ensures removedBlocked == RealBlocks(old(state.blocked), removedClients.Keys)
      ensures state == old(state).(clients := old(state.clients) - removedClients.Keys,
                                   blocked := old(state.blocked) - removedBlocked.Keys)
    {
      removedClients, removedBlocked := map[], map[];
      var clients, blocked := state.clients, state.blocked;
      var todo := clients.Keys;
      ghost var all := clients.Keys;
      NothingRemoved(clients, blocked, id);
      hide TokenClients, RealBlocks;
      assert all - todo == {} && removedClients.Keys == {};
      while todo != {}
        invariant state == old(state) && todo <= all && todo <= clients.Keys
        invariant removedClients == TokenClients(old(state.clients), id, all - todo)
        invariant removedBlocked == RealBlocks(old(state.blocked), removedClients.Keys)
        invariant clients == old(state.clients) - removedClients.Keys
            && blocked == old(state.blocked) - removedBlocked.Keys
      {
        var key :| key in todo;
        assert all - (todo - {key}) == (all - todo) + {key};
        RemovedMore(old(state.clients), id, all - todo, key);
        UnblockedMore(old(state.blocked), removedClients.Keys, key);
        todo := todo - {key};
        if clients[key].tokenId == id {
          assert removedClients[key := clients[key]].Keys == removedClients.Keys + {key};
          removedClients := removedClients[key := clients[key]];
          if key in blocked && blocked[key] != 0 {
            removedBlocked := removedBlocked[key := blocked[key]];
            blocked := blocked - {key};
          }
          clients := clients - {key};
        }
      }
      assert all - todo == all;
      state := state.(clients := clients, blocked := blocked);
    }

    /** A copy of the tokens in an array of its own. */
    method CloneTokens() returns (copy: array<Token>)
      requires Valid()
      ensures fresh(copy) && copy[..] == added
    {
      copy := new Token[tokenCount](i requires 0 <= i < tokenCount <= tokens.Length reads this, tokens => tokens[i]);
    }

    /** Puts the copied tokens back. */
    method RestoreTokens(copy: array<Token>)
      modifies this`tokens, this`tokenCount, this`added
      ensures tokens == copy && tokenCount == copy.Length && added == copy[..]
    {
      tokens, tokenCount, added := copy, copy.Length, copy[..];
    }

    /** Filters the tokens where they are. */
    method DropToken(hash: string)
      requires Valid()
      modifies this`tokenCount, this`added, tokens
      ensures Valid() && added == DropHash(old(added), hash)
    {
      tokenCount := FilterInPlace(tokens, tokenCount, hash);
      added := tokens[..tokenCount];
    }

    /** Takes a token out of the lists, the added ones in place. A limit that is met after that
        restores what was changed; for the added tokens only the copy can. */
    method RevokeToken(found: Token, copy: array<Token>) returns (err: Option<DeleteError>)
      requires Valid() && copy != tokens && copy[..] == added
      modifies this`state, this`tokens, this`tokenCount, this`added, tokens
      ensures Valid() && tokens == (if err.Some? then copy else old(tokens)) && copy[..] == old(added)
      ensures Memory() == if err.Some? then old(Memory()) else Revocation(cfg, old(Memory()), found)
      ensures var revoked, deleted := old(state.revoked), old(state.deleted);
              err == if HasHash(cfg.base, found.hash) && found.hash !in revoked && |revoked| >= MAX_TOMBSTONES then
                       Some(TooManyRevocations)
                     else if "tok_" <= found.id && found.id !in deleted && |deleted| >= MAX_TOMBSTONES then
                       Some(TooManyTombstones)
                     else None
    {
      hide HasHash, DropHash;
      var hash, id := found.hash, found.id;
      var baseToken := IsBaseHash(hash);
      var previousRevoked := state.revoked;
      DropToken(hash);
      if baseToken && hash !in state.revoked {
        if |state.revoked| >= MAX_TOMBSTONES {
          RestoreTokens(copy);
          return Some(TooManyRevocations);
        }
        state := state.(revoked := state.revoked + [hash]);
      }
      if "tok_" <= id && id !in state.deleted {
        if |state.deleted| >= MAX_TOMBSTONES {
          RestoreTokens(copy);
          state := state.(revoked := previousRevoked);
          return Some(TooManyTombstones);
        }
        state := state.(deleted := state.deleted + [id]);
      }
      err := None;
    }

    /** Removes what belongs to the token, writes, and puts everything back when the write fails. */
    method CommitDeletion(found: Token, copy: array<Token>, previousRevoked: seq<string>, previousDeleted: seq<string>,
                          ok: bool,
                          ghost before: Durable)
      requires Valid() && copy != tokens && copy[..] == before.added
      requires previousRevoked == before.revoked && previousDeleted == before.deleted
      requires Memory() == Revocation(cfg, before, found)
      modifies this`state, this`tokens, this`tokenCount, this`added
      modifies this`disk, this`synced, this`dirty, this`flush, this`armed
      ensures Valid() && (tokens == old(tokens) || tokens == copy)
      ensures var m := Deletion(cfg, before, found);
              State() == if ok then ControlState.PersistCritical(old(State()).(mem := m), true)
                         else old(State()).(mem := before)
    {
      hide ControlState.PersistCritical, HasHash, DropHash;
      var removedClients, removedBlocked := RemoveClients(found.id);
      DeletionMaps(before.clients, before.blocked, found.id, state.clients, state.blocked, removedClients,
                   removedBlocked);
      assert Memory() == Deletion(cfg, before, found);
      hide Deletion, Revocation, TokenClients, RealBlocks;
      PersistFails(State());
      ghost var sum := (state.clients + removedClients, state.blocked + removedBlocked);
      PutBack(before.clients, found.id, removedClients, before.blocked, removedBlocked);
      assert sum == (before.clients, before.blocked);
      var done := PersistCritical(ok);
      if !done {
        UndoDeletion(copy, previousRevoked, previousDeleted, removedClients, removedBlocked, before);
      }
    }

    /** Puts back what a deletion removed. */
    method UndoDeletion(copy: array<Token>, previousRevoked: seq<string>, previousDeleted: seq<string>,
                        removedClients: map<string, Client>, removedBlocked: map<string, nat>, ghost before: Durable)
      requires Valid() && copy[..] == before.added && previousRevoked == before.revoked
          && previousDeleted == before.deleted
      requires state.clients + removedClients == before.clients && state.blocked + removedBlocked == before.blocked
      requires Memory() == before.(added := added, revoked := state.revoked, deleted := state.deleted,
                                   clients := state.clients, blocked := state.blocked)
      modifies this`state, this`tokens, this`tokenCount, this`added
      ensures Valid() && tokens == copy && State() == old(State()).(mem := before)
    {
      RestoreTokens(copy);
      state := state.(revoked := previousRevoked, deleted := previousDeleted,
                      clients := state.clients + removedClients, blocked := state.blocked + removedBlocked);
    }

    /** Deletes a token that has been found. The added tokens are filtered in the array that holds
        them, which overwrites it; a limit that is met after that, or a failed write at the very
        end, restores everything that was changed. */
    method DeleteFound(found: Token, ok: bool) returns (err: Option<DeleteError>)
      requires Valid()
      modifies this`state, this`tokens, this`tokenCount, this`added, tokens
      modifies this`disk, this`synced, this`dirty, this`flush, this`armed
      ensures Valid() && (tokens == old(tokens) || fresh(tokens))
      ensures err == Refusal(cfg, old(Memory()), found, ok)
      ensures var m := Deletion(cfg, old(Memory()), found);
              State() == if err.Some? then old(State()) else ControlState.PersistCritical(old(State()).(mem := m), true)
    {
      hide HasHash, Deletion, Revocation, ControlState.PersistCritical;
      var previousAdded := CloneTokens();
      var previousRevoked, previousDeleted := state.revoked, state.deleted;
      ghost var before := State();
      err := RevokeToken(found, previousAdded);
      if err.Some? {
        return;
      }
      assert State() == before.(mem := Revocation(cfg, before.mem, found));
      CommitDeletion(found, previousAdded, previousRevoked, previousDeleted, ok, before.mem);
      if !ok {
        return Some(DeleteNotPersisted);
      }
    }

    method DeleteToken(id: string, ok: bool) returns (r: Result<set<nat>, DeleteError>)
      requires Valid()
      modifies this`state, this`tokens, this`tokenCount, this`added, tokens
      modifies this`disk, this`synced, this`dirty, this`flush, this`armed, this`collected
      ensures Valid() && (tokens == old(tokens) || fresh(tokens))
      ensures (State(), r) == ControlState.DeleteToken(cfg, old(State()), id, ok)
      ensures r.Err? ==> State() == old(State())
    {
      hide AllTokens, Refusal, Deletion, Trim, ControlState.PersistCritical;
      var cleanId := Trim(id);
      if cleanId == "" {
        return Err(IdRequired);
      }
      var found := FindToken(cleanId);
      if found.None? {
        return Err(NoSuchToken);
      }
      var refused := DeleteFound(found.value, ok);
      if refused.Some? {
        return Err(refused.value);
      }
      PersistKeeps(old(State()).(mem := Deletion(cfg, old(Memory()), found.value)));
      var closers := if cleanId in active then active[cleanId].Keys else {};
      collected := collected + closers;
      return Ok(closers);
    }

    // ------------------------------------------------------------ devices

    method DeviceClosers(key: string) returns (closers: set<nat>)
      ensures closers == DeviceSessions(active, key)
    {
      closers := {};
      var todo := active.Keys;
      while todo != {}
        invariant todo <= active.Keys
        invariant closers == DeviceSessions(Within(active, active.Keys - todo), key)
      {
        var t :| t in todo;
        var found := BucketClosers(active[t], key);
        DeviceSessionsGrow(active, active.Keys - todo, t, key);
        assert active.Keys - (todo - {t}) == (active.Keys - todo) + {t};
        todo := todo - {t};
        closers := closers + found;
      }
      assert Within(active, active.Keys - todo) == active;
    }

    /** Changes a block and writes it, or puts the old one back. */
    method WriteBlock(key: string, block: bool, now: nat, ok: bool)
      requires Valid()
      modifies this`state, this`disk, this`synced, this`dirty, this`flush, this`armed
      ensures Valid()
      ensures var blocked := if block then old(state.blocked)[key := now] else old(state.blocked) - {key};
              var m := old(Memory()).(blocked := blocked);
              State() == if ok then ControlState.PersistCritical(old(State()).(mem := m), true) else old(State())
    {
      hide ControlState.PersistCritical;
      var existed := key in state.blocked;
      var previous := if existed then state.blocked[key] else 0;
      SetBlock(key, block, now);
      PersistFails(State());
      var done := PersistCritical(ok);
      if !done {
        BlockPutBack(old(state.blocked), key, block, now);
        SetBlock(key, existed, previous);
      }
    }

    method SetBlock(key: string, block: bool, at: nat)
      modifies this`state
      ensures state == old(state).(blocked :=
          if block then old(state.blocked)[key := at] else old(state.blocked) - {key})
    {
      if block {
        state := state.(blocked := state.blocked[key := at]);
      } else {
        state := state.(blocked := state.blocked - {key});
      }
    }

    method SetDeviceBlocked(tokenId: string, deviceId: string, block: bool, now: nat, ok: bool)
        returns (r: Result<set<nat>, DeviceError>)
      requires Valid()
      modifies this`state, this`disk, this`synced, this`dirty, this`flush, this`armed, this`collected
      ensures Valid() && (State(), r) == SetBlocked(old(State()), tokenId, deviceId, block, now, ok)
      ensures r.Err? ==> State() == old(State())
    {
      hide ControlState.PersistCritical, DeviceKey, DeviceSessions;
      var deviceKey := DeviceKey(tokenId, deviceId);
      if deviceKey.None? {
        return Err(BadDevice);
      }
      var key := deviceKey.value;
      if key !in state.clients {
        return Err(NoSuchDevice);
      }
      WriteBlock(key, block, now, ok);
      if !ok {
        return Err(BlockNotPersisted);
      }
      var closers: set<nat> := {};
      if block {
        closers := DeviceClosers(key);
      }
      PersistKeeps(old(State()).(mem := Memory()));
      collected := collected + closers;
      return Ok(closers);
    }

    method DisconnectDevice(tokenId: string, deviceId: string) returns (r: Result<set<nat>, DeviceError>)
      modifies this`collected
      ensures (State(), r) == Disconnect(old(State()), tokenId, deviceId)
    {
      var deviceKey := DeviceKey(tokenId, deviceId);
      if deviceKey.None? {
        return Err(BadDevice);
      }
      if deviceKey.value !in state.clients {
        return Err(NoSuchDevice);
      }
      var closers := DeviceClosers(deviceKey.value);
      collected := collected + closers;
      return Ok(closers);
    }

    // ------------------------------------------------------- registration

    /** Evicts clients when the directory is full; the order it chooses is returned. */
    method PruneClients() returns (ghost order: seq<string>)
      requires Valid()
      modifies this`state
      ensures Valid()
      ensures EvictionOrder(order, old(state.clients), ActiveKeys(active))
      ensures state == Prune(old(state), order)
    {
      hide EvictionOrder, ActiveKeys, Prune, Elements;
      if |state.clients| < MAX_CLIENTS {
        order := OrderExists(state.clients, ActiveKeys(active));
        PruneUnfolds(state, order);
        return;
      }
      var items := EvictionCandidates(state.clients, ActiveKeys(active));
      order := items;
      OrderSize(items, state.clients, ActiveKeys(active));
      PruneUnfolds(state, items);
      Evict(items, |state.clients| - MAX_CLIENTS + 1);
    }

    method Evict(items: seq<string>, remove: nat)
      requires remove <= |items|
      modifies this`state
      ensures var gone := Elements(items[..remove]);
              state == old(state).(clients := old(state.clients) - gone, blocked := old(state.blocked) - gone)
    {
      var clients, blocked := state.clients, state.blocked;
      for index := 0 to remove
        invariant clients == state.clients - Elements(items[..index])
            && blocked == state.blocked - Elements(items[..index])
      {
        assert items[..index + 1] == items[..index] + [items[index]];
        assert Elements(items[..index + 1]) == Elements(items[..index]) + {items[index]};
        clients := clients - {items[index]};
        blocked := blocked - {items[index]};
      }
      state := state.(clients := clients, blocked := blocked);
    }

    method MergeClientKey(oldKey: string, newKey: string, tokenId: string, deviceId: string)
      requires Valid() && oldKey != newKey
      modifies this`state, this`active
      ensures Valid()
      ensures State() == MergeKey(old(State()), oldKey, newKey, tokenId, deviceId)
    {
      hide MergeClient;
      if oldKey !in state.clients {
        return;
      }
      var source := state.clients[oldKey];
      var destination: Client;
      if newKey !in state.clients {
        destination := source.(key := newKey, tokenId := tokenId, deviceId := deviceId);
      } else {
        destination := MergeTrackedClient(state.clients[newKey], source);
      }
      var clients, blocked := state.clients[newKey := destination] - {oldKey}, state.blocked;
      if oldKey in blocked && blocked[oldKey] != 0 {
        var blockedAt := blocked[oldKey];
        if newKey !in blocked || blocked[newKey] == 0 || blockedAt < blocked[newKey] {
          blocked := blocked[newKey := blockedAt];
        }
        blocked := blocked - {oldKey};
      }
      state := state.(clients := clients, blocked := blocked);
      RelabelSessions(oldKey, newKey);
    }

    method RelabelSessions(oldKey: string, newKey: string)
      modifies this`active
      ensures active == Relabel(old(active), oldKey, newKey)
    {
      var todo := active.Keys;
      while todo != {}
        invariant todo <= active.Keys == old(active.Keys)
        invariant forall t :: t in active ==>
          active[t] == if t in todo then old(active)[t] else Relabel(old(active), oldKey, newKey)[t]
      {
        var t :| t in todo;
        todo := todo - {t};
        var bucket := RelabelBucket(active[t], oldKey, newKey);
        active := active[t := bucket];
      }
    }

    method MigrateClientIdentity(i: Identity, r: Request)
      requires Valid()
      modifies this`state, this`active
      ensures Valid()
      ensures State() == Migrate(old(State()), i, r)
    {
      hide MergeKey, LegacyMatches;
      var newKey := ClientKey(i.tokenId, i.deviceId);
      var oldKeys: seq<string> := [];
      if i.previousId != "" {
        oldKeys := oldKeys + [ClientKey(i.tokenId, i.previousId)];
      }
      if i.deviceId != i.legacyId {
        var legacyKey := ClientKey(i.tokenId, i.legacyId);
        if legacyKey in state.clients && LegacyMatches(state.clients[legacyKey], r) {
          oldKeys := oldKeys + [legacyKey];
        }
      }
      assert oldKeys == OldKeys(Memory(), i, r);
      ghost var goal := MergeKeys(State(), oldKeys, i);
      var j := 0;
      while j < |oldKeys|
        invariant 0 <= j <= |oldKeys| && Valid() && MergeKeys(State(), oldKeys[j..], i) == goal
      {
        assert oldKeys[j..][1..] == oldKeys[j + 1..];
        if oldKeys[j] != newKey {
          MergeClientKey(oldKeys[j], newKey, i.tokenId, i.deviceId);
        }
        j := j + 1;
      }
    }

    /** Registers a session after its dial: what authorization and the block list said before
        the dial is checked again under the lock. */
    method RegisterSession(token: Token, r: Request, now: nat) returns (sid: Option<nat>, ghost order: seq<string>)
      requires Valid()
      modifies this`state, this`active, this`nextSession, this`closures, this`dirty, this`flush, this`armed,
          this`nextTimer
      ensures Valid() && EvictionOrder(order, old(state.clients), ActiveKeys(old(active)))
      ensures (State(), sid) == Register(cfg, old(State()), token, r, now, order)
    {
      hide Admits, EvictionOrder, IdentityOf, Schedule, Entered, Placed, ClientKey, ActiveKeys;
      order := OrderExists(state.clients, ActiveKeys(active));
      var admitted := SessionAdmitted(token, r);
      if !admitted {
        return None, order;
      }
      var i := IdentityOf(token.id, r);
      order := RecordSession(i, r, now);
      ghost var recorded := State();
      ScheduleClientPersist();
      FillCachedPlace(ClientKey(i.tokenId, i.deviceId), r, recorded);
      sid := Some(nextSession);
    }

    /** What may have changed during the dial: shutdown, the token, the block list. */
    method SessionAdmitted(token: Token, r: Request) returns (b: bool)
      requires Valid()
      ensures b == Admits(cfg, State(), token, r)
    {
      hide TokenActive, IdentityOf, BlockedIdentity;
      if shuttingDown {
        return false;
      }
      var live := ClientTokenActive(token.hash);
      if !live {
        return false;
      }
      var i := IdentityOf(token.id, r);
      BlocksDecide(state, Memory(), i);
      b := !BlockedIdentity(state, i);
    }

    /** Prunes, migrates, refreshes the client record and links the session. */
    method RecordSession(i: Identity, r: Request, now: nat) returns (ghost order: seq<string>)
      requires Valid()
      modifies this`state, this`active, this`nextSession, this`closures
      ensures Valid() && EvictionOrder(order, old(state.clients), ActiveKeys(old(active)))
      ensures nextSession == old(nextSession) + 1 && State() == Entered(old(State()), i, r, now, order)
    {
      hide Migrate, Prune, Recorded, EvictionOrder, Link, ClientKey, ActiveKeys;
      order := PruneClients();
      PruneFrame(old(state), added, order);
      assert State() == old(State()).(mem := Prune(old(Memory()), order));
      ghost var pruned := State();
      MigrateClientIdentity(i, r);
      MergeFrame(pruned, OldKeys(pruned.mem, i, r), i);
      assert Migrate(pruned, i, r) == MergeKeys(pruned, OldKeys(pruned.mem, i, r), i)
          by { MigrateUnfolds(pruned, i, r); }
      EnterClient(i, r, now);
    }

    method EnterClient(i: Identity, r: Request, now: nat)
      requires Valid()
      modifies this`state, this`active, this`nextSession, this`closures
      ensures Valid() && nextSession == old(nextSession) + 1
      ensures var sid, key := old(nextSession) + 1, ClientKey(i.tokenId, i.deviceId);
              State() == old(State()).(mem := Recorded(old(Memory()), i, r, now),
                                       active := Link(old(active), i.tokenId, sid, key),
                                       nextSession := sid, closures := old(closures)[sid := Closure(i.tokenId, key)])
    {
      hide Recorded, Link, ClientKey;
      RecordedFrame(state, added, i, r, now);
      state := Recorded(state, i, r, now);
      OpenSession(i.tokenId, ClientKey(i.tokenId, i.deviceId));
    }

    /** The next session id, its entry under the token and its closing function. */
    method OpenSession(tokenId: string, key: string)
      requires Valid()
      modifies this`active, this`nextSession, this`closures
      ensures Valid() && nextSession == old(nextSession) + 1
      ensures active == Link(old(active), tokenId, nextSession, key)
      ensures closures == old(closures)[nextSession := Closure(tokenId, key)]
    {
      hide Link;
      nextSession := nextSession + 1;
      LinkSession(tokenId, nextSession, key);
      closures := closures[nextSession := Closure(tokenId, key)];
    }

    /** A place from the cache is filled in after the state has been scheduled, and scheduled
        again. */
    method FillCachedPlace(key: string, r: Request, ghost recorded: Plane)
      requires Valid() && State() == Schedule(recorded)
      modifies this`state, this`dirty, this`flush, this`armed, this`nextTimer
      ensures Valid() && State() == Schedule(recorded.(mem := Placed(recorded.mem, key, r)))
    {
      hide Schedule, Located;
      ScheduleFrame(recorded, Placed(recorded.mem, key, r));
      if key in state.clients && r.remoteIp != "" && state.clients[key].meta[COUNTRY] == "" && r.cached.Some? {
        state := state.(clients := state.clients[key := Located(state.clients[key], r.cached.value)]);
        ScheduleClientPersist();
      }
    }

    method LinkSession(tokenId: string, id: nat, key: string)
      modifies this`active
      ensures active == Link(old(active), tokenId, id, key)
    {
      var byToken: map<nat, Session> := map[];
      if tokenId in active {
        byToken := active[tokenId];
      }
      active := active[tokenId := byToken[id := Session(key)]];
    }

    method ClientTokenActive(hash: string) returns (b: bool)
      requires Valid()
      ensures b == TokenActive(cfg, Memory(), hash)
    {
      if hash == "" || hash in state.revoked {
        return false;
      }
      var found := FindHashToken(hash);
      b := found.Some?;
    }

    /** The closure that registration returned for `sid`; only its first call has an effect. */
    method UnregisterSession(sid: nat, now: nat)
      requires Valid()
      modifies this`state, this`active, this`closures, this`dirty, this`flush, this`armed, this`nextTimer
      ensures Valid() && State() == Unregister(old(State()), sid, now)
    {
      hide Schedule, Unlink, Touch;
      if sid !in closures {
        return;
      }
      CloseSession(sid, now);
      ScheduleClientPersist();
    }

    method CloseSession(sid: nat, now: nat)
      requires Valid() && sid in closures
      modifies this`state, this`active, this`closures
      ensures Valid()
      ensures var p := old(State());
              var c := p.closures[sid];
              State() == p.(active := Unlink(p.active, c.tokenId, sid), mem := Touch(p.mem, c.clientKey, now),
                            closures := p.closures - {sid})
    {
      hide Unlink, Touch;
      var c := closures[sid];
      closures := closures - {sid};
      UnlinkSession(c.tokenId, sid);
      TouchFrame(state, added, c.clientKey, now);
      TouchClient(c.clientKey, now);
    }

    method UnlinkSession(tokenId: string, sid: nat)
      modifies this`active
      ensures active == Unlink(old(active), tokenId, sid)
    {
      if tokenId in active {
        var sessions := active[tokenId] - {sid};
        active := active[tokenId := sessions];
        if sessions == map[] {
          active := active - {tokenId};
        }
      }
      assert active == Unlink(old(active), tokenId, sid);
    }

    method TouchClient(key: string, now: nat)
      modifies this`state
      ensures state == Touch(old(state), key, now)
    {
      if key in state.clients {
        state := state.(clients := state.clients[key := state.clients[key].(lastSeen := now)]);
      }
    }

    /** A lookup that ended with a cache entry. */
    method LocationFromCache(key: string, place: Place)
      requires Valid()
      modifies this`state, this`dirty, this`flush, this`armed, this`nextTimer
      ensures Valid() && State() == Locate(old(State()), key, FromCache(place))
    {
      hide Schedule;
      if key in state.clients {
        state := state.(clients := state.clients[key := Located(state.clients[key], place)]);
        ScheduleClientPersist();
      }
    }

    /** A lookup that ended with an answer for an address. */
    method LocationResolved(key: string, ip: string, place: Place)
      requires Valid()
      modifies this`state, this`dirty, this`flush, this`armed, this`nextTimer
      ensures Valid() && State() == Locate(old(State()), key, Resolved(ip, place))
    {
      hide Schedule, SanitizeDisplay;
      if place.country == "" && place.city == "" {
        return;
      }
      if key in state.clients && state.clients[key].meta[REMOTE_IP] == ip {
        var clean := Place(SanitizeDisplay(place.country, 128), SanitizeDisplay(place.city, 128));
        state := state.(clients := state.clients[key := Located(state.clients[key], clean)]);
        ScheduleClientPersist();
      }
    }

    // ----------------------------------------------------------- shutdown

    method ShutdownBegins() returns (closers: set<nat>)
      modifies this`shuttingDown, this`collected
      ensures State() == BeginShutdown(old(State())) && closers == AllSessions(active)
      ensures forall sid :: sid in closers <==> exists t :: LiveIn(active, t, sid)
    {
      AllSessionsLive(active);
      shuttingDown := true;
      closers := AllSessions(active);
      collected := collected + closers;
    }

    method ShutdownFinishes(ok: bool) returns (done: bool)
      requires Valid()
      modifies this`state, this`disk, this`synced, this`dirty, this`flush, this`armed
      ensures Valid() && State() == FinishShutdown(old(State()), ok)
      ensures done == (ok || !old(dirty))
    {
      StopFlush();
      if !dirty {
        return true;
      }
      done := Persist(ok);
      if !done {
        return;
      }
      dirty := false;
    }
  }

  /** Checks the state file and the configuration and builds the control plane. */
  method Open(cfg: Setup, disk: Option<Durable>, generated: string, ghost issued: map<string, string>)
    returns (r: Result<ControlPlane, StartError>)
    ensures r.Err? <==> Start(cfg, disk, generated).Err?
    ensures r.Err? ==> r.error == Start(cfg, disk, generated).error
    ensures r.Ok? ==> fresh(r.value) && r.value.Valid() && r.value.cfg == cfg
                      && r.value.State() == Fresh(Start(cfg, disk, generated).value, disk, issued)
  {
    hide Loadable;
    var loaded := EMPTY_STATE;
    if disk.Some? {
      if !Loadable(disk.value) {
        return Err(InvalidState);
      }
      loaded := disk.value.(version := STATE_VERSION);
    }
    var all := cfg.base + loaded.added;
    var matches := ValidateBy(all, |all|, t => true, HashOf, StableTokenId);
    if !matches {
      return Err(ConflictsWithConfig);
    }
    if cfg.configuredId != "" {
      if loaded.instanceId != "" && loaded.instanceId != cfg.configuredId {
        return Err(ConflictingIdentity);
      }
      loaded := loaded.(instanceId := cfg.configuredId);
    }
    if loaded.instanceId == "" {
      loaded := loaded.(instanceId := generated);
    }
    var control := new ControlPlane(cfg, loaded, disk, issued);
    return Ok(control);
  }

  // ----------------------------------------------------- helpers on values

  lemma OrderSize(order: seq<string>, clients: map<string, Client>, live: set<string>)
    requires EvictionOrder(order, clients, live)
    ensures |order| == |clients|
  {
  }

  lemma PruneUnfolds(m: Durable, order: seq<string>)
    ensures |m.clients| < MAX_CLIENTS ==> Prune(m, order) == m
    ensures |order| == |m.clients| >= MAX_CLIENTS ==>
              var gone := Elements(order[..|m.clients| - MAX_CLIENTS + 1]);
              Prune(m, order) == m.(clients := m.clients - gone, blocked := m.blocked - gone)
  {
    if |m.clients| < MAX_CLIENTS {
      assert Elements(order[..0]) == {};
      assert m.clients - {} == m.clients && m.blocked - {} == m.blocked;
    }
  }

  function Within(active: Active, tokens: set<string>): Active {
    map t | t in active && t in tokens :: active[t]
  }

  lemma DeviceSessionsGrow(active: Active, tokens: set<string>, t: string, key: string)
    requires t in active
    ensures DeviceSessions(Within(active, tokens + {t}), key)
         == DeviceSessions(Within(active, tokens), key)
             + (set sid | sid in active[t] && active[t][sid].clientKey == key)
  {
    var more, less := Within(active, tokens + {t}), Within(active, tokens);
    forall sid | sid in DeviceSessions(more, key)
      ensures sid in DeviceSessions(less, key) + (set s | s in active[t] && active[t][s].clientKey == key)
    {
      var u :| u in more && sid in more[u] && more[u][sid].clientKey == key;
      assert u != t ==> u in less && less[u] == more[u];
    }
    forall sid | sid in DeviceSessions(less, key) ensures sid in DeviceSessions(more, key) {
      var u :| u in less && sid in less[u] && less[u][sid].clientKey == key;
      assert u in more && more[u] == less[u];
    }
    forall sid | sid in active[t] && active[t][sid].clientKey == key ensures sid in DeviceSessions(more, key) {
      assert t in more && more[t] == active[t];
    }
  }

  method BucketClosers(bucket: map<nat, Session>, key: string) returns (closers: set<nat>)
    ensures closers == set sid | sid in bucket && bucket[sid].clientKey == key
  {
    closers := {};
    var todo := bucket.Keys;
    while todo != {}
      invariant todo <= bucket.Keys
      invariant closers == set sid | sid in bucket && sid !in todo && bucket[sid].clientKey == key
    {
      var sid :| sid in todo;
      todo := todo - {sid};
      if bucket[sid].clientKey == key {
        closers := closers + {sid};
      }
    }
  }

  method RelabelBucket(bucket: map<nat, Session>, oldKey: string, newKey: string) returns (r: map<nat, Session>)
    ensures r == map sid | sid in bucket :: if bucket[sid].clientKey == oldKey then Session(newKey) else bucket[sid]
  {
    r := bucket;
    var todo := bucket.Keys;
    while todo != {}
      invariant todo <= bucket.Keys == r.Keys
      invariant forall sid :: sid in bucket ==>
        r[sid] == if sid !in todo && bucket[sid].clientKey == oldKey then Session(newKey) else bucket[sid]
    {
      var sid :| sid in todo;
      todo := todo - {sid};
      if r[sid].clientKey == oldKey {
        r := r[sid := Session(newKey)];
      }
    }
  }

  /** Merges the stamps, then fills the empty fields one by one. */
  method MergeTrackedClient(destination: Client, source: Client) returns (r: Client)
    ensures r == MergeClient(destination, source)
    ensures r.key == destination.key && r.tokenId == destination.tokenId && r.deviceId == destination.deviceId
    ensures forall j :: 0 <= j < FIELDS ==>
              r.meta[j] == if destination.meta[j] != "" then destination.meta[j] else source.meta[j]
    ensures r.lastSeen == if source.lastSeen > destination.lastSeen then source.lastSeen else destination.lastSeen
    ensures destination.firstSeen == 0 ==> r.firstSeen == source.firstSeen
    ensures source.firstSeen == 0 ==> r.firstSeen == destination.firstSeen
    ensures r.firstSeen == destination.firstSeen || r.firstSeen == source.firstSeen
    ensures destination.firstSeen != 0 && source.firstSeen != 0 ==>
              r.firstSeen <= destination.firstSeen && r.firstSeen <= source.firstSeen
  {
    var first, last, meta := destination.firstSeen, destination.lastSeen, destination.meta;
    if first == 0 || (source.firstSeen != 0 && source.firstSeen < first) {
      first := source.firstSeen;
    }
    if source.lastSeen > last {
      last := source.lastSeen;
    }
    for i := 0 to FIELDS
      invariant forall j :: 0 <= j < FIELDS ==>
        meta[j] == if j < i && destination.meta[j] == "" then source.meta[j] else destination.meta[j]
    {
      if meta[i] == "" {
        meta := meta[i := source.meta[i]];
      }
    }
    assert meta == FirstNonEmpty(destination.meta, source.meta);
    r := destination.(firstSeen := first, lastSeen := last, meta := meta);
  }

  /** The clients in the order in which they are evicted. */
  method EvictionCandidates(clients: map<string, Client>, live: set<string>) returns (items: seq<string>)
    ensures EvictionOrder(items, clients, live) && |items| == |clients|
  {
    var inactive, busy := Classify(clients, live);
    var first := SortBySeen(inactive, clients);
    var second := SortBySeen(busy, clients);
    hide EvictionOrder, Distinct, SortedSeen;
    JoinedOrder(first, second, clients, live);
    items := first + second;
  }

  /** Separates the clients with a live session from the others. */
  method Classify(clients: map<string, Client>, live: set<string>) returns (inactive: seq<string>, busy: seq<string>)
    ensures Distinct(inactive) && Distinct(busy)
    ensures forall x :: x in inactive <==> x in clients && x !in live
    ensures forall x :: x in busy <==> x in clients && x in live
  {
    inactive, busy := [], [];
    var todo := clients.Keys;
    while todo != {}
      invariant todo <= clients.Keys && Distinct(inactive) && Distinct(busy)
      invariant forall x :: x in inactive <==> x in clients && x !in todo && x !in live
      invariant forall x :: x in busy <==> x in clients && x !in todo && x in live
    {
      var key :| key in todo;
      todo := todo - {key};
      if key in live {
        DistinctSnoc(busy, key);
        busy := busy + [key];
      } else {
        DistinctSnoc(inactive, key);
        inactive := inactive + [key];
      }
    }
  }

  lemma DistinctSnoc(s: seq<string>, k: string)
    requires Distinct(s) && k !in s
    ensures Distinct(s + [k])
  {
    assert forall i :: 0 <= i < |s| ==> (s + [k])[i] == s[i] && s[i] in s;
  }

  /** Filters the first `n` tokens in the array that holds them; the write index never passes
      the read index, and what lies behind it is left as it was. */
  method FilterInPlace(a: array<Token>, n: nat, hash: string) returns (kept: nat)
    requires n <= a.Length
    modifies a
    ensures kept <= n && a[..kept] == DropHash(old(a[..n]), hash) && a[kept..] == old(a[kept..])
  {
    kept := 0;
    for i := 0 to n
      invariant kept <= i && a[..kept] == DropHash(old(a[..i]), hash)
      invariant a[kept..] == old(a[kept..])
    {
      DropHashSnoc(old(a[..i]), old(a[i]), hash);
      assert old(a[..i + 1]) == old(a[..i]) + [old(a[i])];
      assert a[i] == a[kept..][i - kept] == old(a[i]);
      if a[i].hash != hash {
        ghost var before := a[kept..];
        a[kept] := a[i];
        assert a[kept + 1..] == before[1..];
        kept := kept + 1;
      }
    }
  }

  lemma TouchFrame(m: Durable, added: seq<Token>, key: string, now: nat)
    ensures Touch(m.(added := added), key, now) == Touch(m, key, now).(added := added)
    ensures Touch(m, key, now).added == m.added && Touch(m, key, now).version == m.version
  {
  }

  lemma BlockPutBack(b: map<string, nat>, key: string, block: bool, now: nat)
    ensures var c := if block then b[key := now] else b - {key};
            b == if key in b then c[key := b[key]] else c - {key}
  {
  }

  lemma PersistKeeps(p: Plane)
    ensures var q := ControlState.PersistCritical(p, true);
            q.mem == p.mem && q.active == p.active && q.collected == p.collected
  {
  }

  lemma PersistFails(p: Plane)
    ensures ControlState.PersistCritical(p, false) == p
    ensures ControlState.PersistCritical(p, true).mem == p.mem
  {
  }

  lemma ScheduleFrame(p: Plane, m: Durable)
    ensures Schedule(p).mem == p.mem && Schedule(p.(mem := m)) == Schedule(p).(mem := m)
    ensures Schedule(Schedule(p).(mem := m)) == Schedule(p.(mem := m))
  {
  }

  lemma MigrateUnfolds(p: Plane, i: Identity, r: Request)
    ensures Migrate(p, i, r) == MergeKeys(p, OldKeys(p.mem, i, r), i)
  {
  }

  lemma PruneFrame(m: Durable, added: seq<Token>, order: seq<string>)
    ensures Prune(m.(added := added), order) == Prune(m, order).(added := added)
    ensures Prune(m, order).added == m.added && Prune(m, order).version == m.version
  {
  }

  lemma RecordedFrame(m: Durable, added: seq<Token>, i: Identity, r: Request, now: nat)
    ensures Recorded(m.(added := added), i, r, now) == Recorded(m, i, r, now).(added := added)
    ensures Recorded(m, i, r, now).added == m.added && Recorded(m, i, r, now).version == m.version
  {
  }

  lemma BlocksDecide(m: Durable, n: Durable, i: Identity)
    requires n.blocked == m.blocked
    ensures BlockedIdentity(n, i) == BlockedIdentity(m, i)
  {
  }

  function TokenClients(clients: map<string, Client>, id: string, keys: set<string>): map<string, Client> {
    map k | k in clients && k in keys && clients[k].tokenId == id :: clients[k]
  }

  /** The blocks under `keys` that carry a time stamp. */
  function RealBlocks(blocked: map<string, nat>, keys: set<string>): map<string, nat> {
    map k | k in blocked && k in keys && blocked[k] != 0 :: blocked[k]
  }

  lemma AllSessionsLive(active: Active)
    ensures forall sid :: sid in AllSessions(active) <==> exists t :: LiveIn(active, t, sid)
  {
    forall sid | sid in AllSessions(active) ensures exists t :: LiveIn(active, t, sid) {
      var t :| t in active && sid in active[t];
      assert LiveIn(active, t, sid);
    }
  }

  lemma NothingRemoved(clients: map<string, Client>, blocked: map<string, nat>, id: string)
    ensures TokenClients(clients, id, {}) == map[] && RealBlocks(blocked, {}) == map[]
  {
  }

  lemma RemovedMore(clients: map<string, Client>, id: string, seen: set<string>, key: string)
    requires key in clients && key !in seen
    ensures TokenClients(clients, id, seen + {key})
            == if clients[key].tokenId == id then TokenClients(clients, id, seen)[key := clients[key]]
                else TokenClients(clients, id, seen)
  {
  }

  lemma UnblockedMore(blocked: map<string, nat>, keys: set<string>, key: string)
    ensures RealBlocks(blocked, keys).Keys <= keys
    ensures RealBlocks(blocked, keys + {key})
            == if key in blocked && blocked[key] != 0 then RealBlocks(blocked, keys)[key := blocked[key]]
                else RealBlocks(blocked, keys)
  {
  }

  lemma PutBack(clients: map<string, Client>, id: string, removed: map<string, Client>, blocked: map<string, nat>,
                unblocked: map<string, nat>)
    requires removed == TokenClients(clients, id, clients.Keys) && unblocked == RealBlocks(blocked, removed.Keys)
    ensures (clients - removed.Keys) + removed == clients && (blocked - unblocked.Keys) + unblocked == blocked
  {
  }

  lemma DeletionMaps(clients: map<string, Client>, blocked: map<string, nat>, id: string, clients': map<string, Client>,
                     blocked': map<string, nat>,
                     removed: map<string, Client>, unblocked: map<string, nat>)
    requires removed == TokenClients(clients, id, clients.Keys) && unblocked == RealBlocks(blocked, removed.Keys)
    requires clients' == clients - removed.Keys && blocked' == blocked - unblocked.Keys
    ensures var gone := set k | k in clients && clients[k].tokenId == id;
            clients' == clients - gone && blocked' == blocked - (set k | k in gone && k in blocked && blocked[k] != 0)
  {
    var gone := set k | k in clients && clients[k].tokenId == id;
    assert removed.Keys == gone;
    assert unblocked.Keys == (set k | k in gone && k in blocked && blocked[k] != 0);
  }
}
