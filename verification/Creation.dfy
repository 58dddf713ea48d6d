/** What the owner is answered when asking for a token, and what the answer is good for. */
module Creation {
  import opened Wrappers
  import opened Text
  import opened Config
  import opened ControlState
  import opened TokenLedger
  import opened Migration
  import opened ControlInvariant
  import opened ControlRuns
  import opened SecretReuse

  // ---------------------------------------------------------------- the request

  /** A name that is empty once cleaned is replaced. */
  lemma CleanNameExact(name: string)
    ensures var clean := SanitizeDisplay(name, 128);
            CleanName(name) == if clean != "" then clean else "Подключение"
  {
    hide SanitizeDisplay;
  }

  /** Why a request is refused before anything is looked up. */
  predicate Malformed(cfg: Setup, a: CreateArgs, e: CreateError) {
    var raw, key := Trim(a.secret), Trim(a.key);
    if a.key != "" && !IsIdentifier(key, 96) then e == BadKey
    else if raw != "" && !("tgpr_" <= raw && 32 <= |raw| <= 128 && cfg.decodes(raw[5..])) then e == BadSecret
    else a.key != "" && raw == "" && e == SecretRequired
  }

  /** The secret that the owner gets back: the one supplied, trimmed, or the one drawn. */
  function SecretOf(a: CreateArgs): string {
    if Trim(a.secret) != "" then Trim(a.secret) else a.drawnSecret
  }

  lemma RequestedExact(cfg: Setup, a: CreateArgs)
    ensures forall e :: Requested(cfg, a) == Err(e) <==> Malformed(cfg, a, e)
    ensures Requested(cfg, a).Ok? ==>
              var (token, secret, key) := Requested(cfg, a).value;
              && secret == SecretOf(a) && (key != "" <==> a.key != "")
              && token == Token(if a.key != "" then cfg.requestId(Trim(a.key)) else a.drawnId, CleanName(a.name),
                                cfg.tokenHash(SecretOf(a)), a.createdAt)
  {
    hide Trim, CleanName;
    assert Trim("") == "" by { TrimFixpoint(""); }
  }

  // ------------------------------------------------------------------ the answer

  /** The tokens that a keyed request can meet. */
  predicate Met(cfg: Setup, m: Durable, id: string, t: Token) {
    t in cfg.base + m.added && t.hash !in m.revoked && t.id == id
  }

  /** Why a well-formed request is refused, in the order in which this is found out. */
  ghost predicate Refused(cfg: Setup, m: Durable, a: CreateArgs, ok: bool, e: CreateError) {
    var id, hash := cfg.requestId(Trim(a.key)), cfg.tokenHash(SecretOf(a));
    if a.key != "" && id in m.deleted then e == DeletedKey
    else if a.key != "" && exists t :: Met(cfg, m, id, t) && t.hash != hash then e == OtherSecret
    else if a.key != "" && exists t :: Met(cfg, m, id, t) && SanitizeDisplay(t.name, 128) != CleanName(a.name) then
      e == OtherName
    else if a.key != "" && exists t :: Met(cfg, m, id, t) then false
    else if |AllTokens(cfg, m)| >= 1024 then e == TooManyTokens
    else !ok && e == CreateNotPersisted
  }

  /** The answer to every request: an error exactly for these reasons; the token that a keyed
      request meets, as a replay; or a new token, under the key's id or the drawn one, with the cleaned
      name, the given time and the hash of the secret that is handed back. */
  lemma CreationExact(cfg: Setup, p: Plane, a: CreateArgs, ok: bool)
    requires ValidSetup(cfg) && Inv(cfg, p)
    ensures var r := CreateToken(cfg, p, a, ok).1;
            && (forall e :: r == Err(e) <==>
                  Malformed(cfg, a, e) || ((forall f :: !Malformed(cfg, a, f)) && Refused(cfg, p.mem, a, ok, e)))
            && (r.Ok? ==> r.value.secret == SecretOf(a) && r.value.token.hash == cfg.tokenHash(r.value.secret))
            && (r.Ok? && r.value.replayed ==>
                  a.key != "" && Met(cfg, p.mem, cfg.requestId(Trim(a.key)), r.value.token))
            && (r.Ok? && !r.value.replayed ==>
                  && r.value.token.id == (if a.key != "" then cfg.requestId(Trim(a.key)) else a.drawnId)
                  && r.value.token.name == CleanName(a.name) && r.value.token.createdAt == a.createdAt)
  {
    hide Trim, CleanName, SanitizeDisplay, AllTokens, Requested, Malformed, AddToken, SecretOf, ValidSetup, Inv;
    RequestedExact(cfg, a);
    if Requested(cfg, a).Ok? {
      var (token, secret, key) := Requested(cfg, a).value;
      if key != "" {
        ReplayMeets(cfg, p, token, secret);
      }
    }
  }

  /** At most one token is met, and it decides the answer. */
  lemma ReplayMeets(cfg: Setup, p: Plane, token: Token, secret: string)
    requires ValidSetup(cfg) && Inv(cfg, p)
    ensures var found := FindId(AllTokens(cfg, p.mem), token.id);
            && (found.Some? <==> exists t :: Met(cfg, p.mem, token.id, t))
            && (forall t :: Met(cfg, p.mem, token.id, t) ==> found == Some(t))
            && (found.Some? ==> Met(cfg, p.mem, token.id, found.value))
  {
    hide AllTokens, NormalToken, ClientsGood, SessionsGood, AuthorizedGood, TimersGood, DiskGood, TokensGood;
    var found := FindId(AllTokens(cfg, p.mem), token.id);
    if found.Some? {
      AllTokensExact(cfg, p.mem, found.value);
    }
    forall t | Met(cfg, p.mem, token.id, t) ensures found == Some(t) {
      AllTokensExact(cfg, p.mem, t);
      AuthorizesIt(cfg, p.mem, t);
    }
  }

  lemma SecretAuthorizes(cfg: Setup, p: Plane, a: CreateArgs, ok: bool)
    requires ValidSetup(cfg) && Inv(cfg, p) && MintedId(a.drawnId) && StoresNew(cfg, p, DoCreate(a, ok))
    requires CreateToken(cfg, p, a, ok).1.Ok?
    ensures var (q, r) := CreateToken(cfg, p, a, ok);
            Authorize(cfg, q.mem, cfg.tokenHash(r.value.secret)) == Some(r.value.token)
  {
    hide Trim, AllTokens, CreateToken, AddToken, NormalToken, ClientsGood, SessionsGood, AuthorizedGood, TimersGood,
      DiskGood, TokensGood, NewHash, NewId, SecretOf, Malformed, Refused, Met, Authorize;
    CreationExact(cfg, p, a, ok);
    CreatedOrSame(cfg, p, a, ok);
    var (q, r) := CreateToken(cfg, p, a, ok);
    var token := r.value.token;
    if r.value.replayed {
      assert Met(cfg, p.mem, cfg.requestId(Trim(a.key)), token);
      assert token in AllTokens(cfg, p.mem) by { MetIsVisible(cfg, p.mem, cfg.requestId(Trim(a.key)), token); }
      AuthorizesIt(cfg, p.mem, token);
    } else {
      CreatedIsNew(cfg, p, a);
      CreateInv(cfg, p, DoCreate(a, true));
      StepCreates(cfg, p, a);
      AddedIsStored(p, token);
      NewTokenVisible(cfg, q, token);
      AuthorizesIt(cfg, q.mem, token);
    }
  }

  /** The secret that is handed back opens the relay: right after a creation that succeeds, be it of
      a new token or a replay, it authorizes the token of the answer, unless the token is new and its
      secret is not. */
  lemma SecretAuthorizesExact(cfg: Setup, p: Plane, a: CreateArgs, ok: bool)
    requires ValidSetup(cfg) && Inv(cfg, p) && MintedId(a.drawnId) && CreateToken(cfg, p, a, ok).1.Ok?
    requires a.key == "" ==> NewId(cfg, p.mem, a.drawnId)
    ensures var (q, r) := CreateToken(cfg, p, a, ok);
            var hash := cfg.tokenHash(r.value.secret);
            Authorize(cfg, q.mem, hash) == Some(r.value.token) <==> r.value.replayed || NewHash(cfg, p.mem, hash)
  {
    hide Trim, AllTokens, CreateToken, AddToken, NormalToken, ClientsGood, SessionsGood, AuthorizedGood, TimersGood,
      DiskGood, TokensGood, NewHash, NewId, SecretOf, Malformed, Refused, Met, Authorize, StoresNew;
    CreationExact(cfg, p, a, ok);
    CreatedOrSame(cfg, p, a, ok);
    var (q, r) := CreateToken(cfg, p, a, ok);
    var token := r.value.token;
    if r.value.replayed || NewHash(cfg, p.mem, token.hash) {
      CreatedStoresNew(cfg, p, a, ok);
      SecretAuthorizes(cfg, p, a, ok);
    } else {
      CreatedIsNew(cfg, p, a);
      CreatedId(cfg, p, a);
      OldSecret(cfg, p, token);
    }
  }

  lemma CreatedId(cfg: Setup, p: Plane, a: CreateArgs)
    requires ValidSetup(cfg) && Inv(cfg, p) && MintedId(a.drawnId)
    requires CreateToken(cfg, p, a, true).1.Ok? && !CreateToken(cfg, p, a, true).1.value.replayed
    requires a.key == "" ==> NewId(cfg, p.mem, a.drawnId)
    ensures NewId(cfg, p.mem, CreateToken(cfg, p, a, true).1.value.token.id)
  {
    hide Trim, AllTokens, CreateToken, AddToken, NormalToken, ClientsGood, SessionsGood, AuthorizedGood, TimersGood,
      DiskGood, TokensGood, NewId, SecretOf, Malformed, Refused, Met;
    CreationExact(cfg, p, a, true);
    CreatedIsNew(cfg, p, a);
    if a.key != "" {
      RequestedExact(cfg, a);
      KeyedIdIsNew(cfg, p.mem, CreateToken(cfg, p, a, true).1.value.token.id);
    }
  }

  lemma CreatedStoresNew(cfg: Setup, p: Plane, a: CreateArgs, ok: bool)
    requires ValidSetup(cfg) && Inv(cfg, p) && CreateToken(cfg, p, a, ok).1.Ok?
    requires a.key == "" ==> NewId(cfg, p.mem, a.drawnId)
    requires var c := CreateToken(cfg, p, a, ok).1.value; c.replayed || NewHash(cfg, p.mem, c.token.hash)
    ensures StoresNew(cfg, p, DoCreate(a, ok))
  {
  }

  /** A token that is stored with the hash of another, or with a revoked one, is not authorized by it. */
  lemma OldSecret(cfg: Setup, p: Plane, token: Token)
    requires !NewHash(cfg, p.mem, token.hash) && NewId(cfg, p.mem, token.id)
    ensures Authorize(cfg, AddToken(p, token).mem, token.hash) != Some(token)
  {
    hide Visible, Stop;
    assert cfg.base + (p.mem.added + [token]) == cfg.base + p.mem.added + [token];
    Shadowed(cfg.base + p.mem.added, p.mem.revoked, {}, token);
  }

  lemma {:induction false} Shadowed(ts: seq<Token>, revoked: seq<string>, seen: set<string>, token: Token)
    requires HasHash(ts, token.hash) && token !in ts
    ensures token !in Visible(ts + [token], revoked, seen)
  {
    var all := ts + [token];
    assert all[0] == ts[0] && all[1..] == ts[1..] + [token];
    if ts[0].hash == token.hash {
      VisibleSound(all[1..], revoked, seen);
      VisibleSound(all[1..], revoked, seen + {token.hash});
      assert ts[0] in ts;
    } else {
      assert HasHash(ts[1..], token.hash) && token !in ts[1..];
      Shadowed(ts[1..], revoked, seen, token);
      Shadowed(ts[1..], revoked, seen + {ts[0].hash}, token);
    }
  }

  lemma MetIsVisible(cfg: Setup, m: Durable, id: string, t: Token)
    requires ValidBase(cfg.base) && TokensGood(cfg, m.added, m.revoked, m.deleted) && Met(cfg, m, id, t)
    ensures t in AllTokens(cfg, m)
  {
    hide AllTokens, TokensGood, ValidBase;
    AllTokensExact(cfg, m, t);
  }

  lemma CreatedOrSame(cfg: Setup, p: Plane, a: CreateArgs, ok: bool)
    ensures var (q, r) := CreateToken(cfg, p, a, ok);
            (r.Ok? && r.value.replayed ==> q == p) && (r.Ok? && !r.value.replayed ==> ok)
  {
    hide AllTokens, Requested, Replay, AddToken;
    if Requested(cfg, a).Ok? {
      ReplaysAreReplayed(cfg, p.mem, a);
    }
  }

  lemma StepCreates(cfg: Setup, p: Plane, a: CreateArgs)
    requires MintedId(a.drawnId)
    ensures Step(cfg, p, DoCreate(a, true)) == CreateToken(cfg, p, a, true).0
  {
    hide CreateToken, MintedId;
  }

  lemma AddedIsStored(p: Plane, token: Token)
    ensures token in AddToken(p, token).mem.added
  {
    hide Stop;
  }
}
