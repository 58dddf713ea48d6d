/** Laws of the token lists: which tokens are visible, what adding and deleting one
    keeps, and what a restart needs of them. */
module TokenLedger {
  import opened Wrappers
  import opened Text
  import opened Config
  import opened ControlState

  /** What the durable token lists satisfy in every state. */
  ghost predicate TokensGood(cfg: Setup, added: seq<Token>, revoked: seq<string>, deleted: seq<string>) {
    && |added| <= MAX_TOKENS && |revoked| <= MAX_TOMBSTONES && |deleted| <= MAX_TOMBSTONES
    && (forall t :: t in added ==> NormalToken(t))
    && DistinctTokens(cfg.base + added)
    && (forall h :: h in revoked ==> HasHash(cfg.base, h))
    && (forall id :: id in deleted ==> IsIdentifier(id, 96) && "tok_" <= id)
    && (forall t :: t in cfg.base && t.hash in revoked && "tok_" <= t.id ==> t.id in deleted)
  }

  // ------------------------------------------------------------ visibility

  lemma {:induction false} VisibleSound(ts: seq<Token>, revoked: seq<string>, seen: set<string>)
    ensures forall t :: t in Visible(ts, revoked, seen) ==>
              t in ts && t.hash != "" && t.hash !in revoked && t.hash !in seen
  {
    if ts != [] {
      VisibleSound(ts[1..], revoked, seen);
      VisibleSound(ts[1..], revoked, seen + {ts[0].hash});
    }
  }

  /** Among tokens with different hashes, nothing but revocation hides one. */
  lemma {:induction false} VisibleComplete(ts: seq<Token>, revoked: seq<string>, seen: set<string>, t: Token)
    requires DistinctTokens(ts) && t in ts && t.hash != "" && t.hash !in revoked && t.hash !in seen
    ensures t in Visible(ts, revoked, seen)
  {
    if t != ts[0] {
      assert t in ts[1..];
      VisibleComplete(ts[1..], revoked, seen, t);
      VisibleComplete(ts[1..], revoked, seen + {ts[0].hash}, t);
    }
  }

  /** The last `n` tokens all count when none of them is revoked. */
  lemma {:induction false} VisibleCounts(ts: seq<Token>, revoked: seq<string>, seen: set<string>, n: nat)
    requires DistinctTokens(ts) && n <= |ts|
    requires forall i :: |ts| - n <= i < |ts| ==> ts[i].hash != "" && ts[i].hash !in revoked && ts[i].hash !in seen
    ensures |Visible(ts, revoked, seen)| >= n
  {
    if ts != [] {
      var m := if n == |ts| then n - 1 else n;
      VisibleCounts(ts[1..], revoked, seen + {ts[0].hash}, m);
      if n < |ts| {
        VisibleCounts(ts[1..], revoked, seen, m);
      }
    }
  }

  lemma NormalHasHash(t: Token)
    requires NormalToken(t)
    ensures t.hash != ""
  {
  }

  /** Exactly the stored tokens that are not revoked are visible. */
  lemma AllTokensExact(cfg: Setup, m: Durable, t: Token)
    requires ValidBase(cfg.base) && TokensGood(cfg, m.added, m.revoked, m.deleted)
    ensures t in AllTokens(cfg, m) <==> t in cfg.base + m.added && t.hash !in m.revoked
  {
    VisibleSound(cfg.base + m.added, m.revoked, {});
    if t in cfg.base + m.added && t.hash !in m.revoked {
      NormalHasHash(t);
      VisibleComplete(cfg.base + m.added, m.revoked, {}, t);
    }
  }

  lemma AddedNotRevoked(cfg: Setup, added: seq<Token>, revoked: seq<string>, deleted: seq<string>, t: Token)
    requires TokensGood(cfg, added, revoked, deleted) && t in added
    ensures t.hash !in revoked
  {
    var ts := cfg.base + added;
    var j :| 0 <= j < |added| && added[j] == t;
    assert ts[|cfg.base| + j] == t;
    forall i | 0 <= i < |cfg.base| ensures cfg.base[i].hash != t.hash {
      assert ts[i] == cfg.base[i];
    }
  }

  lemma AddedBelowCap(cfg: Setup, m: Durable)
    requires ValidBase(cfg.base) && TokensGood(cfg, m.added, m.revoked, m.deleted)
    ensures |m.added| <= |AllTokens(cfg, m)|
  {
    var ts := cfg.base + m.added;
    forall i | |ts| - |m.added| <= i < |ts|
      ensures ts[i].hash != "" && ts[i].hash !in m.revoked
    {
      assert ts[i] == m.added[i - |cfg.base|] && ts[i] in m.added;
      NormalHasHash(ts[i]);
      AddedNotRevoked(cfg, m.added, m.revoked, m.deleted, ts[i]);
    }
    VisibleCounts(ts, m.revoked, {}, |m.added|);
  }

  // ------------------------------------------------------------- addition

  /** No stored token has this hash, respectively this id. */
  predicate NewHash(cfg: Setup, m: Durable, hash: string) {
    !HasHash(cfg.base + m.added, hash)
  }

  predicate NewId(cfg: Setup, m: Durable, id: string) {
    forall t :: t in cfg.base + m.added ==> t.id != id
  }

  lemma DistinctAppend(ts: seq<Token>, t: Token)
    ensures DistinctTokens(ts + [t]) <==>
            DistinctTokens(ts) && forall u :: u in ts ==> u.id != t.id && u.hash != t.hash
  {
    var all := ts + [t];
    if DistinctTokens(all) {
      assert forall i :: 0 <= i < |ts| ==>
               ts[i] == all[i] && all[i].id != all[|ts|].id && all[i].hash != all[|ts|].hash;
    }
  }

  lemma MintedIsNormal(id: string, name: string, hash: string, createdAt: string)
    requires MintedId(id) && ValidHash(hash)
    ensures NormalToken(Token(id, name, hash, createdAt)) && "tok_" <= id
  {
    assert id[..4] == "tok_";
    assert forall i :: 0 <= i < 4 ==> id[i] == id[..4][i];
    assert forall i :: 4 <= i < |id| ==> id[i] == id[4..][i - 4];
    TrimFixpoint(id);
    ValidHashIsNormal(hash);
  }

  /** What is known of a token at the moment it is stored. */
  lemma CreatedIsNew(cfg: Setup, p: Plane, a: CreateArgs)
    requires ValidSetup(cfg) && MintedId(a.drawnId)
    requires CreateToken(cfg, p, a, true).1.Ok? && !CreateToken(cfg, p, a, true).1.value.replayed
    ensures var (q, r) := CreateToken(cfg, p, a, true);
            var token := r.value.token;
            && q == AddToken(p, token)
            && NormalToken(token) && "tok_" <= token.id
            && |AllTokens(cfg, p.mem)| < MAX_TOKENS
            && (SanitizeIdentifier(a.key, 96) != "" ==>
                  token.id !in p.mem.deleted && forall t :: t in AllTokens(cfg, p.mem) ==> t.id != token.id)
  {
    hide Requested, Replay, AllTokens, CreateToken, AddToken, NormalToken, MintedId, ValidSetup;
    CreatedCase(cfg, p, a);
    var (token, secret, key) := Requested(cfg, a).value;
    RequestedIsNormal(cfg, a);
    if key != "" {
      NoReplay(cfg, p.mem, token, secret);
    }
  }

  /** A creation that stores a token takes the last branch. */
  lemma CreatedCase(cfg: Setup, p: Plane, a: CreateArgs)
    requires CreateToken(cfg, p, a, true).1.Ok? && !CreateToken(cfg, p, a, true).1.value.replayed
    ensures Requested(cfg, a).Ok?
    ensures var (token, secret, key) := Requested(cfg, a).value;
            && CreateToken(cfg, p, a, true) == (AddToken(p, token), Ok(Created(token, secret, false)))
            && |AllTokens(cfg, p.mem)| < MAX_TOKENS
            && (key != "" ==> Replay(cfg, p.mem, token, secret).None?)
  {
    hide Requested, AllTokens, AddToken;
    ReplaysAreReplayed(cfg, p.mem, a);
    hide Replay;
  }

  lemma ReplaysAreReplayed(cfg: Setup, m: Durable, a: CreateArgs)
    requires Requested(cfg, a).Ok?
    ensures var (token, secret, _) := Requested(cfg, a).value;
            var replay := Replay(cfg, m, token, secret);
            replay.Some? && replay.value.Ok? ==> replay.value.value.replayed
  {
    hide Requested, AllTokens;
  }

  lemma RequestedIsNormal(cfg: Setup, a: CreateArgs)
    requires ValidSetup(cfg) && MintedId(a.drawnId) && Requested(cfg, a).Ok?
    ensures var (token, _, key) := Requested(cfg, a).value;
            NormalToken(token) && "tok_" <= token.id && key == SanitizeIdentifier(a.key, 96)
  {
    hide NormalToken, SanitizeIdentifier, CleanName, ValidClientSecret, Trim;
    var token := Requested(cfg, a).value.0;
    MintedIsNormal(token.id, token.name, token.hash, token.createdAt);
  }

  lemma NoReplay(cfg: Setup, m: Durable, token: Token, secret: string)
    requires Replay(cfg, m, token, secret).None?
    ensures token.id !in m.deleted && forall t :: t in AllTokens(cfg, m) ==> t.id != token.id
  {
    hide AllTokens;
  }

  /** A keyed id never collides with a stored id: a stored one is visible or, being
      revoked, is a tombstone. */
  lemma KeyedIdIsNew(cfg: Setup, m: Durable, id: string)
    requires ValidBase(cfg.base) && TokensGood(cfg, m.added, m.revoked, m.deleted)
    requires "tok_" <= id && id !in m.deleted
    requires forall t :: t in AllTokens(cfg, m) ==> t.id != id
    ensures NewId(cfg, m, id)
  {
    forall t | t in cfg.base + m.added ensures t.id != id {
      AllTokensExact(cfg, m, t);
      if t in m.added {
        AddedNotRevoked(cfg, m.added, m.revoked, m.deleted, t);
      }
    }
  }

  /** Storing a token keeps the lists good exactly when its hash and id are new. */
  lemma AdditionExact(cfg: Setup, m: Durable, token: Token)
    requires ValidBase(cfg.base) && TokensGood(cfg, m.added, m.revoked, m.deleted)
    requires NormalToken(token) && |AllTokens(cfg, m)| < MAX_TOKENS
    ensures TokensGood(cfg, m.added + [token], m.revoked, m.deleted)
            <==> NewHash(cfg, m, token.hash) && NewId(cfg, m, token.id)
  {
    AddedBelowCap(cfg, m);
    var ts := cfg.base + m.added;
    assert cfg.base + (m.added + [token]) == ts + [token];
    DistinctAppend(ts, token);
  }

  // -------------------------------------------------------------- deletion

  lemma {:induction false} DropHashExact(ts: seq<Token>, hash: string)
    ensures |DropHash(ts, hash)| <= |ts|
    ensures forall t :: t in DropHash(ts, hash) <==> t in ts && t.hash != hash
  {
    if ts != [] {
      DropHashExact(ts[1..], hash);
    }
  }

  lemma {:induction false} DropHashDistinct(base: seq<Token>, ts: seq<Token>, hash: string)
    requires DistinctTokens(base + ts)
    ensures DistinctTokens(base + DropHash(ts, hash))
    decreases |ts|
  {
    hide DistinctTokens, DropHash;
    DropHashStep(ts, hash);
    if ts != [] {
      var first, rest := [ts[0]], ts[1..];
      if ts[0].hash == hash {
        DistinctSkip(base, ts);
        DropHashDistinct(base, rest, hash);
      } else {
        Regroup(base, first, rest);
        assert ts == first + rest;
        DropHashDistinct(base + first, rest, hash);
        Regroup(base, first, DropHash(rest, hash));
      }
    }
  }

  lemma DropHashStep(ts: seq<Token>, hash: string)
    ensures DropHash(ts, hash)
            == if ts == [] then []
               else if ts[0].hash == hash then DropHash(ts[1..], hash) else [ts[0]] + DropHash(ts[1..], hash)
  {
  }

  lemma Regroup(a: seq<Token>, b: seq<Token>, c: seq<Token>)
    ensures a + (b + c) == a + b + c
  {
  }

  lemma DistinctSkip(base: seq<Token>, ts: seq<Token>)
    requires ts != [] && DistinctTokens(base + ts)
    ensures DistinctTokens(base + ts[1..])
  {
    var all, rest := base + ts, base + ts[1..];
    forall i, j | 0 <= i < j < |rest| ensures rest[i].id != rest[j].id && rest[i].hash != rest[j].hash {
      var a, b := if i < |base| then i else i + 1, if j < |base| then j else j + 1;
      assert rest[i] == all[a] && rest[j] == all[b];
    }
  }

  lemma DeletionKeepsTokens(cfg: Setup, m: Durable, found: Token)
    requires ValidBase(cfg.base) && TokensGood(cfg, m.added, m.revoked, m.deleted)
    requires found in AllTokens(cfg, m)
    requires HasHash(cfg.base, found.hash) && found.hash !in m.revoked ==> |m.revoked| < MAX_TOMBSTONES
    requires "tok_" <= found.id && found.id !in m.deleted ==> |m.deleted| < MAX_TOMBSTONES
    ensures var d := Deletion(cfg, m, found); TokensGood(cfg, d.added, d.revoked, d.deleted)
  {
    hide DropHash, DistinctTokens, NormalToken, IsIdentifier, AllTokens, HasHash;
    DropHashExact(m.added, found.hash);
    DropHashDistinct(cfg.base, m.added, found.hash);
    AllTokensExact(cfg, m, found);
    FoundIsIdentifier(cfg, m, found);
    RevokedAreBuried(cfg, m, found);
  }

  /** A deletion that revokes a configured hash leaves the tombstones of its minted tokens. */
  lemma RevokedAreBuried(cfg: Setup, m: Durable, found: Token)
    requires TokensGood(cfg, m.added, m.revoked, m.deleted) && found in cfg.base + m.added
    ensures var d := Deletion(cfg, m, found);
            forall t :: t in cfg.base && t.hash in d.revoked && "tok_" <= t.id ==> t.id in d.deleted
  {
    hide DropHash, DistinctTokens, NormalToken, IsIdentifier, HasHash;
    var d := Deletion(cfg, m, found);
    forall t | t in cfg.base && t.hash in d.revoked && "tok_" <= t.id ensures t.id in d.deleted {
      if t.hash !in m.revoked {
        SameHashSameToken(cfg, m, t, found);
      }
    }
  }

  lemma FoundIsIdentifier(cfg: Setup, m: Durable, t: Token)
    requires ValidBase(cfg.base) && TokensGood(cfg, m.added, m.revoked, m.deleted)
    requires t in cfg.base + m.added
    ensures IsIdentifier(t.id, 96) && Trim(t.id) == t.id && t.hash != ""
  {
    assert NormalToken(t);
  }

  lemma SameHashSameToken(cfg: Setup, m: Durable, t: Token, u: Token)
    requires DistinctTokens(cfg.base + m.added)
    requires t in cfg.base + m.added && u in cfg.base + m.added && (t.hash == u.hash || t.id == u.id)
    ensures t == u
  {
    var ts := cfg.base + m.added;
    var i :| 0 <= i < |ts| && ts[i] == t;
    var j :| 0 <= j < |ts| && ts[j] == u;
    assert i == j;
  }

  /** Deleting a token hides that token and no other. */
  lemma DeletionExact(cfg: Setup, m: Durable, found: Token, t: Token)
    requires ValidBase(cfg.base) && TokensGood(cfg, m.added, m.revoked, m.deleted)
    requires found in AllTokens(cfg, m)
    requires HasHash(cfg.base, found.hash) && found.hash !in m.revoked ==> |m.revoked| < MAX_TOMBSTONES
    requires "tok_" <= found.id && found.id !in m.deleted ==> |m.deleted| < MAX_TOMBSTONES
    ensures t in AllTokens(cfg, Deletion(cfg, m, found)) <==> t in AllTokens(cfg, m) && t != found
  {
    var d := Deletion(cfg, m, found);
    DeletionKeepsTokens(cfg, m, found);
    AllTokensExact(cfg, d, t);
    AllTokensExact(cfg, m, t);
    AllTokensExact(cfg, m, found);
    DropHashExact(m.added, found.hash);
    if t in cfg.base + m.added && t.hash == found.hash {
      SameHashSameToken(cfg, m, t, found);
    }
    assert found in cfg.base ==> HasHash(cfg.base, found.hash);
  }
}
