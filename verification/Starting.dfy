/** Which state files a start refuses, with which error, and what it makes of the others. */
module Starting {
  import opened Wrappers
  import opened Text
  import opened Config
  import opened ControlState

  // ------------------------------------------------------------------- the file

  predicate ConfigId(id: string) {
    id != "" && |id| <= 96 && forall i :: 0 <= i < |id| ==> ConfigIdChar(id[i])
  }

  /** A stored token has a plain id and a hash that names a digest. */
  predicate GoodStored(t: Token) {
    ConfigId(t.id) && ValidHash(NormalizeHash(t.hash))
  }

  /** A record is filed under its own token and device. */
  predicate FiledRightly(key: string, c: Client) {
    && key == c.key && key == c.tokenId + ":" + c.deviceId
    && IsIdentifier(Trim(c.deviceId), 96) && IsIdentifier(Trim(c.tokenId), 96)
  }

  /** A file is loaded exactly when its version is one of the three, its identity is absent or well
      formed, its lists are within their limits, and every entry is well formed; above all, a block
      without a client, or without a time, keeps the whole file from loading. */
  lemma LoadableExact(d: Durable)
    ensures Loadable(d) <==>
              && (d.version == 1 || d.version == 2 || d.version == 3)
              && (d.instanceId == "" || ValidInstanceId(d.instanceId))
              && |d.added| <= 1024 && |d.revoked| <= 2048 && |d.deleted| <= 2048
              && |d.clients| <= 4096 && |d.blocked| <= 4096
              && (forall t :: t in d.added ==> GoodStored(t))
              && (forall h :: h in d.revoked ==> ValidHash(NormalizeHash(h)))
              && (forall id :: id in d.deleted ==> IsIdentifier(Trim(id), 96) && "tok_" <= id)
              && (forall k :: k in d.clients ==> FiledRightly(k, d.clients[k]))
              && (forall k :: k in d.blocked ==> k in d.clients && d.blocked[k] != 0)
  {
    hide NormalizeHash, StableTokenId, SameDigest, GoodStored, ValidHash, ValidInstanceId, Trim, IsIdentifier,
      FiledRightly;
    forall t | t in d.added
      ensures GoodStored(t) <==> t.id != "" && StableTokenId(t) == t.id && SameDigest(t.hash, NormalizeHash(t.hash))
    {
      GoodStoredExact(t);
    }
    forall h | h in d.revoked
      ensures ValidHash(NormalizeHash(h)) <==> NormalizeHash(h) != "" && SameDigest(h, NormalizeHash(h))
    {
      DigestExact(h);
    }
    forall k | k in d.clients ensures FiledRightly(k, d.clients[k]) <==> GoodClient(k, d.clients[k]) {
      FiledExact(k, d.clients[k]);
    }
    IdentifierOrNone();
  }

  lemma IdentifierOrNone()
    ensures forall id :: SanitizeIdentifier(id, 96) != "" <==> IsIdentifier(Trim(id), 96)
  {
    hide Trim;
  }

  lemma FiledExact(key: string, c: Client)
    ensures FiledRightly(key, c) <==> GoodClient(key, c)
  {
    hide Trim;
  }

  /** A hash is its own digest's exactly when it names one. */
  lemma DigestExact(h: string)
    ensures SameDigest(h, NormalizeHash(h)) <==> ValidHash(NormalizeHash(h))
    ensures ValidHash(NormalizeHash(h)) ==> NormalizeHash(h) != ""
  {
    var n := NormalizeHash(h);
    if ValidHash(n) {
      ValidHashIsNormal(n);
    }
    if SameDigest(h, n) {
      StrippedDigest(h);
    }
  }

  lemma StrippedDigest(h: string)
    requires var x := StripPrefix(NormalizeHash(h), HASH_PREFIX); |x| == HEX_LENGTH && Hex(x)
    ensures ValidHash(NormalizeHash(h))
  {
    hide Trim, Lower, Hex;
    assert HASH_PREFIX <= NormalizeHash(h);
  }

  lemma GoodStoredExact(t: Token)
    ensures GoodStored(t) <==> t.id != "" && StableTokenId(t) == t.id && SameDigest(t.hash, NormalizeHash(t.hash))
  {
    hide NormalizeHash, SameDigest, Trim;
    DigestExact(t.hash);
    if ConfigId(t.id) {
      ConfigIdIsTight(t.id);
    }
    if ValidHash(NormalizeHash(t.hash)) {
      StableIdIsStable(t);
      if StableTokenId(t) == t.id {
        assert ConfigId(t.id);
      }
    }
  }

  lemma ConfigIdIsTight(id: string)
    requires ConfigId(id)
    ensures Trim(id) == id && ValidConfigId(id)
  {
    TrimFixpoint(id);
  }

  // ------------------------------------------------------------------ the start

  /** Two configured or stored tokens have one id or one hash. */
  predicate Conflicts(cfg: Setup, added: seq<Token>) {
    var ts := cfg.base + added;
    exists i, j :: 0 <= i < j < |ts|
      && (StableTokenId(ts[i]) == StableTokenId(ts[j]) || NormalizeHash(ts[i].hash) == NormalizeHash(ts[j].hash))
  }

  function StoredIn(disk: Option<Durable>): seq<Token> {
    if disk.Some? then disk.value.added else []
  }

  /** Another identity is configured than the one in the file. */
  predicate OtherIdentity(cfg: Setup, disk: Option<Durable>) {
    disk.Some? && cfg.configuredId != "" && disk.value.instanceId != "" && disk.value.instanceId != cfg.configuredId
  }

  /** A start is refused for a file that does not load, for a conflict with the configured tokens, or
      for another configured identity, in this order. Otherwise memory is the file, or nothing without
      one, in the current version and under the configured identity, else the file's, else a new one. */
  lemma StartExact(cfg: Setup, disk: Option<Durable>, generated: string)
    ensures var r := Start(cfg, disk, generated);
            && (r == Err(InvalidState) <==> disk.Some? && !Loadable(disk.value))
            && (r == Err(ConflictsWithConfig) <==>
                  (disk.Some? ==> Loadable(disk.value)) && Conflicts(cfg, StoredIn(disk)))
            && (r == Err(ConflictingIdentity) <==>
                  (disk.Some? ==> Loadable(disk.value)) && !Conflicts(cfg, StoredIn(disk)) && OtherIdentity(cfg, disk))
            && (r.Ok? ==>
                  var file := if disk.Some? then disk.value else Durable(3, "", [], [], [], map[], map[]);
                  r.value == file.(version := 3, instanceId := if cfg.configuredId != "" then cfg.configuredId
                                                               else if file.instanceId != "" then file.instanceId
                                                               else generated))
  {
    hide Loadable, MatchesConfig, Conflicts;
    if disk.Some? {
      ConflictsExact(cfg, disk.value.(version := STATE_VERSION));
    } else {
      ConflictsExact(cfg, EMPTY_STATE);
    }
  }

  lemma ProjectedAt(ts: seq<Token>, i: nat)
    requires i < |ts|
    ensures Project(ts, StableTokenId)[i] == StableTokenId(ts[i]) && Project(ts, HashOf)[i] == NormalizeHash(ts[i].hash)
  {
    hide NormalizeHash, StableTokenId;
    assert HashOf(ts[i]) == NormalizeHash(ts[i].hash);
  }

  lemma ConflictsExact(cfg: Setup, d: Durable)
    ensures MatchesConfig(cfg, d) <==> !Conflicts(cfg, d.added)
  {
    hide StableTokenId, NormalizeHash;
    var ts := cfg.base + d.added;
    var ids, hashes := Project(ts, StableTokenId), Project(ts, HashOf);
    forall i | 0 <= i < |ts| ensures ids[i] == StableTokenId(ts[i]) && hashes[i] == NormalizeHash(ts[i].hash) {
      ProjectedAt(ts, i);
    }
    hide Project;
    if i, j :| 0 <= i < j < |ts|
               && (StableTokenId(ts[i]) == StableTokenId(ts[j])
                  || NormalizeHash(ts[i].hash) == NormalizeHash(ts[j].hash)) {
      assert ids[i] == ids[j] || hashes[i] == hashes[j];
    }
  }
}
