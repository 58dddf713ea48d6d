/** Configured tokens: hash normal form, stable ids and the validation that the
    control plane starts from. */
module Config {
  import opened Text

  datatype Token = Token(id: string, name: string, hash: string, createdAt: string)

  const HASH_PREFIX := "sha256:"
  const HEX_LENGTH := 64

  predicate HexDigit(c: char) {
    '0' <= c <= '9' || 'a' <= c <= 'f'
  }

  predicate Hex(s: string) {
    forall i :: 0 <= i < |s| ==> HexDigit(s[i])
  }

  /** `sha256:` followed by 64 lower-case hexadecimal digits. */
  predicate ValidHash(h: string) {
    HASH_PREFIX <= h && |h| == |HASH_PREFIX| + HEX_LENGTH && Hex(h[|HASH_PREFIX|..])
  }

  function LowerChar(c: char): char {
    if 'A' <= c <= 'Z' then (c as int + 32) as char else c
  }

  function Lower(s: string): (r: string)
    ensures |r| == |s|
  {
    seq(|s|, i requires 0 <= i < |s| => LowerChar(s[i]))
  }

  function StripPrefix(s: string, prefix: string): string {
    if prefix <= s then s[|prefix|..] else s
  }

  function NormalizeHash(value: string): string {
    var n := Trim(Lower(value));
    if n == "" then ""
    else if HASH_PREFIX <= n then n
    else if |n| == HEX_LENGTH && Hex(n) then HASH_PREFIX + n
    else n
  }

  predicate ConfigIdChar(c: char) {
    'a' <= c <= 'z' || 'A' <= c <= 'Z' || '0' <= c <= '9' || c == '-' || c == '_'
  }

  predicate ValidConfigId(value: string) {
    var id := Trim(value);
    id != "" && |id| <= 96 && forall i :: 0 <= i < |id| ==> ConfigIdChar(id[i])
  }

  function StableTokenId(token: Token): string {
    if ValidConfigId(token.id) then Trim(token.id)
    else
      var hash := StripPrefix(NormalizeHash(token.hash), HASH_PREFIX);
      if |hash| >= 16 then "cfg_" + hash[..16] else "cfg_unknown"
  }

  /** Equality of the two digests the hashes decode to; two hashes that do not
      decode to 32 bytes are never equal. */
  predicate SameDigest(left: string, right: string) {
    var l, r := NormalizeHash(left), NormalizeHash(right);
    var lh, rh := StripPrefix(l, HASH_PREFIX), StripPrefix(r, HASH_PREFIX);
    |lh| == HEX_LENGTH && |rh| == HEX_LENGTH && Hex(lh) && Hex(rh) && lh == rh
  }

  lemma ValidHashIsNormal(h: string)
    requires ValidHash(h)
    ensures NormalizeHash(h) == h && SameDigest(h, h)
  {
    assert forall i :: |HASH_PREFIX| <= i < |h| ==> HexDigit(h[i]) by {
      assert forall i :: |HASH_PREFIX| <= i < |h| ==> h[i] == h[|HASH_PREFIX|..][i - |HASH_PREFIX|];
    }
    assert h[..7] == HASH_PREFIX;
    assert forall i :: 0 <= i < 7 ==> h[i] == h[..7][i];
    assert Lower(h) == h;
    assert h[0] == 's' && HexDigit(h[|h| - 1]);
    TrimFixpoint(h);
  }

  /** On valid hashes, digest equality is equality of the text. */
  lemma SameDigestIsEquality(left: string, right: string)
    requires ValidHash(left) && ValidHash(right)
    ensures SameDigest(left, right) <==> left == right
  {
    ValidHashIsNormal(left);
    ValidHashIsNormal(right);
    assert left == HASH_PREFIX + left[|HASH_PREFIX|..];
    assert right == HASH_PREFIX + right[|HASH_PREFIX|..];
  }

  lemma ConfigIdIsIdentifier(id: string)
    requires ValidConfigId(id)
    ensures IsIdentifier(Trim(id), 96) && Trim(Trim(id)) == Trim(id) && ValidConfigId(Trim(id))
  {
    TrimIsTight(id);
    TrimFixpoint(Trim(id));
  }

  /** A stable id is itself a valid id, so that taking it again changes nothing. */
  lemma StableIdIsStable(token: Token)
    requires ValidHash(NormalizeHash(token.hash))
    ensures var id := StableTokenId(token);
            IsIdentifier(id, 96) && ValidConfigId(id) && Trim(id) == id
            && StableTokenId(token.(id := id, hash := NormalizeHash(token.hash))) == id
  {
    hide Trim, Lower, ValidConfigId, IsIdentifier, Hex;
    if ValidConfigId(token.id) {
      ConfigIdIsIdentifier(token.id);
    } else {
      DerivedId(NormalizeHash(token.hash)[|HASH_PREFIX|..]);
    }
  }

  lemma DerivedId(hash: string)
    requires |hash| == HEX_LENGTH && Hex(hash)
    ensures var id := "cfg_" + hash[..16]; IsIdentifier(id, 96) && ValidConfigId(id) && Trim(id) == id
  {
    var id := "cfg_" + hash[..16];
    assert forall i :: 4 <= i < |id| ==> id[i] == hash[i - 4] && HexDigit(id[i]);
    TrimFixpoint(id);
  }

  /** The text names a digest: apart from letter case and white space at its ends it is the 64 digits,
      with or without the prefix. */
  predicate Names(value: string, digits: string) {
    && |digits| == HEX_LENGTH && Hex(digits)
    && (Trim(Lower(value)) == digits || Trim(Lower(value)) == "sha256:" + digits)
  }

  /** Every way to write a digest is made the one with the prefix, and nothing else becomes a valid
      hash; a token without an id of its own is called by the first sixteen digits. */
  lemma NormalizeHashExact(token: Token, digits: string)
    ensures Names(token.hash, digits) <==> ValidHash(NormalizeHash(token.hash))
                                           && NormalizeHash(token.hash) == "sha256:" + digits
    ensures Names(token.hash, digits) && !ValidConfigId(token.id) ==> StableTokenId(token) == "cfg_" + digits[..16]
  {
    hide Trim, Lower, ValidConfigId;
    var n := Trim(Lower(token.hash));
    assert HASH_PREFIX + digits == "sha256:" + digits && (HASH_PREFIX + digits)[|HASH_PREFIX|..] == digits;
    if HASH_PREFIX <= n {
      assert n == HASH_PREFIX + n[|HASH_PREFIX|..] && n[0] == 's';
      assert Hex(n) ==> HexDigit(n[0]);
    }
  }

  // ---------------------------------------------------------------- validation

  function Utf8Width(c: char): nat {
    if c < '\U{80}' then 1 else if c < '\U{800}' then 2 else if c < '\U{10000}' then 3 else 4
  }

  function Utf8Length(s: string): nat {
    if s == "" then 0 else Utf8Width(s[0]) + Utf8Length(s[1..])
  }

  predicate ValidLabel(s: string, max: nat) {
    Utf8Length(s) <= max && Printable(s)
  }

  predicate WellFormedToken(t: Token) {
    && ValidLabel(t.name, 128)
    && (t.id != "" ==> ValidConfigId(t.id))
    && ValidLabel(t.createdAt, 64)
    && ValidHash(NormalizeHash(t.hash))
  }

  predicate Distinct(s: seq<string>) {
    forall i, j :: 0 <= i < j < |s| ==> s[i] != s[j]
  }

  function Elements(s: seq<string>): set<string> {
    set x | x in s
  }

  /** One more element keeps a list duplicate-free exactly when it is new. */
  lemma DistinctStep(s: seq<string>, i: nat)
    requires i < |s| && Distinct(s[..i])
    ensures Elements(s[..i + 1]) == Elements(s[..i]) + {s[i]}
    ensures Distinct(s[..i + 1]) <==> s[i] !in Elements(s[..i])
    ensures s[i] in Elements(s[..i]) ==> !Distinct(s)
  {
    assert s[..i + 1] == s[..i] + [s[i]];
    if s[i] in s[..i] {
      var k :| 0 <= k < i && s[k] == s[i];
      assert s[..i + 1][k] == s[..i + 1][i];
    }
  }

  function Project(ts: seq<Token>, f: Token -> string): (r: seq<string>)
    ensures |r| == |ts|
  {
    seq(|ts|, i requires 0 <= i < |ts| => f(ts[i]))
  }

  /** A bounded list of well-formed tokens without a repeated hash or id. */
  predicate ValidBy(ts: seq<Token>, max: nat, wellFormed: Token -> bool, hashOf: Token -> string,
                    idOf: Token -> string) {
    && |ts| <= max
    && (forall t :: t in ts ==> wellFormed(t))
    && Distinct(Project(ts, hashOf))
    && Distinct(Project(ts, idOf))
  }

  /** One pass with two sets of what was already seen. */
  method ValidateBy(ts: seq<Token>, max: nat, wellFormed: Token -> bool, hashOf: Token -> string, idOf: Token -> string)
    returns (ok: bool)
    ensures ok <==> ValidBy(ts, max, wellFormed, hashOf, idOf)
  {
    if |ts| > max {
      return false;
    }
    var seenHashes: set<string>, seenIds: set<string> := {}, {};
    ghost var hashes, ids := Project(ts, hashOf), Project(ts, idOf);
    for i := 0 to |ts|
      invariant forall t :: t in ts[..i] ==> wellFormed(t)
      invariant seenHashes == Elements(hashes[..i]) && Distinct(hashes[..i])
      invariant seenIds == Elements(ids[..i]) && Distinct(ids[..i])
    {
      if !wellFormed(ts[i]) {
        return false;
      }
      DistinctStep(hashes, i);
      DistinctStep(ids, i);
      var hash := hashOf(ts[i]);
      if hash in seenHashes {
        return false;
      }
      seenHashes := seenHashes + {hash};
      var id := idOf(ts[i]);
      if id in seenIds {
        return false;
      }
      seenIds := seenIds + {id};
    }
    assert hashes[..|ts|] == hashes && ids[..|ts|] == ids && ts[..|ts|] == ts;
    ok := true;
  }

  function HashOf(t: Token): string {
    NormalizeHash(t.hash)
  }

  /** What validation promises of a token list. */
  predicate ValidTokens(ts: seq<Token>, max: nat) {
    ValidBy(ts, max, WellFormedToken, HashOf, StableTokenId)
  }

  method ValidateTokens(ts: seq<Token>, max: nat) returns (ok: bool)
    ensures ok <==> ValidTokens(ts, max)
  {
    ok := ValidateBy(ts, max, WellFormedToken, HashOf, StableTokenId);
  }

  /** A token with its hash in normal form and its id made explicit, the form in
      which every reader of the control plane sees it. */
  function Normalized(t: Token): Token {
    t.(id := StableTokenId(t), hash := NormalizeHash(t.hash))
  }

  predicate NormalToken(t: Token) {
    && ValidHash(t.hash)
    && IsIdentifier(t.id, 96)
    && StableTokenId(t) == t.id
    && Trim(t.id) == t.id
    && NormalizeHash(t.hash) == t.hash
  }

  predicate DistinctTokens(ts: seq<Token>) {
    forall i, j :: 0 <= i < j < |ts| ==> ts[i].id != ts[j].id && ts[i].hash != ts[j].hash
  }

  /** Base tokens the control plane may start from. */
  predicate ValidBase(base: seq<Token>) {
    |base| <= 1024 && DistinctTokens(base) && forall t :: t in base ==> NormalToken(t)
  }

  lemma NormalizedIsNormal(t: Token)
    requires ValidHash(NormalizeHash(t.hash))
    ensures NormalToken(Normalized(t))
  {
    StableIdIsStable(t);
    ValidHashIsNormal(NormalizeHash(t.hash));
  }

  lemma DistinctProjections(ts: seq<Token>, hashOf: Token -> string, idOf: Token -> string, images: seq<Token>)
    requires Distinct(Project(ts, hashOf)) && Distinct(Project(ts, idOf))
    requires |images| == |ts| && forall i :: 0 <= i < |ts| ==>
                                   images[i].hash == hashOf(ts[i]) && images[i].id == idOf(ts[i])
    ensures DistinctTokens(images)
  {
    var hashes, ids := Project(ts, hashOf), Project(ts, idOf);
    assert forall i :: 0 <= i < |ts| ==> hashes[i] == images[i].hash && ids[i] == images[i].id;
  }

  function NormalizedAll(ts: seq<Token>): (r: seq<Token>)
    ensures |r| == |ts|
  {
    seq(|ts|, i requires 0 <= i < |ts| => Normalized(ts[i]))
  }

  /** Validation is what makes the start state of the control plane well formed. */
  lemma ValidTokensGiveValidBase(ts: seq<Token>)
    requires ValidTokens(ts, 1024)
    ensures ValidBase(NormalizedAll(ts))
  {
    var base := NormalizedAll(ts);
    forall t | t in base ensures NormalToken(t) {
      var i :| 0 <= i < |ts| && t == base[i];
      assert WellFormedToken(ts[i]);
      NormalizedIsNormal(ts[i]);
    }
    assert forall i :: 0 <= i < |ts| ==> base[i] == Normalized(ts[i]);
    DistinctProjections(ts, HashOf, StableTokenId, base);
  }
}
