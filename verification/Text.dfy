/** String cleaning shared by the configuration and the owner control plane.
    Strings are sequences of Unicode scalar values. */
module Text {

  /** Unicode White_Space, the characters that trimming removes. */
  predicate IsSpace(c: char) {
    || '\U{9}' <= c <= '\U{D}' || c == ' ' || c == '\U{85}' || c == '\U{A0}' || c == '\U{1680}'
    || '\U{2000}' <= c <= '\U{200A}' || c == '\U{2028}' || c == '\U{2029}' || c == '\U{202F}'
    || c == '\U{205F}' || c == '\U{3000}'
  }

  function TrimLeft(s: string): string {
    if s != "" && IsSpace(s[0]) then TrimLeft(s[1..]) else s
  }

  function TrimRight(s: string): string {
    if s != "" && IsSpace(s[|s| - 1]) then TrimRight(s[..|s| - 1]) else s
  }

  function Trim(s: string): string {
    TrimRight(TrimLeft(s))
  }

  /** Neither end is white space. */
  predicate Tight(s: string) {
    s != "" ==> !IsSpace(s[0]) && !IsSpace(s[|s| - 1])
  }

  lemma {:induction false} TrimLeftIsSuffix(s: string)
    ensures |TrimLeft(s)| <= |s| && TrimLeft(s) == s[|s| - |TrimLeft(s)|..]
    ensures TrimLeft(s) != "" ==> !IsSpace(TrimLeft(s)[0])
  {
    if s != "" && IsSpace(s[0]) {
      TrimLeftIsSuffix(s[1..]);
    }
  }

  lemma {:induction false} TrimRightIsPrefix(s: string)
    ensures TrimRight(s) <= s
    ensures TrimRight(s) != "" ==> !IsSpace(TrimRight(s)[|TrimRight(s)| - 1])
  {
    if s != "" && IsSpace(s[|s| - 1]) {
      TrimRightIsPrefix(s[..|s| - 1]);
    }
  }

  lemma TrimIsTight(s: string)
    ensures Tight(Trim(s)) && |Trim(s)| <= |s|
    ensures Printable(s) ==> Printable(Trim(s))
  {
    TrimLeftIsSuffix(s);
    TrimRightIsPrefix(TrimLeft(s));
    var left, both := TrimLeft(s), Trim(s);
    assert forall i :: 0 <= i < |both| ==> both[i] == left[i] == s[|s| - |left| + i];
  }

  /** Trimming is the identity exactly on tight strings. */
  lemma TrimFixpoint(s: string)
    ensures Trim(s) == s <==> Tight(s)
  {
    TrimIsTight(s);
  }

  function DropControls(s: string): string {
    if s == "" then ""
    else if s[0] < ' ' || s[0] == '\U{7F}' then DropControls(s[1..])
    else [s[0]] + DropControls(s[1..])
  }

  predicate Printable(s: string) {
    forall i :: 0 <= i < |s| ==> s[i] >= ' ' && s[i] != '\U{7F}'
  }

  lemma {:induction false} DropControlsFixpoint(s: string)
    ensures Printable(DropControls(s))
    ensures Printable(s) ==> DropControls(s) == s
  {
    if s != "" {
      DropControlsFixpoint(s[1..]);
    }
  }

  function Take(s: string, max: nat): string {
    if |s| > max then s[..max] else s
  }

  /** Trim first, then strip control characters, then truncate. */
  function SanitizeDisplay(value: string, max: nat): string {
    Take(DropControls(Trim(value)), max)
  }

  /** Because trimming comes first, cleaning twice changes a cleaned name exactly
      when white space was left at one of its ends. */
  lemma SanitizeDisplayFixpoint(value: string, max: nat)
    ensures var clean := SanitizeDisplay(value, max);
            SanitizeDisplay(clean, max) == clean <==> Tight(clean)
  {
    var clean := SanitizeDisplay(value, max);
    DropControlsFixpoint(Trim(value));
    TrimFixpoint(clean);
    TrimIsTight(clean);
    DropControlsFixpoint(Trim(clean));
  }

  predicate IsKept(c: char) {
    c >= ' ' && c != '\U{7F}'
  }

  /** How many characters of a text are not control characters. */
  function KeptCount(s: string): nat {
    if s == "" then 0 else (if IsKept(s[0]) then 1 else 0) + KeptCount(s[1..])
  }

  /** The `k`-th of them. */
  function KeptAt(s: string, k: nat): char
    requires k < KeptCount(s)
  {
    if !IsKept(s[0]) then KeptAt(s[1..], k) else if k == 0 then s[0] else KeptAt(s[1..], k - 1)
  }

  lemma {:induction false} DropControlsKeeps(s: string)
    ensures |DropControls(s)| == KeptCount(s)
    ensures forall k :: 0 <= k < KeptCount(s) ==> DropControls(s)[k] == KeptAt(s, k)
  {
    if s != "" {
      DropControlsKeeps(s[1..]);
    }
  }

  /** Trimming takes away the white space at both ends and nothing else. */
  lemma TrimExact(s: string) returns (i: nat, j: nat)
    ensures i <= j <= |s| && Trim(s) == s[i..j] && Tight(s[i..j])
    ensures forall k :: 0 <= k < |s| && !(i <= k < j) ==> IsSpace(s[k])
  {
    var left := TrimLeft(s);
    TrimIsTight(s);
    TrimLeftSpaces(s);
    TrimRightSpaces(left);
    i := |s| - |left|;
    j := i + |Trim(s)|;
    assert left == s[i..];
    assert s[i..j] == left[..|Trim(s)|];
    forall k | 0 <= k < |s| && !(i <= k < j) ensures IsSpace(s[k]) {
      if k >= j {
        assert s[k] == left[k - i];
      }
    }
  }

  lemma {:induction false} TrimLeftSpaces(s: string)
    ensures |TrimLeft(s)| <= |s| && TrimLeft(s) == s[|s| - |TrimLeft(s)|..]
    ensures forall k :: 0 <= k < |s| - |TrimLeft(s)| ==> IsSpace(s[k])
  {
    if s != "" && IsSpace(s[0]) {
      TrimLeftSpaces(s[1..]);
      var n := |s[1..]| - |TrimLeft(s[1..])|;
      forall k | 0 <= k < n + 1 ensures IsSpace(s[k]) {
        assert k > 0 ==> s[k] == s[1..][k - 1];
      }
    }
  }

  lemma {:induction false} TrimRightSpaces(s: string)
    ensures TrimRight(s) <= s
    ensures forall k :: |TrimRight(s)| <= k < |s| ==> IsSpace(s[k])
  {
    if s != "" && IsSpace(s[|s| - 1]) {
      TrimRightSpaces(s[..|s| - 1]);
      forall k | |TrimRight(s)| <= k < |s| ensures IsSpace(s[k]) {
        assert k < |s| - 1 ==> s[k] == s[..|s| - 1][k];
      }
    }
  }

  /** A cleaned name has the characters of the trimmed name that are no controls, in order, as many as
      fit. */
  lemma SanitizeDisplayExact(value: string, max: nat)
    ensures var clean, trimmed := SanitizeDisplay(value, max), Trim(value);
            && |clean| == (if KeptCount(trimmed) > max then max else KeptCount(trimmed))
            && forall k :: 0 <= k < |clean| ==> clean[k] == KeptAt(trimmed, k)
  {
    hide Trim;
    DropControlsKeeps(Trim(value));
  }

  /** The same condition on the name as it was given: of the characters of the trimmed name that
      are kept and fit, neither the first nor the last is white space. */
  lemma SanitizeDisplayFixpointGiven(value: string, max: nat)
    ensures var clean, trimmed := SanitizeDisplay(value, max), Trim(value);
            var n := if KeptCount(trimmed) > max then max else KeptCount(trimmed);
            SanitizeDisplay(clean, max) == clean
            <==> n == 0 || (!IsSpace(KeptAt(trimmed, 0)) && !IsSpace(KeptAt(trimmed, n - 1)))
  {
    hide Trim, DropControls, KeptCount, KeptAt;
    DropControlsKeeps(Trim(value));
    SanitizeDisplayFixpoint(value, max);
  }

  /** A name on which cleaning is not idempotent. */
  lemma SanitizeDisplayNotIdempotent()
    ensures SanitizeDisplay("\U{1} a", 128) == " a"
    ensures SanitizeDisplay(SanitizeDisplay("\U{1} a", 128), 128) != SanitizeDisplay("\U{1} a", 128)
  {
    var v := "\U{1} a";
    TrimFixpoint(v);
    assert v[1..] == " a" && v[1..][1..] == "a" && v[1..][1..][1..] == "";
    assert DropControls(v) == DropControls(" a") == " " + DropControls("a");
    assert DropControls("a") == "a" + DropControls("");
    SanitizeDisplayFixpoint(v, 128);
  }

  predicate IdentifierChar(c: char) {
    'a' <= c <= 'z' || 'A' <= c <= 'Z' || '0' <= c <= '9' || c == '-' || c == '_' || c == '.'
  }

  predicate IsIdentifier(s: string, max: nat) {
    s != "" && |s| <= max && forall i :: 0 <= i < |s| ==> IdentifierChar(s[i])
  }

  function SanitizeIdentifier(value: string, max: nat): string {
    var clean := Trim(value);
    if IsIdentifier(clean, max) then clean else ""
  }

  lemma IdentifierIsTrimmed(s: string, max: nat)
    requires IsIdentifier(s, max)
    ensures Trim(s) == s && SanitizeIdentifier(s, max) == s
  {
    TrimFixpoint(s);
  }

  /** The join of a token id and a device id determines both, because no
      identifier contains a colon. */
  lemma JoinInjective(t1: string, d1: string, t2: string, d2: string, max: nat)
    requires IsIdentifier(t1, max) && IsIdentifier(t2, max)
    requires t1 + ":" + d1 == t2 + ":" + d2
    ensures t1 == t2 && d1 == d2
  {
    var k := t1 + ":" + d1;
    assert k[|t1|] == ':' && k[|t2|] == ':';
    assert forall i :: 0 <= i < |t1| ==> k[i] == t1[i];
    assert forall i :: 0 <= i < |t2| ==> k[i] == t2[i];
    assert |t1| == |t2|;
    assert t1 == k[..|t1|] && t2 == k[..|t2|];
    assert d1 == k[|t1| + 1..] && d2 == k[|t2| + 1..];
  }
}
