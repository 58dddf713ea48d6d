/** Identity migration: nothing is lost when the records of one device are merged. */
module Migration {
  import opened Text
  import opened Config
  import opened ControlState
  import opened Collections

  predicate WellKeyed(k: string, c: Client) {
    && k == c.key && k == ClientKey(c.tokenId, c.deviceId)
    && IsIdentifier(c.tokenId, 96) && IsIdentifier(c.deviceId, 96)
  }

  /** What the client directory satisfies in every state. */
  predicate ClientsGood(clients: map<string, Client>, blocked: map<string, nat>) {
    && |clients| <= MAX_CLIENTS
    && (forall k :: k in clients ==> WellKeyed(k, clients[k]))
    && blocked.Keys <= clients.Keys
    && (forall k :: k in blocked ==> blocked[k] > 0)
  }

  // -------------------------------------------------------- merging records

  /** Folding records is associative, so the order in which old identities are merged
      into a record does not matter beyond which value is met first. */
  lemma MergeAssociative(a: Client, b: Client, c: Client)
    ensures MergeClient(MergeClient(a, b), c) == MergeClient(a, MergeClient(b, c))
  {
    var left, right := MergeClient(MergeClient(a, b), c), MergeClient(a, MergeClient(b, c));
    forall i | 0 <= i < FIELDS ensures left.meta[i] == right.meta[i] {
      assert FirstNonEmpty(a.meta, b.meta)[i] == if a.meta[i] == "" then b.meta[i] else a.meta[i];
      assert FirstNonEmpty(b.meta, c.meta)[i] == if b.meta[i] == "" then c.meta[i] else b.meta[i];
    }
  }

  /** The sessions before and after a relabelling: same buckets, same sessions, and the
      key of a session moves exactly when it was one of `moved`. */
  predicate SessionsMoved(before: Active, after: Active, moved: set<string>, newKey: string) {
    && after.Keys == before.Keys
    && forall t :: t in before ==>
         && after[t].Keys == before[t].Keys
         && forall sid :: sid in before[t] ==>
              after[t][sid].clientKey == if before[t][sid].clientKey in moved then newKey else before[t][sid].clientKey
  }

  /** Records outside `keys` and `newKey` are untouched; those of `keys` are gone. */
  ghost predicate RecordsMoved(before: map<string, Client>, after: map<string, Client>, keys: set<string>,
                               newKey: string) {
    && (forall k :: k !in keys && k != newKey ==>
          (k in after <==> k in before) && (k in before ==> after[k] == before[k]))
    && (forall k :: k in keys && k != newKey ==> k !in after)
    && (newKey in after <==> newKey in before || exists k :: k in keys && k in before)
  }

  predicate Dominates(c: Client, d: Client) {
    d.lastSeen <= c.lastSeen && (d.firstSeen != 0 ==> 0 < c.firstSeen <= d.firstSeen)
  }

  predicate DominatesAll(c: Client, records: map<string, Client>, keys: set<string>) {
    forall k :: k in keys && k in records ==> Dominates(c, records[k])
  }

  predicate Attained(stamp: nat, f: Client -> nat, records: map<string, Client>, keys: set<string>) {
    exists k :: k in keys && k in records && f(records[k]) == stamp
  }

  function FirstOf(c: Client): nat { c.firstSeen }

  function LastOf(c: Client): nat { c.lastSeen }

  /** `c` carries the least non-empty first stamp and the greatest last stamp of the
      records under `keys`. */
  predicate CarriesStamps(c: Client, records: map<string, Client>, keys: set<string>) {
    && DominatesAll(c, records, keys)
    && Attained(c.lastSeen, LastOf, records, keys)
    && Attained(c.firstSeen, FirstOf, records, keys)
  }

  /** The keys of `keys` that have a record and are not the new key itself. */
  function Merged(clients: map<string, Client>, keys: seq<string>, newKey: string): set<string> {
    set k | k in keys && k in clients && k != newKey
  }

  lemma MergeKeyMoves(p: Plane, oldKey: string, i: Identity)
    requires ClientsGood(p.mem.clients, p.mem.blocked)
    requires IsIdentifier(i.tokenId, 96) && IsIdentifier(i.deviceId, 96)
    requires oldKey != ClientKey(i.tokenId, i.deviceId)
    requires oldKey !in p.mem.blocked && ClientKey(i.tokenId, i.deviceId) !in p.mem.blocked
    ensures var newKey := ClientKey(i.tokenId, i.deviceId);
            var q := MergeKey(p, oldKey, newKey, i.tokenId, i.deviceId);
            && q == p.(mem := p.mem.(clients := q.mem.clients), active := q.active)
            && ClientsGood(q.mem.clients, q.mem.blocked) && |q.mem.clients| <= |p.mem.clients|
            && SessionsMoved(p.active, q.active, Merged(p.mem.clients, [oldKey], newKey), newKey)
            && RecordsMoved(p.mem.clients, q.mem.clients, {oldKey}, newKey)
  {
    hide ClientKey, IsIdentifier, SessionsMoved, RecordsMoved, Merged, ClientsGood, Relabel, MergeClient;
    var newKey := ClientKey(i.tokenId, i.deviceId);
    MergeKeyRecords(p, oldKey, i);
    if oldKey in p.mem.clients {
      RelabelMoves(p.active, p.mem.clients, oldKey, newKey);
    } else {
      NoneMoved(p, oldKey, newKey);
    }
  }

  lemma NoneMoved(p: Plane, oldKey: string, newKey: string)
    requires oldKey !in p.mem.clients
    ensures SessionsMoved(p.active, p.active, Merged(p.mem.clients, [oldKey], newKey), newKey)
  {
  }

  lemma RelabelMoves(active: Active, clients: map<string, Client>, oldKey: string, newKey: string)
    requires oldKey in clients && oldKey != newKey
    ensures SessionsMoved(active, Relabel(active, oldKey, newKey), Merged(clients, [oldKey], newKey), newKey)
  {
  }

  lemma MergeKeyRecords(p: Plane, oldKey: string, i: Identity)
    requires ClientsGood(p.mem.clients, p.mem.blocked)
    requires IsIdentifier(i.tokenId, 96) && IsIdentifier(i.deviceId, 96)
    requires oldKey != ClientKey(i.tokenId, i.deviceId)
    requires oldKey !in p.mem.blocked && ClientKey(i.tokenId, i.deviceId) !in p.mem.blocked
    ensures var newKey := ClientKey(i.tokenId, i.deviceId);
            var q := MergeKey(p, oldKey, newKey, i.tokenId, i.deviceId);
            && ClientsGood(q.mem.clients, q.mem.blocked) && |q.mem.clients| <= |p.mem.clients|
            && RecordsMoved(p.mem.clients, q.mem.clients, {oldKey}, newKey)
  {
    hide IsIdentifier, WellKeyed, RecordsMoved, ClientsGood, ClientKey, MergeClient;
    var newKey := ClientKey(i.tokenId, i.deviceId);
    if oldKey in p.mem.clients {
      var c := MergeKey(p, oldKey, newKey, i.tokenId, i.deviceId).mem.clients[newKey];
      SurvivorKeyed(p, oldKey, i);
      MovedGood(p.mem.clients, p.mem.blocked, oldKey, newKey, c);
      RecordMoved(p.mem.clients, oldKey, newKey, c);
    } else {
      NoRecordMoved(p.mem.clients, oldKey, newKey);
    }
  }

  lemma SurvivorKeyed(p: Plane, oldKey: string, i: Identity)
    requires ClientsGood(p.mem.clients, p.mem.blocked) && oldKey in p.mem.clients
        && oldKey != ClientKey(i.tokenId, i.deviceId)
    requires IsIdentifier(i.tokenId, 96) && IsIdentifier(i.deviceId, 96)
    ensures var newKey := ClientKey(i.tokenId, i.deviceId);
            var q := MergeKey(p, oldKey, newKey, i.tokenId, i.deviceId);
            newKey in q.mem.clients && WellKeyed(newKey, q.mem.clients[newKey])
  {
    hide IsIdentifier;
  }

  lemma MovedGood(clients: map<string, Client>, blocked: map<string, nat>, oldKey: string, newKey: string, c: Client)
    requires ClientsGood(clients, blocked) && oldKey in clients && oldKey != newKey && WellKeyed(newKey, c)
        && oldKey !in blocked
    ensures ClientsGood(clients[newKey := c] - {oldKey}, blocked) && |clients[newKey := c] - {oldKey}| <= |clients|
  {
    hide WellKeyed;
    UpdateSize(clients, newKey, c);
    WithoutSize(clients[newKey := c], oldKey);
  }

  lemma RecordMoved(clients: map<string, Client>, oldKey: string, newKey: string, c: Client)
    requires oldKey in clients && oldKey != newKey
    ensures RecordsMoved(clients, clients[newKey := c] - {oldKey}, {oldKey}, newKey)
  {
  }

  lemma NoRecordMoved(clients: map<string, Client>, oldKey: string, newKey: string)
    requires oldKey !in clients
    ensures RecordsMoved(clients, clients, {oldKey}, newKey)
  {
  }

  /** The law of a whole migration over any list of unblocked old keys. */
  lemma {:induction false} MergeKeysMoves(p: Plane, keys: seq<string>, i: Identity)
    requires ClientsGood(p.mem.clients, p.mem.blocked)
    requires IsIdentifier(i.tokenId, 96) && IsIdentifier(i.deviceId, 96)
    requires ClientKey(i.tokenId, i.deviceId) !in p.mem.blocked && forall k :: k in keys ==> k !in p.mem.blocked
    ensures var newKey := ClientKey(i.tokenId, i.deviceId);
            var q := MergeKeys(p, keys, i);
            && q == p.(mem := p.mem.(clients := q.mem.clients), active := q.active)
            && ClientsGood(q.mem.clients, q.mem.blocked) && |q.mem.clients| <= |p.mem.clients|
            && SessionsMoved(p.active, q.active, Merged(p.mem.clients, keys, newKey), newKey)
            && RecordsMoved(p.mem.clients, q.mem.clients, Elements(keys), newKey)
    decreases |keys|
  {
    if keys != [] {
      var newKey := ClientKey(i.tokenId, i.deviceId);
      var q := MergedFirst(p, keys[0], i);
      MergeFirst(p, keys, i, q);
      MergeKeysMoves(q, keys[1..], i);
      MovesCompose(p, q, MergeKeys(q, keys[1..], i), keys, newKey);
    }
  }

  /** The plane after the first key of a migration. */
  function MergedFirst(p: Plane, oldKey: string, i: Identity): Plane {
    var newKey := ClientKey(i.tokenId, i.deviceId);
    if oldKey == newKey then p else MergeKey(p, oldKey, newKey, i.tokenId, i.deviceId)
  }

  lemma {:induction false} MergeFirst(p: Plane, keys: seq<string>, i: Identity, q: Plane)
    requires keys != [] && q == MergedFirst(p, keys[0], i)
    requires ClientsGood(p.mem.clients, p.mem.blocked)
    requires IsIdentifier(i.tokenId, 96) && IsIdentifier(i.deviceId, 96)
    requires ClientKey(i.tokenId, i.deviceId) !in p.mem.blocked && forall k :: k in keys ==> k !in p.mem.blocked
    ensures MergeKeys(p, keys, i) == MergeKeys(q, keys[1..], i)
    ensures q == p.(mem := p.mem.(clients := q.mem.clients), active := q.active)
    ensures ClientsGood(q.mem.clients, q.mem.blocked) && |q.mem.clients| <= |p.mem.clients|
    ensures var newKey := ClientKey(i.tokenId, i.deviceId);
            && SessionsMoved(p.active, q.active, Merged(p.mem.clients, [keys[0]], newKey), newKey)
            && RecordsMoved(p.mem.clients, q.mem.clients, {keys[0]}, newKey)
  {
    hide SessionsMoved, RecordsMoved, Merged, ClientsGood, MergeKey, ClientKey, IsIdentifier;
    var newKey := ClientKey(i.tokenId, i.deviceId);
    if keys[0] == newKey {
      NothingMoved(p, newKey);
    } else {
      MergeKeyMoves(p, keys[0], i);
    }
  }

  lemma NothingMoved(p: Plane, newKey: string)
    ensures SessionsMoved(p.active, p.active, Merged(p.mem.clients, [newKey], newKey), newKey)
    ensures RecordsMoved(p.mem.clients, p.mem.clients, {newKey}, newKey)
  {
  }

  lemma MovesCompose(p: Plane, q: Plane, r: Plane, keys: seq<string>, newKey: string)
    requires keys != []
    requires SessionsMoved(p.active, q.active, Merged(p.mem.clients, [keys[0]], newKey), newKey)
    requires RecordsMoved(p.mem.clients, q.mem.clients, {keys[0]}, newKey)
    requires SessionsMoved(q.active, r.active, Merged(q.mem.clients, keys[1..], newKey), newKey)
    requires RecordsMoved(q.mem.clients, r.mem.clients, Elements(keys[1..]), newKey)
    ensures SessionsMoved(p.active, r.active, Merged(p.mem.clients, keys, newKey), newKey)
    ensures RecordsMoved(p.mem.clients, r.mem.clients, Elements(keys), newKey)
  {
    assert keys == [keys[0]] + keys[1..];
    var rest := Elements(keys[1..]);
    assert Elements(keys) == {keys[0]} + rest;
    assert Merged(p.mem.clients, keys, newKey)
        == Merged(p.mem.clients, [keys[0]], newKey) + Merged(q.mem.clients, keys[1..], newKey);
  }

  lemma MergeKeyStamps(p: Plane, oldKey: string, newKey: string, tokenId: string, deviceId: string)
    requires oldKey != newKey
    ensures var before, after := p.mem.clients, MergeKey(p, oldKey, newKey, tokenId, deviceId).mem.clients;
            StampsStep(before, after, oldKey, newKey)
  {
    var before, after := p.mem.clients, MergeKey(p, oldKey, newKey, tokenId, deviceId).mem.clients;
    if newKey in after {
      var c := after[newKey];
      var last := if oldKey in before && before[oldKey].lastSeen == c.lastSeen then oldKey else newKey;
      assert last in before && LastOf(before[last]) == c.lastSeen;
      var first := if oldKey in before && before[oldKey].firstSeen == c.firstSeen then oldKey else newKey;
      assert first in before && FirstOf(before[first]) == c.firstSeen;
    }
  }

  /** One merge of `oldKey` into `newKey`, as far as stamps are concerned. */
  ghost predicate StampsStep(before: map<string, Client>, after: map<string, Client>, oldKey: string, newKey: string) {
    && (forall k :: k != oldKey && k != newKey ==>
          (k in after <==> k in before) && (k in before ==> after[k] == before[k]))
    && (oldKey != newKey ==> oldKey !in after)
    && (newKey in after <==> newKey in before || oldKey in before)
    && (newKey in after ==> CarriesStamps(after[newKey], before, {oldKey, newKey}))
  }

  lemma AttainedCompose(stamp: nat, f: Client -> nat, before: map<string, Client>, after: map<string, Client>,
                        oldKey: string, rest: set<string>, newKey: string)
    requires StampsStep(before, after, oldKey, newKey) && Attained(stamp, f, after, rest + {newKey})
    requires newKey in after ==> Attained(f(after[newKey]), f, before, {oldKey, newKey})
    ensures Attained(stamp, f, before, {oldKey} + rest + {newKey})
  {
    var k :| k in rest + {newKey} && k in after && f(after[k]) == stamp;
    if k == newKey {
      var k' :| k' in {oldKey, newKey} && k' in before && f(before[k']) == stamp;
      assert k' in {oldKey} + rest + {newKey};
    } else {
      assert k in before && k in {oldKey} + rest + {newKey};
    }
  }

  lemma DominatesCompose(c: Client, before: map<string, Client>, after: map<string, Client>,
                         oldKey: string, rest: set<string>, newKey: string)
    requires StampsStep(before, after, oldKey, newKey) && DominatesAll(c, after, rest + {newKey})
    ensures DominatesAll(c, before, {oldKey} + rest + {newKey})
  {
    forall k | k in {oldKey} + rest + {newKey} && k in before ensures Dominates(c, before[k]) {
      if k == oldKey || k == newKey {
        assert Dominates(after[newKey], before[k]) && Dominates(c, after[newKey]);
      } else {
        assert after[k] == before[k];
      }
    }
  }

  lemma {:induction false} MergeKeysStamps(p: Plane, keys: seq<string>, i: Identity)
    requires ClientKey(i.tokenId, i.deviceId) in p.mem.clients || exists k :: k in keys && k in p.mem.clients
    ensures var newKey := ClientKey(i.tokenId, i.deviceId);
            var q := MergeKeys(p, keys, i);
            && newKey in q.mem.clients
            && CarriesStamps(q.mem.clients[newKey], p.mem.clients, Elements(keys) + {newKey})
    decreases |keys|
  {
    var newKey := ClientKey(i.tokenId, i.deviceId);
    if keys != [] {
      var q := StampsFirst(p, keys, i);
      var before, after := p.mem.clients, q.mem.clients;
      MergeKeysStamps(q, keys[1..], i);
      var c := MergeKeys(q, keys[1..], i).mem.clients[newKey];
      assert Elements(keys) == {keys[0]} + Elements(keys[1..]);
      DominatesCompose(c, before, after, keys[0], Elements(keys[1..]), newKey);
      AttainedCompose(c.lastSeen, LastOf, before, after, keys[0], Elements(keys[1..]), newKey);
      AttainedCompose(c.firstSeen, FirstOf, before, after, keys[0], Elements(keys[1..]), newKey);
    } else {
      SelfCarries(p.mem.clients, newKey);
      assert Elements(keys) + {newKey} == {newKey};
    }
  }

  lemma SelfCarries(records: map<string, Client>, key: string)
    requires key in records
    ensures CarriesStamps(records[key], records, {key})
  {
    assert LastOf(records[key]) == records[key].lastSeen && FirstOf(records[key]) == records[key].firstSeen;
  }

  lemma StampsFirst(p: Plane, keys: seq<string>, i: Identity) returns (q: Plane)
    requires keys != []
    requires ClientKey(i.tokenId, i.deviceId) in p.mem.clients || exists k :: k in keys && k in p.mem.clients
    ensures MergeKeys(p, keys, i) == MergeKeys(q, keys[1..], i)
    ensures StampsStep(p.mem.clients, q.mem.clients, keys[0], ClientKey(i.tokenId, i.deviceId))
    ensures ClientKey(i.tokenId, i.deviceId) in q.mem.clients || exists k :: k in keys[1..] && k in q.mem.clients
  {
    var newKey := ClientKey(i.tokenId, i.deviceId);
    if keys[0] == newKey {
      q := p;
      if newKey in p.mem.clients {
        SelfCarries(p.mem.clients, newKey);
        assert {keys[0], newKey} == {newKey};
      }
    } else {
      q := MergeKey(p, keys[0], newKey, i.tokenId, i.deviceId);
      MergeKeyStamps(p, keys[0], newKey, i.tokenId, i.deviceId);
    }
    if newKey !in q.mem.clients {
      var k :| k in keys && k in p.mem.clients;
      assert k in keys[1..] && k in q.mem.clients;
    }
  }

  // ------------------------------------------------------ merging metadata

  /** A field of the record under a key; empty without one. */
  function FieldOf(clients: map<string, Client>, key: string, j: nat): string
    requires j < FIELDS
  {
    if key in clients then clients[key].meta[j] else ""
  }

  /** The text is the first that is not empty among the records under these keys, in this order. */
  ghost predicate FirstFilled(clients: map<string, Client>, keys: seq<string>, j: nat, text: string)
    requires j < FIELDS
  {
    if forall k :: k in keys ==> FieldOf(clients, k, j) == "" then text == ""
    else exists n :: 0 <= n < |keys| && FilledAt(clients, keys, j, n) && text == FieldOf(clients, keys[n], j)
  }

  predicate FilledAt(clients: map<string, Client>, keys: seq<string>, j: nat, n: nat)
    requires j < FIELDS && n < |keys|
  {
    FieldOf(clients, keys[n], j) != "" && forall l :: 0 <= l < n ==> FieldOf(clients, keys[l], j) == ""
  }

  /** One merge: a field that the destination has empty is taken from the source, and no other. */
  lemma MergeKeyFields(p: Plane, oldKey: string, newKey: string, tokenId: string, deviceId: string, j: nat)
    requires oldKey != newKey && j < FIELDS
    ensures var before, after := p.mem.clients, MergeKey(p, oldKey, newKey, tokenId, deviceId).mem.clients;
            && FieldOf(after, oldKey, j) == ""
            && (forall k :: k != oldKey && k != newKey ==> FieldOf(after, k, j) == FieldOf(before, k, j))
            && FieldOf(after, newKey, j)
               == if FieldOf(before, newKey, j) != "" then FieldOf(before, newKey, j) else FieldOf(before, oldKey, j)
  {
    hide Relabel, MergeClient;
    if oldKey in p.mem.clients && newKey in p.mem.clients {
      MergedField(p.mem.clients[newKey], p.mem.clients[oldKey], j);
    }
  }

  lemma MergedField(a: Client, b: Client, j: nat)
    requires j < FIELDS
    ensures MergeClient(a, b).meta[j] == if a.meta[j] != "" then a.meta[j] else b.meta[j]
  {
  }

  /** Each field of the survivor is that of the record under the new key, or, where that is empty,
      of the first old key in the list whose record has it. */
  lemma {:induction false} MergeKeysFields(p: Plane, keys: seq<string>, i: Identity, j: nat)
    requires j < FIELDS
    ensures var newKey := ClientKey(i.tokenId, i.deviceId);
            FirstFilled(p.mem.clients, [newKey] + keys, j, FieldOf(MergeKeys(p, keys, i).mem.clients, newKey, j))
    decreases |keys|
  {
    hide MergeKey, ClientKey, FieldOf;
    var newKey := ClientKey(i.tokenId, i.deviceId);
    if keys == [] {
      OneFilled(p.mem.clients, newKey, j);
      assert [newKey] + keys == [newKey];
    } else {
      var q := MergedFirst(p, keys[0], i);
      if keys[0] != newKey {
        MergeKeyFields(p, keys[0], newKey, i.tokenId, i.deviceId, j);
      }
      MergeKeysFields(q, keys[1..], i, j);
      var text := FieldOf(MergeKeys(p, keys, i).mem.clients, newKey, j);
      FilledBefore(p.mem.clients, q.mem.clients, newKey, keys, j, text);
    }
  }

  lemma OneFilled(clients: map<string, Client>, key: string, j: nat)
    requires j < FIELDS
    ensures FirstFilled(clients, [key], j, FieldOf(clients, key, j))
  {
    hide FieldOf;
    if FieldOf(clients, key, j) != "" {
      assert [key][0] == key && FilledAt(clients, [key], j, 0);
    }
  }

  /** The first of the fields after a merge is the first before it. */
  lemma FilledBefore(before: map<string, Client>, after: map<string, Client>, newKey: string, keys: seq<string>,
                     j: nat, text: string)
    requires j < FIELDS && keys != []
    requires if keys[0] == newKey then after == before
             else
               FieldOf(after, keys[0], j) == ""
               && (forall k :: k != keys[0] && k != newKey ==> FieldOf(after, k, j) == FieldOf(before, k, j))
               && FieldOf(after, newKey, j) == if FieldOf(before, newKey, j) != "" then FieldOf(before, newKey, j)
                                               else FieldOf(before, keys[0], j)
    requires FirstFilled(after, [newKey] + keys[1..], j, text)
    ensures FirstFilled(before, [newKey] + keys, j, text)
  {
    hide FieldOf;
    var short, long := [newKey] + keys[1..], [newKey] + keys;
    assert forall n :: 1 <= n < |short| ==> short[n] == keys[n] == long[n + 1];
    assert long[0] == newKey && long[1] == keys[0] && short[0] == newKey;
    if FieldOf(before, newKey, j) != "" || FieldOf(before, keys[0], j) != "" {
      assert FilledAt(before, long, j, if FieldOf(before, newKey, j) != "" then 0 else 1);
      assert FieldOf(after, short[0], j) != "";
      var n :| 0 <= n < |short| && FilledAt(after, short, j, n) && text == FieldOf(after, short[n], j);
      assert n == 0;
    } else {
      NothingBefore(before, after, short, long, j, text);
    }
  }

  /** Where neither has the field, the rest of the list decides as before. */
  lemma NothingBefore(before: map<string, Client>, after: map<string, Client>, short: seq<string>, long: seq<string>,
                      j: nat, text: string)
    requires j < FIELDS && |long| == |short| + 1 && 0 < |short| && short[0] == long[0]
    requires forall n :: 1 <= n < |short| ==> short[n] == long[n + 1]
    requires FieldOf(before, long[0], j) == "" && FieldOf(before, long[1], j) == ""
    requires forall k :: FieldOf(after, k, j) == FieldOf(before, k, j)
    requires FirstFilled(after, short, j, text)
    ensures FirstFilled(before, long, j, text)
  {
    hide FieldOf;
    if n :| 0 <= n < |short| && FilledAt(after, short, j, n) && text == FieldOf(after, short[n], j) {
      assert FilledAt(before, long, j, n + 1) by {
        forall l | 0 <= l < n + 1 ensures FieldOf(before, long[l], j) == "" {
          if l > 1 {
            assert long[l] == short[l - 1];
          }
        }
      }
      assert long[n + 1] in long;
    } else {
      forall k | k in long ensures FieldOf(before, k, j) == "" {
        var l :| 0 <= l < |long| && long[l] == k;
        if l > 1 {
          assert short[l - 1] in short;
        }
      }
    }
  }

  /** The time of a block; zero without one. */
  function BlockedAt(blocked: map<string, nat>, key: string): nat {
    if key in blocked then blocked[key] else 0
  }

  /** A merge would carry a block over to the new key, the earlier time winning; a registration never
      comes to that, as it is refused while one of its keys is blocked. */
  lemma MergeKeyBlocks(p: Plane, oldKey: string, newKey: string, tokenId: string, deviceId: string)
    requires oldKey != newKey && oldKey in p.mem.clients
    ensures var before, after := p.mem.blocked, MergeKey(p, oldKey, newKey, tokenId, deviceId).mem.blocked;
            var first, second := BlockedAt(before, oldKey), BlockedAt(before, newKey);
            && BlockedAt(after, oldKey) == 0
            && BlockedAt(after, newKey) == (if first != 0 && (second == 0 || first < second) then first else second)
            && forall k :: k != oldKey && k != newKey ==> BlockedAt(after, k) == BlockedAt(before, k)
  {
    hide Relabel, MergeClient;
  }

  // ------------------------------------------------------------ the request

  lemma IdentityShape(tokenId: string, r: Request)
    requires IsIdentifier(tokenId, 96) && LegacyId(r.legacyId)
    ensures var i := IdentityOf(tokenId, r);
            && i.tokenId == tokenId && i.legacyId == r.legacyId && IsIdentifier(i.deviceId, 96)
            && {i.deviceId, i.legacyId} <= Candidates(i) && (i.previousId != "" ==> i.previousId in Candidates(i))
  {
    var legacy := r.legacyId;
    assert legacy[..7] == "legacy_";
    assert forall j :: 0 <= j < 7 ==> legacy[j] == legacy[..7][j];
    assert forall j :: 7 <= j < |legacy| ==> legacy[j] == legacy[7..][j - 7];
  }

  /** Migration conserves sessions and history: every session stays in its token bucket,
      exactly the sessions of merged records move to the new key, no record of another token
      changes, and the surviving record carries the earliest first and the latest last stamp and
      in every field the first text that is not empty, its own before those of the old keys. */
  lemma MigrationConserves(p: Plane, tokenId: string, r: Request)
    requires ClientsGood(p.mem.clients, p.mem.blocked)
    requires IsIdentifier(tokenId, 96) && LegacyId(r.legacyId) && !BlockedIdentity(p.mem, IdentityOf(tokenId, r))
    ensures var i := IdentityOf(tokenId, r);
            var newKey := ClientKey(i.tokenId, i.deviceId);
            var keys := OldKeys(p.mem, i, r);
            var moved := Merged(p.mem.clients, keys, newKey);
            var q := Migrate(p, i, r);
            && q == p.(mem := p.mem.(clients := q.mem.clients), active := q.active)
            && ClientsGood(q.mem.clients, q.mem.blocked) && |q.mem.clients| <= |p.mem.clients|
            && SessionsMoved(p.active, q.active, moved, newKey)
            && AllSessions(q.active) == AllSessions(p.active)
            && RecordsMoved(p.mem.clients, q.mem.clients, Elements(keys), newKey)
            && (forall k :: k in p.mem.clients && p.mem.clients[k].tokenId != tokenId ==>
                  k in q.mem.clients && q.mem.clients[k] == p.mem.clients[k])
            && (newKey in q.mem.clients <==> newKey in p.mem.clients || moved != {})
            && (newKey in q.mem.clients ==>
                  CarriesStamps(q.mem.clients[newKey], p.mem.clients, moved + {newKey})
                  && forall j: nat :: j < FIELDS ==>
                       FirstFilled(p.mem.clients, [newKey] + keys, j, q.mem.clients[newKey].meta[j]))
  {
    hide ClientsGood, SessionsMoved, RecordsMoved, CarriesStamps, Merged, MergeKeys, IdentityOf, LegacyId,
      IsIdentifier, AllSessions, FirstFilled;
    var i := IdentityOf(tokenId, r);
    var newKey := ClientKey(i.tokenId, i.deviceId);
    var keys := OldKeys(p.mem, i, r);
    IdentityShape(tokenId, r);
    KeysUnblocked(p.mem, i, r);
    MergeKeysMoves(p, keys, i);
    var q := MergeKeys(p, keys, i);
    var moved := Merged(p.mem.clients, keys, newKey);
    SameSessions(p.active, q.active, moved, newKey);
    OthersUntouched(p, q, tokenId, keys, newKey);
    SurvivorIsThere(p.mem.clients, q.mem.clients, keys, newKey);
    if newKey in q.mem.clients {
      SurvivorCarries(p, keys, i);
      forall j: nat | j < FIELDS ensures FirstFilled(p.mem.clients, [newKey] + keys, j, q.mem.clients[newKey].meta[j]) {
        MergeKeysFields(p, keys, i, j);
      }
    }
  }

  lemma SurvivorIsThere(before: map<string, Client>, after: map<string, Client>, keys: seq<string>, newKey: string)
    requires RecordsMoved(before, after, Elements(keys), newKey)
    ensures newKey in after <==> newKey in before || Merged(before, keys, newKey) != {}
  {
    if k :| k in Elements(keys) && k in before {
      assert k == newKey || k in Merged(before, keys, newKey);
    }
    if Merged(before, keys, newKey) != {} {
      var k :| k in Merged(before, keys, newKey);
      assert k in Elements(keys) && k in before;
    }
  }

  lemma KeysUnblocked(m: Durable, i: Identity, r: Request)
    requires !BlockedIdentity(m, i) && {i.deviceId, i.legacyId} <= Candidates(i)
        && (i.previousId != "" ==> i.previousId in Candidates(i))
    ensures ClientKey(i.tokenId, i.deviceId) !in m.blocked && forall k :: k in OldKeys(m, i, r) ==> k !in m.blocked
    ensures forall k :: k in OldKeys(m, i, r) ==>
              k == ClientKey(i.tokenId, i.previousId) || k == ClientKey(i.tokenId, i.legacyId)
  {
    hide LegacyMatches, Candidates, ClientKey;
    assert i.deviceId in Candidates(i) && i.legacyId in Candidates(i);
  }

  lemma SameSessions(before: Active, after: Active, moved: set<string>, newKey: string)
    requires SessionsMoved(before, after, moved, newKey)
    ensures AllSessions(after) == AllSessions(before)
  {
  }

  lemma OthersUntouched(p: Plane, q: Plane, tokenId: string, keys: seq<string>, newKey: string)
    requires ClientsGood(p.mem.clients, p.mem.blocked) && IsIdentifier(tokenId, 96)
    requires RecordsMoved(p.mem.clients, q.mem.clients, Elements(keys), newKey)
    requires (exists d :: newKey == ClientKey(tokenId, d))
        && forall k :: k in keys ==> exists d :: k == ClientKey(tokenId, d)
    ensures forall k :: k in p.mem.clients && p.mem.clients[k].tokenId != tokenId ==>
              k in q.mem.clients && q.mem.clients[k] == p.mem.clients[k]
  {
    hide IsIdentifier;
    forall k | k in p.mem.clients && p.mem.clients[k].tokenId != tokenId
      ensures k in q.mem.clients && q.mem.clients[k] == p.mem.clients[k]
    {
      var c := p.mem.clients[k];
      forall d ensures k != ClientKey(tokenId, d) {
        if k == ClientKey(tokenId, d) {
          JoinInjective(c.tokenId, c.deviceId, tokenId, d, 96);
        }
      }
    }
  }

  lemma SurvivorCarries(p: Plane, keys: seq<string>, i: Identity)
    requires ClientsGood(p.mem.clients, p.mem.blocked) && IsIdentifier(i.tokenId, 96) && IsIdentifier(i.deviceId, 96)
    requires ClientKey(i.tokenId, i.deviceId) !in p.mem.blocked && forall k :: k in keys ==> k !in p.mem.blocked
    requires var newKey := ClientKey(i.tokenId, i.deviceId);
             newKey in p.mem.clients || Merged(p.mem.clients, keys, newKey) != {}
    ensures var newKey := ClientKey(i.tokenId, i.deviceId);
            var q := MergeKeys(p, keys, i);
            newKey in q.mem.clients
                && CarriesStamps(q.mem.clients[newKey], p.mem.clients, Merged(p.mem.clients, keys, newKey) + {newKey})
  {
    hide MergeKeys, ClientKey, IsIdentifier, ClientsGood;
    var newKey := ClientKey(i.tokenId, i.deviceId);
    var moved := Merged(p.mem.clients, keys, newKey);
    MergeKeysStamps(p, keys, i);
    assert forall k :: k in Elements(keys) + {newKey} && k in p.mem.clients ==> k in moved + {newKey};
    assert moved <= Elements(keys);
  }
}
