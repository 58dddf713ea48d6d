/** Pruning of the client directory: how much is evicted, in which order, and what
    happens to the blocks of evicted clients. */
module Pruning {
  import opened ControlState
  import opened Collections
  import opened Migration

  lemma PrefixKeys(clients: map<string, Client>, order: seq<string>, live: set<string>, n: nat)
    requires EvictionOrder(order, clients, live) && n <= |order|
    ensures (set k | k in order[..n]) <= clients.Keys
    ensures |set k | k in order[..n]| == n
  {
    ListSize(order[..n]);
    forall k | k in order[..n] ensures k in clients {
      assert k in (set x | x in order);
    }
  }

  lemma PrefixFirst(clients: map<string, Client>, order: seq<string>, live: set<string>, n: nat)
    requires EvictionOrder(order, clients, live) && n <= |order|
    ensures forall e, k :: e in order[..n] && k in clients && k !in order[..n] ==> Before(e, k, clients, live)
  {
    forall e, k | e in order[..n] && k in clients && k !in order[..n] ensures Before(e, k, clients, live) {
      var i :| 0 <= i < n && order[..n][i] == e;
      assert k in (set x | x in order);
      var j :| 0 <= j < |order| && order[j] == k;
      assert forall x :: 0 <= x < n ==> order[x] == order[..n][x] != k;
      assert order[i] == e && i < j;
    }
  }

  lemma PruneShape(m: Durable, order: seq<string>, evicted: set<string>)
    requires |order| == |m.clients| && evicted == (set k | k in order[..EvictCount(m.clients)])
    requires evicted <= m.clients.Keys && |evicted| == EvictCount(m.clients)
    ensures var q := Prune(m, order);
            && evicted == m.clients.Keys - q.clients.Keys
            && q == m.(clients := m.clients - evicted, blocked := m.blocked - evicted)
            && |q.clients| == (if |m.clients| < MAX_CLIENTS then |m.clients| else MAX_CLIENTS - 1)
  {
    var q := Prune(m, order);
    assert q.clients.Keys == m.clients.Keys - evicted;
    assert |q.clients.Keys| == |m.clients.Keys| - |evicted|;
  }

  /** Pruning is minimal and correctly ordered: below the cap nothing happens; otherwise one
      place is left free, a block is removed exactly with its client, and whoever is evicted
      comes before whoever is kept: no client with a live session goes while one without
      stays, and within each class the longest unseen goes first. */
  lemma PruneExact(m: Durable, live: set<string>, order: seq<string>)
    requires EvictionOrder(order, m.clients, live)
    ensures var q := Prune(m, order);
            var gone := m.clients.Keys - q.clients.Keys;
            && q == m.(clients := m.clients - gone, blocked := m.blocked - gone)
            && |q.clients| == (if |m.clients| < MAX_CLIENTS then |m.clients| else MAX_CLIENTS - 1)
            && forall e, k :: e in gone && k in q.clients ==> Before(e, k, m.clients, live)
  {
    var n := EvictCount(m.clients);
    PrefixKeys(m.clients, order, live, n);
    PruneShape(m, order, set k | k in order[..n]);
    PrefixFirst(m.clients, order, live, n);
  }

  lemma PruneKeepsGood(m: Durable, live: set<string>, order: seq<string>)
    requires EvictionOrder(order, m.clients, live) && ClientsGood(m.clients, m.blocked)
    ensures var q := Prune(m, order);
            && q == m.(clients := q.clients, blocked := q.blocked)
            && ClientsGood(q.clients, q.blocked) && |q.clients| < MAX_CLIENTS
            && q.blocked.Keys <= m.blocked.Keys && forall k :: k in q.blocked ==> q.blocked[k] == m.blocked[k]
  {
    PruneExact(m, live, order);
  }
}
