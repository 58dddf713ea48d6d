/** Building an eviction order: two lists sorted by last seen, joined. */
module Eviction {
  import opened Config
  import opened ControlState
  import opened Collections
  import opened Sorting

  // ------------------------------------------------ sorting by last seen

  function SeenAt(clients: map<string, Client>): string -> int {
    k => if k in clients then clients[k].lastSeen else 0
  }

  predicate SortedSeen(s: seq<string>, clients: map<string, Client>) {
    (forall x :: x in s ==> x in clients)
    && forall i, j :: 0 <= i < j < |s| ==> clients[s[i]].lastSeen <= clients[s[j]].lastSeen
  }

  lemma InsertSeen(k: string, s: seq<string>, clients: map<string, Client>)
    requires k in clients && SortedSeen(s, clients) && Distinct(s) && k !in s
    ensures var r := InsertBy(s, k, SeenAt(clients));
            SortedSeen(r, clients) && Distinct(r) && |r| == |s| + 1 && forall x :: x in r <==> x == k || x in s
  {
    var key := SeenAt(clients);
    assert SortedBy(s, key);
    InsertKeeps(s, k, key);
    InsertSorts(s, k, key);
    var r := InsertBy(s, k, key);
    hide InsertBy;
    assert SortedBy(r, key);
    InsertDistinct(s, k, key);
  }

  lemma InsertDistinct(s: seq<string>, k: string, key: string -> int)
    requires Distinct(s) && k !in s
    ensures Distinct(InsertBy(s, k, key))
  {
    hide InsertBy;
    var r := InsertBy(s, k, key);
    InsertKeeps(s, k, key);
    forall i, j | 0 <= i < j < |r| ensures r[i] != r[j] {
      CountsOnce(s, r[i]);
      assert k !in multiset(s);
      if r[i] == r[j] {
        CountsTwice(r, i, j);
      }
    }
  }

  /** A sort by increasing `lastSeen`. */
  method SortBySeen(keys: seq<string>, clients: map<string, Client>) returns (r: seq<string>)
    requires forall x :: x in keys ==> x in clients
    requires Distinct(keys)
    ensures SortedSeen(r, clients) && |r| == |keys| && Distinct(r) && forall x :: x in r <==> x in keys
  {
    r := [];
    for i := 0 to |keys|
      invariant SortedSeen(r, clients) && |r| == i && Distinct(r)
      invariant forall x :: x in r <==> x in keys[..i]
    {
      InsertSeen(keys[i], r, clients);
      r := InsertBy(r, keys[i], SeenAt(clients));
    }
    assert keys[..|keys|] == keys;
  }

  /** Two sorted lists, one of clients without a session and one of clients with one. */
  lemma JoinedOrder(inactive: seq<string>, active: seq<string>, clients: map<string, Client>, live: set<string>)
    requires SortedSeen(inactive, clients) && SortedSeen(active, clients) && Distinct(inactive) && Distinct(active)
    requires forall x :: x in inactive <==> x in clients && x !in live
    requires forall x :: x in active <==> x in clients && x in live
    ensures EvictionOrder(inactive + active, clients, live) && |inactive| + |active| == |clients|
  {
    var order := inactive + active;
    assert forall i :: 0 <= i < |order| ==> order[i] == if i < |inactive| then inactive[i] else active[i - |inactive|];
    JoinedDistinct(inactive, active);
    assert forall k :: k in order <==> k in clients;
    assert (set k | k in order) == clients.Keys;
    ListSize(order);
    forall i, j | 0 <= i < j < |order| ensures Before(order[i], order[j], clients, live) {
      assert order[i] in order && order[j] in order;
    }
  }

  lemma JoinedDistinct(a: seq<string>, b: seq<string>)
    requires Distinct(a) && Distinct(b) && forall x :: x in a ==> x !in b
    ensures Distinct(a + b)
  {
    var s := a + b;
    forall i, j | 0 <= i < j < |s| ensures s[i] != s[j] {
      assert i < |a| ==> s[i] in a;
      assert j >= |a| ==> s[j] in b;
    }
  }

  lemma {:induction false} SomeSorted(keys: set<string>, clients: map<string, Client>) returns (r: seq<string>)
    requires keys <= clients.Keys
    ensures SortedSeen(r, clients) && Distinct(r) && forall x :: x in r <==> x in keys
  {
    if keys == {} {
      r := [];
    } else {
      var k :| k in keys;
      r := SomeSorted(keys - {k}, clients);
      InsertSeen(k, r, clients);
      r := InsertBy(r, k, SeenAt(clients));
    }
  }

  /** There is always an order to evict in. */
  lemma OrderExists(clients: map<string, Client>, live: set<string>) returns (order: seq<string>)
    ensures EvictionOrder(order, clients, live)
  {
    var inactive := SomeSorted(clients.Keys - live, clients);
    var active := SomeSorted(clients.Keys * live, clients);
    JoinedOrder(inactive, active, clients, live);
    order := inactive + active;
  }
}
