/** Telegram endpoints: cooldown after failures and one probe at a time after it. */
module EndpointPool {
  import opened Sorting

  // Times are nanoseconds; zero is the empty time.
  const SECOND: nat := 1_000_000_000
  const PROBE_LEASE: nat := 5 * SECOND
  const TWO_64: nat := 0x1_0000_0000_0000_0000

  datatype EndpointState = EndpointState(failures: nat, retryAt: nat, probeLeaseUntil: nat)

  const UNTRACKED := EndpointState(0, 0, 0)

  type Health = map<string, EndpointState>

  datatype Pool = Pool(health: Health, cursor: nat)

  /** The entry of an address; a missing one reads as zero. */
  function StateOf(h: Health, address: string): EndpointState {
    if address in h then h[address] else UNTRACKED
  }

  // -------------------------------------------------------------------- failures

  function Power2(k: nat): nat {
    if k == 0 then 1 else 2 * Power2(k - 1)
  }

  function AfterFailure(s: EndpointState, now: nat): EndpointState {
    var failures := if s.failures + 1 > 6 then 6 else s.failures + 1;
    EndpointState(failures, now + SECOND * Power2(failures - 1), 0)
  }

  function Failed(p: Pool, address: string, now: nat): Pool {
    p.(health := p.health[address := AfterFailure(StateOf(p.health, address), now)])
  }

  function Succeeded(p: Pool, address: string): Pool {
    p.(health := p.health - {address})
  }

  // ----------------------------------------------------------------------- order

  function Rotated(addresses: seq<string>, start: nat): seq<string>
    requires start <= |addresses|
  {
    addresses[start..] + addresses[..start]
  }

  predicate Ready(h: Health, address: string, now: nat) {
    address !in h || (h[address].retryAt <= now && h[address].probeLeaseUntil <= now)
  }

  /** One address of the rotation: skipped, or taken and, if tracked, leased. */
  function Admit(h: Health, address: string, now: nat): (Health, seq<string>) {
    if address !in h then (h, [address])
    else if h[address].retryAt > now || h[address].probeLeaseUntil > now then (h, [])
    else (h[address := h[address].(probeLeaseUntil := now + PROBE_LEASE)], [address])
  }

  function AdmitAll(h: Health, addresses: seq<string>, now: nat): (Health, seq<string>) {
    if addresses == [] then (h, [])
    else
      var before := AdmitAll(h, addresses[..|addresses| - 1], now);
      var last := Admit(before.0, addresses[|addresses| - 1], now);
      (last.0, before.1 + last.1)
  }

  lemma AdmitStep(h: Health, s: seq<string>, i: nat, now: nat)
    requires i < |s|
    ensures var before := AdmitAll(h, s[..i], now);
            var last := Admit(before.0, s[i], now);
            AdmitAll(h, s[..i + 1], now) == (last.0, before.1 + last.1) && before.1 + [] == before.1
  {
    assert s[..i + 1][..i] == s[..i];
  }

  /** The comparison of the sort. */
  predicate Less(h: Health, a: string, b: string, now: nat) {
    var left, right := StateOf(h, a).retryAt, StateOf(h, b).retryAt;
    var leftReady, rightReady := left == 0 || left <= now, right == 0 || right <= now;
    if leftReady != rightReady then leftReady else left < right
  }

  /** Put an address behind every one that is not greater. */
  function Insert(h: Health, sorted: seq<string>, a: string, now: nat): seq<string> {
    if sorted == [] || !Less(h, a, sorted[|sorted| - 1], now) then sorted + [a]
    else Insert(h, sorted[..|sorted| - 1], a, now) + [sorted[|sorted| - 1]]
  }

  function StableSort(h: Health, s: seq<string>, now: nat): seq<string> {
    if s == [] then [] else Insert(h, StableSort(h, s[..|s| - 1], now), s[|s| - 1], now)
  }

  /** The endpoints to dial, in order, and the pool after that. */
  function Ordered(p: Pool, addresses: seq<string>, now: nat): (Pool, seq<string>) {
    if addresses == [] then (p, [])
    else
      var admitted := AdmitAll(p.health, Rotated(addresses, p.cursor % |addresses|), now);
      (Pool(admitted.0, (p.cursor + 1) % TWO_64), StableSort(admitted.0, admitted.1, now))
  }

  // ---------------------------------------------------- what the sort promises

  function Key(h: Health, a: string): nat {
    StateOf(h, a).retryAt
  }

  predicate AllReady(h: Health, s: seq<string>, now: nat) {
    forall a :: a in s ==> Key(h, a) <= now
  }

  predicate SortedByKey(h: Health, s: seq<string>) {
    forall i, j :: 0 <= i < j < |s| ==> Key(h, s[i]) <= Key(h, s[j])
  }

  /** The addresses with one key, in order. */
  function WithKey(h: Health, s: seq<string>, k: nat): seq<string> {
    if s == [] then [] else WithKey(h, s[..|s| - 1], k) + if Key(h, s[|s| - 1]) == k then [s[|s| - 1]] else []
  }

  ghost predicate SameByKey(h: Health, a: seq<string>, b: seq<string>) {
    forall k: nat :: WithKey(h, a, k) == WithKey(h, b, k)
  }

  lemma WithKeyPush(h: Health, s: seq<string>, a: string, k: nat)
    ensures WithKey(h, s + [a], k) == WithKey(h, s, k) + if Key(h, a) == k then [a] else []
  {
    assert (s + [a])[..|s|] == s;
  }

  lemma {:induction false} WithKeyNone(h: Health, s: seq<string>, k: nat)
    requires forall a :: a in s ==> Key(h, a) != k
    ensures WithKey(h, s, k) == []
  {
    if s != [] {
      WithKeyNone(h, s[..|s| - 1], k);
      assert s[|s| - 1] in s;
    }
  }

  function KeyAt(h: Health): string -> int {
    a => Key(h, a)
  }

  /** Among endpoints that are ready the comparison is that of their keys. */
  lemma {:induction false} InsertIsByKey(h: Health, s: seq<string>, a: string, now: nat)
    requires AllReady(h, s, now) && Key(h, a) <= now
    ensures Insert(h, s, a, now) == InsertBy(s, a, KeyAt(h))
    decreases |s|
  {
    hide Key, Less;
    var n := |s|;
    if n > 0 {
      assert s[n - 1] in s;
      LessIsKeyOrder(h, a, s[n - 1], now);
      InsertIsByKey(h, s[..n - 1], a, now);
    }
  }

  lemma {:induction false} InsertStable(h: Health, s: seq<string>, a: string, now: nat, k: nat)
    requires AllReady(h, s, now) && Key(h, a) <= now && SortedByKey(h, s)
    ensures WithKey(h, Insert(h, s, a, now), k) == WithKey(h, s + [a], k)
    decreases |s|
  {
    hide Key;
    var n := |s|;
    WithKeyPush(h, s, a, k);
    if n > 0 && Less(h, a, s[n - 1], now) {
      assert s[n - 1] in s;
      assert Key(h, a) < Key(h, s[n - 1]) by { LessIsKeyOrder(h, a, s[n - 1], now); }
      InsertStable(h, s[..n - 1], a, now, k);
      WithKeyPush(h, s[..n - 1], a, k);
      WithKeyPush(h, Insert(h, s[..n - 1], a, now), s[n - 1], k);
      WithKeyPush(h, s[..n - 1], s[n - 1], k);
    }
  }

  lemma LessIsKeyOrder(h: Health, a: string, b: string, now: nat)
    requires Key(h, a) <= now && Key(h, b) <= now
    ensures Less(h, a, b, now) <==> Key(h, a) < Key(h, b)
  {
  }

  /** Sorting keeps the addresses, orders them by the time of their cooldown, and leaves those
      with one time in the order they were in. */
  lemma {:induction false} StableSortExact(h: Health, s: seq<string>, now: nat)
    requires AllReady(h, s, now)
    ensures var r := StableSort(h, s, now);
            SortedByKey(h, r) && multiset(r) == multiset(s) && SameByKey(h, r, s)
    decreases |s|
  {
    if s != [] {
      var n := |s|;
      var init := StableSort(h, s[..n - 1], now);
      StableSortExact(h, s[..n - 1], now);
      assert s == s[..n - 1] + [s[n - 1]];
      forall a | a in init ensures Key(h, a) <= now {
        assert a in multiset(init);
      }
      assert s[n - 1] in s;
      InsertIsByKey(h, init, s[n - 1], now);
      InsertSorts(init, s[n - 1], KeyAt(h));
      InsertKeeps(init, s[n - 1], KeyAt(h));
      assert SortedBy(StableSort(h, s, now), KeyAt(h));
      forall k: nat ensures WithKey(h, StableSort(h, s, now), k) == WithKey(h, s, k) {
        assert WithKey(h, init, k) == WithKey(h, s[..n - 1], k);
        InsertStable(h, init, s[n - 1], now, k);
        WithKeyPush(h, init, s[n - 1], k);
        WithKeyPush(h, s[..n - 1], s[n - 1], k);
      }
    }
  }

  /** There is only one way to sort stably. */
  lemma {:induction false} StableSortUnique(h: Health, a: seq<string>, b: seq<string>)
    requires SortedByKey(h, a) && SortedByKey(h, b)
    requires SameByKey(h, a, b)
    ensures a == b
    decreases |a| + |b|
  {
    hide Key;
    EmptyByKey(h, a);
    EmptyByKey(h, b);
    if a != [] && b != [] {
      var before, after := a[..|a| - 1], b[..|b| - 1];
      var x, y := a[|a| - 1], b[|b| - 1];
      LastKeyGreatest(h, a, b);
      LastKeyGreatest(h, b, a);
      LastWithKey(h, a);
      LastWithKey(h, b);
      assert WithKey(h, a, Key(h, x)) == WithKey(h, b, Key(h, x));
      assert x == y;
      forall k: nat ensures WithKey(h, before, k) == WithKey(h, after, k) {
        WithKeyPop(h, a, b, k);
      }
      StableSortUnique(h, before, after);
      assert a == before + [x] && b == after + [y];
    }
  }

  lemma EmptyByKey(h: Health, s: seq<string>)
    ensures s != [] ==> !SameByKey(h, [], s) && !SameByKey(h, s, [])
  {
    if s != [] {
      LastWithKey(h, s);
      assert WithKey(h, [], Key(h, s[|s| - 1])) != WithKey(h, s, Key(h, s[|s| - 1]));
    }
  }

  lemma WithKeyPop(h: Health, a: seq<string>, b: seq<string>, k: nat)
    requires a != [] && b != [] && a[|a| - 1] == b[|b| - 1] && WithKey(h, a, k) == WithKey(h, b, k)
    ensures WithKey(h, a[..|a| - 1], k) == WithKey(h, b[..|b| - 1], k)
  {
    hide Key;
    var x, y := WithKey(h, a[..|a| - 1], k), WithKey(h, b[..|b| - 1], k);
    var t := if Key(h, a[|a| - 1]) == k then [a[|a| - 1]] else [];
    assert x == (x + t)[..|x + t| - |t|] && y == (y + t)[..|y + t| - |t|];
  }

  lemma LastWithKey(h: Health, s: seq<string>)
    requires s != []
    ensures var w := WithKey(h, s, Key(h, s[|s| - 1])); w != [] && w[|w| - 1] == s[|s| - 1]
  {
  }

  lemma {:induction false} WithKeyMember(h: Health, s: seq<string>, k: nat) returns (i: nat)
    requires WithKey(h, s, k) != []
    ensures i < |s| && Key(h, s[i]) == k
  {
    if Key(h, s[|s| - 1]) == k {
      i := |s| - 1;
    } else {
      i := WithKeyMember(h, s[..|s| - 1], k);
    }
  }

  lemma LastKeyGreatest(h: Health, a: seq<string>, b: seq<string>)
    requires a != [] && b != [] && SortedByKey(h, b)
    requires SameByKey(h, a, b)
    ensures Key(h, a[|a| - 1]) <= Key(h, b[|b| - 1])
  {
    hide Key;
    LastWithKey(h, a);
    var k := Key(h, a[|a| - 1]);
    assert WithKey(h, a, k) == WithKey(h, b, k);
    var i := WithKeyMember(h, b, k);
  }

  // --------------------------------------------------- what is granted, and when

  /** What admitting a run of addresses means for one of them. */
  predicate Admitted(h: Health, s: seq<string>, now: nat, a: string) {
    var r := AdmitAll(h, s, now);
    && (a in r.1 <==> a in s && Ready(h, a, now))
    && (a in r.0 <==> a in h)
    && (a in h ==> r.0[a] == if a in r.1 then h[a].(probeLeaseUntil := now + PROBE_LEASE) else h[a])
  }

  lemma {:induction false} AdmitAllAt(h: Health, s: seq<string>, now: nat, a: string)
    ensures Admitted(h, s, now, a)
    decreases |s|
  {
    if s != [] {
      var n := |s|;
      AdmitAllAt(h, s[..n - 1], now, a);
      AdmitAllAt(h, s[..n - 1], now, s[n - 1]);
      assert s == s[..n - 1] + [s[n - 1]];
    }
  }

  lemma RotatedSame(addresses: seq<string>, start: nat, a: string)
    requires start <= |addresses|
    ensures a in Rotated(addresses, start) <==> a in addresses
  {
    assert addresses == addresses[..start] + addresses[start..];
  }

  lemma AdmittedReady(h: Health, s: seq<string>, now: nat)
    ensures var r := AdmitAll(h, s, now); AllReady(r.0, r.1, now)
  {
    hide AdmitAll;
    var r := AdmitAll(h, s, now);
    forall a | a in r.1 ensures Key(r.0, a) <= now {
      AdmitAllAt(h, s, now, a);
    }
  }

  lemma AdmittedKeys(h: Health, s: seq<string>, now: nat, a: string)
    ensures Key(AdmitAll(h, s, now).0, a) == Key(h, a)
  {
    hide AdmitAll;
    AdmitAllAt(h, s, now, a);
  }

  lemma SortedLike(h: Health, g: Health, s: seq<string>)
    requires SortedByKey(g, s) && forall a :: Key(g, a) == Key(h, a)
    ensures SortedByKey(h, s)
  {
    hide Key;
  }

  lemma OrderedAt(p: Pool, addresses: seq<string>, now: nat, a: string)
    ensures var r := Ordered(p, addresses, now);
            && (a in r.1 <==> a in addresses && Ready(p.health, a, now))
            && (a in r.0.health <==> a in p.health)
            && (a in p.health ==>
                  r.0.health[a] == if a in r.1 then p.health[a].(probeLeaseUntil := now + PROBE_LEASE) else p.health[a])
  {
    if addresses != [] {
      hide AdmitAll, StableSort, Rotated, Ready;
      var start := p.cursor % |addresses|;
      var admitted := AdmitAll(p.health, Rotated(addresses, start), now);
      RotatedSame(addresses, start, a);
      AdmitAllAt(p.health, Rotated(addresses, start), now, a);
      AdmittedReady(p.health, Rotated(addresses, start), now);
      StableSortExact(admitted.0, admitted.1, now);
      var r := StableSort(admitted.0, admitted.1, now);
      assert a in multiset(r) <==> a in multiset(admitted.1);
    }
  }

  lemma OrderedSorted(p: Pool, addresses: seq<string>, now: nat)
    ensures SortedByKey(p.health, Ordered(p, addresses, now).1)
  {
    if addresses != [] {
      hide AdmitAll, StableSort, Rotated, Key, SortedByKey;
      var rotated := Rotated(addresses, p.cursor % |addresses|);
      var admitted := AdmitAll(p.health, rotated, now);
      AdmittedReady(p.health, rotated, now);
      StableSortExact(admitted.0, admitted.1, now);
      forall a ensures Key(admitted.0, a) == Key(p.health, a) {
        AdmittedKeys(p.health, rotated, now, a);
      }
      SortedLike(p.health, admitted.0, StableSort(admitted.0, admitted.1, now));
    } else {
      assert Ordered(p, addresses, now).1 == [];
    }
  }

  /** The part of a rotation that may be dialled, in its order; a tracked address that is listed
      twice is leased at its first place and passed over at the second. */
  function Eligible(h: Health, s: seq<string>, now: nat): seq<string> {
    if s == [] then []
    else
      var init, last := s[..|s| - 1], s[|s| - 1];
      Eligible(h, init, now) + if Ready(h, last, now) && !(last in h && last in init) then [last] else []
  }

  lemma {:induction false} AdmittedIsEligible(h: Health, s: seq<string>, now: nat)
    ensures AdmitAll(h, s, now).1 == Eligible(h, s, now)
    decreases |s|
  {
    if s != [] {
      var init, last := s[..|s| - 1], s[|s| - 1];
      AdmittedIsEligible(h, init, now);
      AdmitAllAt(h, init, now, last);
    }
  }

  lemma {:induction false} WithKeyLike(h: Health, g: Health, s: seq<string>, k: nat)
    requires forall a :: Key(g, a) == Key(h, a)
    ensures WithKey(g, s, k) == WithKey(h, s, k)
  {
    hide Key;
    if s != [] {
      WithKeyLike(h, g, s[..|s| - 1], k);
    }
  }

  /** An ordering is the eligible part of the rotation, neither more nor less, sorted stably by
      the time at which the cooldowns ended, so that untracked endpoints come first and equals
      stay in the order of the rotation; the next rotation begins one place further. */
  lemma OrderedExact(p: Pool, addresses: seq<string>, now: nat)
    requires addresses != []
    ensures var r := Ordered(p, addresses, now);
            var e := Eligible(p.health, Rotated(addresses, p.cursor % |addresses|), now);
            && SortedByKey(p.health, r.1) && multiset(r.1) == multiset(e) && SameByKey(p.health, r.1, e)
            && r.0.cursor == (p.cursor + 1) % TWO_64
  {
    hide AdmitAll, StableSort, Rotated, Key, SortedByKey, Eligible, AllReady;
    var rotated := Rotated(addresses, p.cursor % |addresses|);
    var admitted := AdmitAll(p.health, rotated, now);
    AdmittedIsEligible(p.health, rotated, now);
    AdmittedReady(p.health, rotated, now);
    StableSortExact(admitted.0, admitted.1, now);
    OrderedSorted(p, addresses, now);
    forall a ensures Key(admitted.0, a) == Key(p.health, a) {
      AdmittedKeys(p.health, rotated, now, a);
    }
    var r := StableSort(admitted.0, admitted.1, now);
    forall k: nat ensures WithKey(p.health, r, k) == WithKey(p.health, admitted.1, k) {
      WithKeyLike(p.health, admitted.0, r, k);
      WithKeyLike(p.health, admitted.0, admitted.1, k);
      assert WithKey(admitted.0, r, k) == WithKey(admitted.0, admitted.1, k);
    }
  }

  /** Nothing else is an ordering in that sense. */
  lemma OrderedUnique(p: Pool, addresses: seq<string>, now: nat, s: seq<string>)
    requires addresses != [] && SortedByKey(p.health, s)
    requires SameByKey(p.health, s, Eligible(p.health, Rotated(addresses, p.cursor % |addresses|), now))
    ensures s == Ordered(p, addresses, now).1
  {
    hide Ordered, Eligible, Rotated, SortedByKey, WithKey;
    OrderedExact(p, addresses, now);
    StableSortUnique(p.health, s, Ordered(p, addresses, now).1);
  }

  lemma {:induction false} UntrackedEligible(h: Health, s: seq<string>, now: nat)
    requires forall i :: 0 <= i < |s| ==> s[i] !in h
    ensures Eligible(h, s, now) == s
    decreases |s|
  {
    if s != [] {
      var init, last := s[..|s| - 1], s[|s| - 1];
      UntrackedEligible(h, init, now);
      assert last !in h && Ready(h, last, now);
      assert Eligible(h, s, now) == init + [last];
    }
  }

  lemma UntrackedSorted(h: Health, s: seq<string>)
    requires forall i :: 0 <= i < |s| ==> s[i] !in h
    ensures SortedByKey(h, s)
  {
  }

  /** What the rotation is for: while no endpoint is tracked the order is the rotation itself, so
      that successive orderings begin with successive addresses. */
  lemma UntrackedRotate(p: Pool, addresses: seq<string>, now: nat)
    requires addresses != [] && forall a :: a in addresses ==> a !in p.health
    ensures var r := Ordered(p, addresses, now);
            r.1 == Rotated(addresses, p.cursor % |addresses|) && r.1[0] == addresses[p.cursor % |addresses|]
  {
    hide Ordered;
    var rotated := Rotated(addresses, p.cursor % |addresses|);
    forall i | 0 <= i < |rotated| ensures rotated[i] !in p.health {
      assert rotated[i] in rotated;
      RotatedSame(addresses, p.cursor % |addresses|, rotated[i]);
    }
    UntrackedEligible(p.health, rotated, now);
    UntrackedSorted(p.health, rotated);
    OrderedUnique(p, addresses, now, rotated);
  }

  /** Which endpoints an ordering grants, and what it writes: it leases every tracked one it
      grants for five seconds and changes nothing else. */
  lemma OrderedLeases(p: Pool, addresses: seq<string>, now: nat)
    ensures var r := Ordered(p, addresses, now);
            && (forall a :: a in r.1 <==> a in addresses && Ready(p.health, a, now))
            && (forall a :: a in r.0.health <==> a in p.health)
            && (forall a :: a in p.health ==>
                  r.0.health[a] == if a in r.1 then p.health[a].(probeLeaseUntil := now + PROBE_LEASE) else p.health[a])
  {
    hide Ordered, Ready;
    var r := Ordered(p, addresses, now);
    forall a ensures
      && (a in r.1 <==> a in addresses && Ready(p.health, a, now))
      && (a in r.0.health <==> a in p.health)
      && (a in p.health ==>
            r.0.health[a] == if a in r.1 then p.health[a].(probeLeaseUntil := now + PROBE_LEASE) else p.health[a])
    {
      OrderedAt(p, addresses, now, a);
    }
  }

  // ------------------------------------------------------------------------ runs

  datatype Action =
    | Order(addresses: seq<string>, now: nat)
    | Success(address: string)
    | Failure(address: string, now: nat)

  const EMPTY := Pool(map[], 0)

  function Step(p: Pool, a: Action): Pool {
    match a
    case Order(addresses, now) => Ordered(p, addresses, now).0
    case Success(address) => Succeeded(p, address)
    case Failure(address, now) => Failed(p, address, now)
  }

  function Run(actions: seq<Action>): Pool {
    if actions == [] then EMPTY else Step(Run(actions[..|actions| - 1]), actions[|actions| - 1])
  }

  /** Whether the action at `i` grants the endpoint while it is tracked. */
  predicate Granted(actions: seq<Action>, i: nat, address: string)
    requires i < |actions|
  {
    && actions[i].Order? && address in Run(actions[..i]).health
    && address in Ordered(Run(actions[..i]), actions[i].addresses, actions[i].now).1
  }

  predicate Reports(a: Action, address: string) {
    !a.Order? && a.address == address
  }

  lemma GrantLeases(actions: seq<Action>, i: nat, address: string)
    requires i < |actions| && Granted(actions, i, address)
    ensures var h := Run(actions[..i + 1]).health;
            address in h && h[address].probeLeaseUntil == actions[i].now + PROBE_LEASE
  {
    RunStep(actions, i);
    hide Ordered, Run, Step;
    LeaseStep(Run(actions[..i]), actions[i], address);
  }

  /** While nothing is reported about it, a tracked endpoint stays leased at least as long as
      its last grant said. */
  lemma {:induction false} LeaseLasts(actions: seq<Action>, i: nat, j: nat, address: string)
    requires i < j <= |actions| && Granted(actions, i, address)
    requires forall k :: i < k < j ==> !Reports(actions[k], address)
    ensures var h := Run(actions[..j]).health;
            address in h && h[address].probeLeaseUntil >= actions[i].now + PROBE_LEASE
    decreases j
  {
    hide Ordered, Run, Step, Granted;
    if j == i + 1 {
      GrantLeases(actions, i, address);
    } else {
      RunStep(actions, j - 1);
      LeaseLasts(actions, i, j - 1, address);
      LeaseStep(Run(actions[..j - 1]), actions[j - 1], address);
    }
  }

  lemma LeaseStep(p: Pool, a: Action, address: string)
    requires address in p.health && !Reports(a, address)
    ensures var h := Step(p, a).health;
            && address in h
            && h[address].probeLeaseUntil ==
               if a.Order? && address in Ordered(p, a.addresses, a.now).1 then a.now + PROBE_LEASE
                   else p.health[address].probeLeaseUntil
    ensures a.Order? && address in Ordered(p, a.addresses, a.now).1 ==> p.health[address].probeLeaseUntil <= a.now
  {
    hide Ordered, AfterFailure;
    if a.Order? {
      OrderedAt(p, a.addresses, a.now, address);
    }
  }

  lemma RunStep(actions: seq<Action>, j: nat)
    requires j < |actions|
    ensures Run(actions[..j + 1]) == Step(Run(actions[..j]), actions[j])
  {
    hide Step;
    assert actions[..j + 1][..j] == actions[..j];
  }

  /** Two grants of one tracked endpoint without a report on it in between are at least five
      seconds apart. */
  lemma GrantsApart(actions: seq<Action>, i: nat, j: nat, address: string)
    requires i < j < |actions| && Granted(actions, i, address) && Granted(actions, j, address)
    requires forall k :: i < k < j ==> !Reports(actions[k], address)
    ensures actions[j].now >= actions[i].now + PROBE_LEASE
  {
    hide Ordered;
    LeaseLasts(actions, i, j, address);
    OrderedAt(Run(actions[..j]), actions[j].addresses, actions[j].now, address);
  }

  /** Failures of an endpoint since its last success, and the time of the latest. */
  function Streak(actions: seq<Action>, address: string): (nat, nat) {
    if actions == [] then (0, 0)
    else
      var before, a := Streak(actions[..|actions| - 1], address), actions[|actions| - 1];
      if a == Success(address) then (0, 0)
      else if a.Failure? && a.address == address then (before.0 + 1, a.now)
      else before
  }

  /** The cooldown that follows the k-th failure in a row. */
  function Cooldown(k: nat): nat
    requires k > 0
  {
    SECOND * if k >= 6 then 32 else Power2(k - 1)
  }

  lemma ShortCooldowns()
    ensures Cooldown(1) == SECOND && Cooldown(2) == 2 * SECOND && Cooldown(3) == 4 * SECOND
    ensures Cooldown(4) == 8 * SECOND && Cooldown(5) == 16 * SECOND && forall k :: k >= 6 ==> Cooldown(k) == 32 * SECOND
  {
    assert Power2(2) == 4;
    assert Power2(3) == 8;
    assert Power2(4) == 16;
  }

  /** After any run an endpoint is tracked exactly while its latest report is a failure, counts
      the failures in a row up to six, and cools down for 1, 2, 4, 8, 16 or 32 seconds. */
  lemma {:induction false} CooldownExact(actions: seq<Action>, address: string)
    ensures var h, k := Run(actions).health, Streak(actions, address);
            && (address in h <==> k.0 > 0)
            && (address in h ==> h[address].failures == (if k.0 > 6 then 6 else k.0)
                                 && h[address].retryAt == k.1 + Cooldown(k.0))
    decreases |actions|
  {
    if actions != [] {
      var before, a := actions[..|actions| - 1], actions[|actions| - 1];
      CooldownExact(before, address);
      hide Ordered, Cooldown;
      match a {
        case Order(addresses, now) => OrderedAt(Run(before), addresses, now, address);
        case Success(_) =>
        case Failure(_, now) => FailureCooldown(StateOf(Run(before).health, address), Streak(before, address).0, now);
      }
    }
  }

  lemma FailureCooldown(s: EndpointState, k: nat, now: nat)
    requires s.failures == if k > 6 then 6 else k
    ensures var t := AfterFailure(s, now);
            t.failures == (if k + 1 > 6 then 6 else k + 1) && t.retryAt == now + Cooldown(k + 1)
  {
    assert Power2(5) == 32 by { assert Power2(3) == 8; }
  }

  /** No ordering grants an endpoint before the cooldown after its latest failure is over. */
  lemma NoGrantWhileCooling(actions: seq<Action>, addresses: seq<string>, now: nat, address: string)
    requires var k := Streak(actions, address); k.0 > 0 && now < k.1 + Cooldown(k.0)
    ensures address !in Ordered(Run(actions), addresses, now).1
  {
    hide Ordered;
    CooldownExact(actions, address);
    OrderedAt(Run(actions), addresses, now, address);
  }

  // ------------------------------------------------------------------- the pool

  class UpstreamPool {
    var health: Health
    var cursor: nat

    ghost function State(): Pool
      reads this
    {
      Pool(health, cursor)
    }

    constructor ()
      ensures State() == EMPTY
    {
      health, cursor := map[], 0;
    }

    method TakeOrdered(addresses: seq<string>, now: nat) returns (eligible: seq<string>)
      modifies this
      ensures (State(), eligible) == Ordered(old(State()), addresses, now)
    {
      if |addresses| == 0 {
        return [];
      }
      var start := cursor % |addresses|;
      cursor := (cursor + 1) % TWO_64;
      var rotated := addresses[start..] + addresses[..start];
      eligible := [];
      ghost var h := health;
      for i := 0 to |rotated|
        invariant (health, eligible) == AdmitAll(h, rotated[..i], now)
        invariant cursor == (old(cursor) + 1) % TWO_64
      {
        AdmitStep(h, rotated, i, now);
        var address := rotated[i];
        if address !in health {
          eligible := eligible + [address];
          continue;
        }
        var state := health[address];
        if state.retryAt > now || state.probeLeaseUntil > now {
          continue;
        }
        health := health[address := state.(probeLeaseUntil := now + PROBE_LEASE)];
        eligible := eligible + [address];
      }
      assert rotated[..|rotated|] == rotated;
      eligible := StableSort(health, eligible, now);
    }

    method ReportSuccess(address: string)
      modifies this
      ensures State() == Succeeded(old(State()), address)
    {
      health := health - {address};
    }

    method ReportFailure(address: string, now: nat)
      modifies this
      ensures State() == Failed(old(State()), address, now)
    {
      var state := if address in health then health[address] else UNTRACKED;
      var failures := state.failures + 1;
      if failures > 6 {
        failures := 6;
      }
      var delay := SECOND * Power2(failures - 1);
      health := health[address := EndpointState(failures, now + delay, 0)];
    }
  }
}
