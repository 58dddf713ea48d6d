/** The last-known-good topology over refreshes, failed writes and restarts. */
module TopologyManager {
  import opened Wrappers
  import opened Bytes
  import opened Topology

  const ON_DEMAND_COOLDOWN: int := 30_000_000_000

  /** What a manager is configured with. `addresses` is the lookup in a snapshot, or in the owner's
      own configuration when there is none. */
  datatype Setup = Setup(
    primitives: Primitives,
    publicKey: seq<byte>,
    addresses: (Option<Snapshot>, int, bool, bool) -> seq<string>)

  /** How replacing the file ends: the directory sync may fail after the rename. */
  datatype Persisted = Unchanged | ReplacedWithError | Written

  /** One answer of the update source. */
  datatype Fetch = Unavailable | Body(data: seq<byte>)

  /** Memory and the file. */
  datatype State = State(current: Option<Snapshot>, lastOnDemand: Option<int>, disk: Option<seq<byte>>)

  function Generation(s: Option<Snapshot>): nat {
    match s
    case Some(snapshot) => snapshot.generation
    case None => 0
  }

  /** Start: no file means no snapshot; a file that does not verify stops the program. */
  function Load(cfg: Setup, disk: Option<seq<byte>>, now: int): Result<State, string> {
    match disk
    case None => Ok(State(None, None, None))
    case Some(data) =>
      match Verify(cfg.primitives, data, cfg.publicKey, now, true)
      case Ok(snapshot) => Ok(State(Some(snapshot), None, disk))
      case Err(_) => Err("verify last-known-good topology")
  }

  function Refreshed(cfg: Setup, s: State, fetch: Fetch, now: int, persisted: Persisted): (State, bool) {
    match fetch
    case Unavailable => (s, false)
    case Body(data) =>
      if |data| > MAX_BUNDLE then (s, false)
      else match Verify(cfg.primitives, data, cfg.publicKey, now, false)
        case Err(_) => (s, false)
        case Ok(snapshot) =>
          if s.current.Some? && snapshot.generation <= s.current.value.generation then (s, true)
          else match persisted
            case Unchanged => (s, false)
            case ReplacedWithError => (s.(disk := Some(snapshot.raw)), false)
            case Written => (s.(disk := Some(snapshot.raw), current := Some(snapshot)), true)
  }

  datatype Demand = Demand(dc: int, test: bool, media: bool)

  /** A request for a route; it may refresh on demand. */
  function Ensured(cfg: Setup, s: State, d: Demand, now: int, fetch: Fetch, verifiedAt: int,
                   persisted: Persisted): (State, seq<string>) {
    var known := cfg.addresses(s.current, d.dc, d.test, d.media);
    if |known| > 0 then (s, known)
    else if s.lastOnDemand.Some? && now - s.lastOnDemand.value < ON_DEMAND_COOLDOWN then (s, [])
    else
      var t := Refreshed(cfg, s.(lastOnDemand := Some(now)), fetch, verifiedAt, persisted).0;
      (t, cfg.addresses(t.current, d.dc, d.test, d.media))
  }

  // -------------------------------------------------------------------- answers

  /** The answer is a bundle that verifies now and is newer than memory. */
  predicate Brings(cfg: Setup, s: State, fetch: Fetch, now: int, snapshot: Snapshot) {
    && fetch.Body? && Verify(cfg.primitives, fetch.data, cfg.publicKey, now, false) == Ok(snapshot)
    && (s.current.Some? ==> snapshot.generation > s.current.value.generation)
  }

  /** What a refresh leaves: a newer bundle whose write succeeds becomes current and is the file;
      one whose write reports an error after the replacement is the file only; otherwise nothing
      changes. Success means that memory has the newest bundle of which it was told. */
  lemma RefreshedExact(cfg: Setup, s: State, fetch: Fetch, now: int, persisted: Persisted)
    ensures var (t, ok) := Refreshed(cfg, s, fetch, now, persisted);
            && t.lastOnDemand == s.lastOnDemand
            && (forall snapshot :: Brings(cfg, s, fetch, now, snapshot) ==>
                  && t.current == (if persisted.Written? then Some(snapshot) else s.current)
                  && t.disk == (if persisted.Unchanged? then s.disk else Some(fetch.data))
                  && ok == persisted.Written?)
            && ((forall snapshot :: !Brings(cfg, s, fetch, now, snapshot)) ==>
                  && t == s
                  && ok == (fetch.Body? && Verify(cfg.primitives, fetch.data, cfg.publicKey, now, false).Ok?))
  {
    hide Verify;
    if fetch.Body? {
      VerifyExact(cfg.primitives, fetch.data, cfg.publicKey, now, false);
      if Verify(cfg.primitives, fetch.data, cfg.publicKey, now, false).Ok? {
        var found := Verify(cfg.primitives, fetch.data, cfg.publicKey, now, false).value;
        assert Brings(cfg, s, fetch, now, found) <==> s.current.None? || found.generation > s.current.value.generation;
      }
    }
  }

  /** The answer to a route request is always the lookup in what memory has when it is given. A
      request fetches exactly when memory has no route and the last fetch on demand is at least
      thirty seconds ago, and then its time is noted. */
  lemma EnsuredExact(cfg: Setup, s: State, d: Demand, now: int, fetch: Fetch, verifiedAt: int, persisted: Persisted)
    ensures var (t, found) := Ensured(cfg, s, d, now, fetch, verifiedAt, persisted);
            && found == cfg.addresses(t.current, d.dc, d.test, d.media)
            && if MayFetch(cfg, s, d, now) then
                 t == Refreshed(cfg, s, fetch, verifiedAt, persisted).0.(lastOnDemand := Some(now))
               else t == s
  {
    hide Verify;
  }

  predicate MayFetch(cfg: Setup, s: State, d: Demand, now: int) {
    && cfg.addresses(s.current, d.dc, d.test, d.media) == []
    && (s.lastOnDemand.Some? ==> now - s.lastOnDemand.value >= ON_DEMAND_COOLDOWN)
  }

  /** A request that may fetch and is brought a newer bundle that is written is answered from it. */
  lemma FetchedRouteIsAnswered(cfg: Setup, s: State, d: Demand, now: int, fetch: Fetch, verifiedAt: int,
                               snapshot: Snapshot)
    requires MayFetch(cfg, s, d, now) && Brings(cfg, s, fetch, verifiedAt, snapshot)
    ensures var (t, found) := Ensured(cfg, s, d, now, fetch, verifiedAt, Written);
            && t == State(Some(snapshot), Some(now), Some(fetch.data))
            && found == cfg.addresses(Some(snapshot), d.dc, d.test, d.media)
  {
    hide Verify, Ensured, Refreshed, Brings, MayFetch;
    EnsuredExact(cfg, s, d, now, fetch, verifiedAt, Written);
    RefreshedExact(cfg, s, fetch, verifiedAt, Written);
  }

  /** A start takes the file's bundle, whether or not it has expired, and fails if it does not verify. */
  lemma LoadExact(cfg: Setup, disk: Option<seq<byte>>, now: int)
    ensures disk.None? ==> Load(cfg, disk, now) == Ok(State(None, None, None))
    ensures disk.Some? ==>
              var verified := Verify(cfg.primitives, disk.value, cfg.publicKey, now, true);
              && (Load(cfg, disk, now).Ok? <==> verified.Ok?)
              && (verified.Ok? ==> Load(cfg, disk, now).value == State(Some(verified.value), None, disk))
  {
    hide Verify;
  }

  // ------------------------------------------------------------------------ runs

  datatype Action =
    | Refresh(fetch: Fetch, now: int, persisted: Persisted)
    | Ensure(demand: Demand, now: int, fetch: Fetch, verifiedAt: int, persisted: Persisted)
    | Restart(now: int)

  function TimeOf(a: Action): int {
    match a
    case Refresh(_, now, _) => now
    case Ensure(_, _, _, verifiedAt, _) => verifiedAt
    case Restart(now) => now
  }

  /** The state after an action; a start that fails leaves nothing running. */
  function Step(cfg: Setup, s: State, a: Action): Result<State, string> {
    match a
    case Refresh(fetch, now, persisted) => Ok(Refreshed(cfg, s, fetch, now, persisted).0)
    case Ensure(d, now, fetch, verifiedAt, persisted) => Ok(Ensured(cfg, s, d, now, fetch, verifiedAt, persisted).0)
    case Restart(now) => Load(cfg, s.disk, now)
  }

  function Run(cfg: Setup, s: State, actions: seq<Action>): Result<State, string>
    decreases |actions|
  {
    if actions == [] then Ok(s)
    else match Step(cfg, s, actions[0])
      case Ok(t) => Run(cfg, t, actions[1..])
      case Err(e) => Err(e)
  }

  /** A clock that does not go back, read at each action. */
  predicate Clocked(from: int, actions: seq<Action>)
    decreases |actions|
  {
    actions == [] || (from <= TimeOf(actions[0]) && Clocked(TimeOf(actions[0]), actions[1..]))
  }

  // ------------------------------------------------------------------ invariant

  /** The file, if there is one, is last known good from `now` on, and no older than memory. */
  predicate Inv(cfg: Setup, s: State, now: int) {
    match s.disk
    case None => s.current.None?
    case Some(data) =>
      && Verify(cfg.primitives, data, cfg.publicKey, now, true).Ok?
      && Generation(s.current) <= Verify(cfg.primitives, data, cfg.publicKey, now, true).value.generation
  }

  lemma InvLater(cfg: Setup, s: State, now: int, later: int)
    requires Inv(cfg, s, now) && now <= later
    ensures Inv(cfg, s, later)
  {
    hide Verify;
    if s.disk.Some? {
      AcceptedStaysGood(cfg.primitives, s.disk.value, cfg.publicKey, now, true, later);
    }
  }

  lemma RefreshedInv(cfg: Setup, s: State, fetch: Fetch, now: int, persisted: Persisted)
    requires Inv(cfg, s, now)
    ensures var t := Refreshed(cfg, s, fetch, now, persisted).0;
            Inv(cfg, t, now) && Generation(s.current) <= Generation(t.current)
  {
    hide Verify;
    if fetch.Body? && Verify(cfg.primitives, fetch.data, cfg.publicKey, now, false).Ok? {
      VerifyExact(cfg.primitives, fetch.data, cfg.publicKey, now, false);
      AcceptedStaysGood(cfg.primitives, fetch.data, cfg.publicKey, now, false, now);
    }
  }

  lemma StepInv(cfg: Setup, s: State, a: Action)
    requires Inv(cfg, s, TimeOf(a))
    ensures var t := Step(cfg, s, a);
            t.Ok? && Inv(cfg, t.value, TimeOf(a)) && Generation(s.current) <= Generation(t.value.current)
  {
    hide Verify;
    match a
    case Refresh(fetch, now, persisted) => RefreshedInv(cfg, s, fetch, now, persisted);
    case Ensure(d, now, fetch, verifiedAt, persisted) =>
      RefreshedInv(cfg, s.(lastOnDemand := Some(now)), fetch, verifiedAt, persisted);
    case Restart(now) =>
  }

  /** Under a clock that does not go back, every restart succeeds and the generation in use never
      goes down, through failed writes, writes that replace the file and still fail, and restarts
      at any point. */
  lemma {:induction false} NeverDowngrades(cfg: Setup, s: State, now: int, actions: seq<Action>)
    requires Inv(cfg, s, now) && Clocked(now, actions)
    ensures var t := Run(cfg, s, actions);
            t.Ok? && Generation(s.current) <= Generation(t.value.current)
    decreases |actions|
  {
    hide Inv, Step;
    if actions != [] {
      var a := actions[0];
      InvLater(cfg, s, now, TimeOf(a));
      StepInv(cfg, s, a);
      NeverDowngrades(cfg, Step(cfg, s, a).value, TimeOf(a), actions[1..]);
    }
  }

  /** The same from a first start, with or without a file. */
  lemma NeverDowngradesFromStart(cfg: Setup, disk: Option<seq<byte>>, now: int, actions: seq<Action>)
    requires Load(cfg, disk, now).Ok? && Clocked(now, actions)
    ensures var s := Load(cfg, disk, now).value;
            var t := Run(cfg, s, actions);
            t.Ok? && Generation(s.current) <= Generation(t.value.current)
  {
    hide Verify;
    NeverDowngrades(cfg, Load(cfg, disk, now).value, now, actions);
  }

  /** A clock set back can keep the program from starting again: exactly when the bundle on disk
      then begins more than five minutes ahead. */
  lemma RestartExact(cfg: Setup, s: State, now: int, again: int)
    requires Inv(cfg, s, now)
    ensures Load(cfg, s.disk, again).Ok? <==>
            s.disk.None?
            || Verify(cfg.primitives, s.disk.value, cfg.publicKey, now, true).value.notBefore <= again + 5 * MINUTE
  {
    hide Verify;
    if s.disk.Some? {
      AcceptedStaysGood(cfg.primitives, s.disk.value, cfg.publicKey, now, true, again);
    }
  }

  /** Such a clock: one nanosecond earlier than the tolerance allows. */
  lemma ClockSetBack(cfg: Setup, s: State, now: int)
    requires Inv(cfg, s, now) && s.disk.Some?
    ensures var begins := Verify(cfg.primitives, s.disk.value, cfg.publicKey, now, true).value.notBefore;
            Load(cfg, s.disk, begins - 5 * MINUTE - 1).Err? && Load(cfg, s.disk, begins - 5 * MINUTE).Ok?
  {
    hide Verify, Load;
    var begins := Verify(cfg.primitives, s.disk.value, cfg.publicKey, now, true).value.notBefore;
    RestartExact(cfg, s, now, begins - 5 * MINUTE - 1);
    RestartExact(cfg, s, now, begins - 5 * MINUTE);
  }

  // --------------------------------------------------- the generation in the file

  /** The generation in the file; zero without one. */
  function InFile(cfg: Setup, s: State, now: int): nat
    requires Inv(cfg, s, now)
  {
    if s.disk.None? then 0 else Verify(cfg.primitives, s.disk.value, cfg.publicKey, now, true).value.generation
  }

  predicate Accepted(cfg: Setup, fetch: Fetch, now: int) {
    fetch.Body? && |fetch.data| <= MAX_BUNDLE && Verify(cfg.primitives, fetch.data, cfg.publicKey, now, false).Ok?
  }

  /** A refresh takes the file back exactly when a bundle between memory and file is written: only
      memory is compared, and memory is behind the file after a replacement that ended in an error. */
  lemma FileGoesBackExact(cfg: Setup, s: State, fetch: Fetch, now: int, persisted: Persisted)
    requires Inv(cfg, s, now)
    ensures var t := Refreshed(cfg, s, fetch, now, persisted).0;
            && Inv(cfg, t, now)
            && (InFile(cfg, t, now) < InFile(cfg, s, now) <==>
                  Accepted(cfg, fetch, now) && !persisted.Unchanged?
                  && var found := Verify(cfg.primitives, fetch.data, cfg.publicKey, now, false).value.generation;
                     Generation(s.current) < found < InFile(cfg, s, now))
  {
    hide Verify;
    RefreshedInv(cfg, s, fetch, now, persisted);
    if Accepted(cfg, fetch, now) {
      VerifyExact(cfg.primitives, fetch.data, cfg.publicKey, now, false);
      AcceptedStaysGood(cfg.primitives, fetch.data, cfg.publicKey, now, false, now);
    }
  }

  /** Such a run: generation 5 replaces the file of generation 1 but the sync fails, and then
      generation 3 is written over it. */
  lemma FileGoesBack(cfg: Setup, s: State, five: seq<byte>, three: seq<byte>, now: int)
    requires Inv(cfg, s, now) && Generation(s.current) == 1 && InFile(cfg, s, now) == 1
    requires Accepted(cfg, Body(five), now)
        && Verify(cfg.primitives, five, cfg.publicKey, now, false).value.generation == 5
    requires Accepted(cfg, Body(three), now)
        && Verify(cfg.primitives, three, cfg.publicKey, now, false).value.generation == 3
    ensures var t := Refreshed(cfg, s, Body(five), now, ReplacedWithError).0;
            var u := Refreshed(cfg, t, Body(three), now, Written).0;
            && Inv(cfg, t, now) && Inv(cfg, u, now)
            && InFile(cfg, t, now) == 5 && InFile(cfg, u, now) == 3 && Generation(u.current) == 3
  {
    hide Verify;
    RefreshedInv(cfg, s, Body(five), now, ReplacedWithError);
    var t := Refreshed(cfg, s, Body(five), now, ReplacedWithError).0;
    RefreshedInv(cfg, t, Body(three), now, Written);
    VerifyExact(cfg.primitives, five, cfg.publicKey, now, false);
    VerifyExact(cfg.primitives, three, cfg.publicKey, now, false);
    AcceptedStaysGood(cfg.primitives, five, cfg.publicKey, now, false, now);
    AcceptedStaysGood(cfg.primitives, three, cfg.publicKey, now, false, now);
  }

  predicate Clean(a: Action) {
    match a
    case Refresh(_, _, persisted) => !persisted.ReplacedWithError?
    case Ensure(_, _, _, _, persisted) => !persisted.ReplacedWithError?
    case Restart(_) => true
  }

  lemma CleanStep(cfg: Setup, s: State, a: Action)
    requires Inv(cfg, s, TimeOf(a)) && InFile(cfg, s, TimeOf(a)) == Generation(s.current) && Clean(a)
    ensures var t := Step(cfg, s, a);
            && t.Ok? && Inv(cfg, t.value, TimeOf(a))
            && InFile(cfg, t.value, TimeOf(a)) == Generation(t.value.current) >= Generation(s.current)
  {
    hide Verify;
    StepInv(cfg, s, a);
    match a
    case Refresh(fetch, now, persisted) => CleanRefresh(cfg, s, fetch, now, persisted);
    case Ensure(d, now, fetch, verifiedAt, persisted) =>
        CleanRefresh(cfg, s.(lastOnDemand := Some(now)), fetch, verifiedAt, persisted);
    case Restart(now) =>
  }

  lemma CleanRefresh(cfg: Setup, s: State, fetch: Fetch, now: int, persisted: Persisted)
    requires Inv(cfg, s, now) && InFile(cfg, s, now) == Generation(s.current) && !persisted.ReplacedWithError?
    ensures var t := Refreshed(cfg, s, fetch, now, persisted).0;
            Inv(cfg, t, now) && InFile(cfg, t, now) == Generation(t.current)
  {
    hide Verify;
    RefreshedInv(cfg, s, fetch, now, persisted);
    if Accepted(cfg, fetch, now) {
      VerifyExact(cfg.primitives, fetch.data, cfg.publicKey, now, false);
      AcceptedStaysGood(cfg.primitives, fetch.data, cfg.publicKey, now, false, now);
    }
  }

  /** While no replacement ends in an error the file is as new as memory, and its generation never
      goes down, through failed writes and restarts. */
  lemma {:induction false} FileNeverGoesBack(cfg: Setup, s: State, now: int, actions: seq<Action>, end: int)
    requires Inv(cfg, s, now) && InFile(cfg, s, now) == Generation(s.current)
    requires Clocked(now, actions) && EndsBy(now, actions, end) && forall a :: a in actions ==> Clean(a)
    ensures var t := Run(cfg, s, actions);
            && t.Ok? && Inv(cfg, t.value, end)
            && InFile(cfg, t.value, end) == Generation(t.value.current) >= Generation(s.current)
    decreases |actions|
  {
    hide Inv, Step, Clean, InFile;
    if actions == [] {
      InFileLater(cfg, s, now, end);
    } else {
      var a := actions[0];
      assert a in actions && forall b :: b in actions[1..] ==> b in actions;
      InFileLater(cfg, s, now, TimeOf(a));
      CleanStep(cfg, s, a);
      FileNeverGoesBack(cfg, Step(cfg, s, a).value, TimeOf(a), actions[1..], end);
    }
  }

  /** A moment after all the actions. */
  predicate EndsBy(from: int, actions: seq<Action>, end: int)
    decreases |actions|
  {
    if actions == [] then from <= end else EndsBy(TimeOf(actions[0]), actions[1..], end)
  }

  lemma InFileLater(cfg: Setup, s: State, now: int, later: int)
    requires Inv(cfg, s, now) && now <= later
    ensures Inv(cfg, s, later) && InFile(cfg, s, later) == InFile(cfg, s, now)
  {
    hide Verify;
    if s.disk.Some? {
      AcceptedStaysGood(cfg.primitives, s.disk.value, cfg.publicKey, now, true, later);
    }
  }

  // --------------------------------------------------------- on-demand refreshes

  /** Whether a request for a route goes to the update source. */
  predicate Fetches(cfg: Setup, s: State, a: Action) {
    && a.Ensure? && |cfg.addresses(s.current, a.demand.dc, a.demand.test, a.demand.media)| == 0
    && (s.lastOnDemand.None? || a.now - s.lastOnDemand.value >= ON_DEMAND_COOLDOWN)
  }

  lemma DemandRecorded(cfg: Setup, s: State, a: Action)
    requires !a.Restart?
    ensures Step(cfg, s, a).Ok?
    ensures Step(cfg, s, a).value.lastOnDemand == if Fetches(cfg, s, a) then Some(a.now) else s.lastOnDemand
  {
  }

  /** The state after the actions of one process. */
  function After(cfg: Setup, s: State, actions: seq<Action>): State
    requires forall a :: a in actions ==> !a.Restart?
    decreases |actions|
  {
    if actions == [] then s
    else
      var init, last := actions[..|actions| - 1], actions[|actions| - 1];
      DemandRecorded(cfg, After(cfg, s, init), last);
      Step(cfg, After(cfg, s, init), last).value
  }

  lemma {:induction false} DemandGrows(cfg: Setup, s: State, actions: seq<Action>, i: nat, j: nat)
    requires i < j <= |actions| && forall a :: a in actions ==> !a.Restart?
    requires Fetches(cfg, After(cfg, s, actions[..i]), actions[i])
    ensures var last := After(cfg, s, actions[..j]).lastOnDemand;
            last.Some? && last.value >= actions[i].now
    decreases j
  {
    hide Step;
    assert actions[..j][..j - 1] == actions[..j - 1];
    DemandRecorded(cfg, After(cfg, s, actions[..j - 1]), actions[j - 1]);
    if i < j - 1 {
      DemandGrows(cfg, s, actions, i, j - 1);
    }
  }

  /** Requests for unknown routes go to the update source at most once in thirty seconds. */
  lemma FetchesApart(cfg: Setup, s: State, actions: seq<Action>, i: nat, j: nat)
    requires i < j < |actions| && forall a :: a in actions ==> !a.Restart?
    requires Fetches(cfg, After(cfg, s, actions[..i]), actions[i])
        && Fetches(cfg, After(cfg, s, actions[..j]), actions[j])
    ensures actions[j].now >= actions[i].now + ON_DEMAND_COOLDOWN
  {
    DemandGrows(cfg, s, actions, i, j);
  }

  // ----------------------------------------------------------------- the manager

  class Manager {
    const cfg: Setup
    var current: Option<Snapshot>
    var lastOnDemand: Option<int>
    /** The last-known-good file. */
    var disk: Option<seq<byte>>

    ghost function Abstract(): State
      reads this
    {
      State(current, lastOnDemand, disk)
    }

    constructor (cfg: Setup, loaded: State)
      ensures this.cfg == cfg && Abstract() == loaded
    {
      this.cfg := cfg;
      current, lastOnDemand, disk := loaded.current, loaded.lastOnDemand, loaded.disk;
    }

    method PersistSnapshot(data: seq<byte>, outcome: Persisted) returns (ok: bool)
      modifies this`disk
      ensures disk == if outcome.Unchanged? then old(disk) else Some(data)
      ensures ok == outcome.Written?
    {
      if !outcome.Unchanged? {
        disk := Some(data);
      }
      ok := outcome.Written?;
    }

    method Refresh(fetch: Fetch, now: int, persisted: Persisted) returns (ok: bool)
      modifies this
      ensures (Abstract(), ok) == Refreshed(cfg, old(Abstract()), fetch, now, persisted)
    {
      hide Verify;
      if fetch.Unavailable? {
        return false;
      }
      if |fetch.data| > MAX_BUNDLE {
        return false;
      }
      var verified := Verify(cfg.primitives, fetch.data, cfg.publicKey, now, false);
      if verified.Err? {
        return false;
      }
      var snapshot := verified.value;
      if current.Some? && snapshot.generation <= current.value.generation {
        return true;
      }
      ok := PersistSnapshot(snapshot.raw, persisted);
      if ok {
        current := Some(snapshot);
      }
    }

    method EnsureRoute(d: Demand, now: int, fetch: Fetch, verifiedAt: int, persisted: Persisted)
        returns (found: seq<string>)
      modifies this
      ensures (Abstract(), found) == Ensured(cfg, old(Abstract()), d, now, fetch, verifiedAt, persisted)
      ensures found == cfg.addresses(current, d.dc, d.test, d.media)
    {
      hide Refreshed;
      found := cfg.addresses(current, d.dc, d.test, d.media);
      if |found| > 0 {
        return;
      }
      if lastOnDemand.Some? && now - lastOnDemand.value < ON_DEMAND_COOLDOWN {
        return [];
      }
      lastOnDemand := Some(now);
      var _ := Refresh(fetch, verifiedAt, persisted);
      found := cfg.addresses(current, d.dc, d.test, d.media);
    }
  }
}
