/** The admission limits on sessions and on dials under way. */
module SessionLimiter {
  import opened Wrappers

  const MAX_SESSIONS: nat := 1024
  const MAX_SESSIONS_PER_TOKEN: nat := 128
  const MAX_PENDING_DIALS: nat := 128

  // -------------------------------------------------------------------- ledger

  /** What became of one reservation. */
  datatype Grant = Grant(token: string, dialDone: bool, released: bool)

  function Count(l: seq<Grant>, p: Grant -> bool): nat {
    if l == [] then 0 else Count(l[..|l| - 1], p) + if p(l[|l| - 1]) then 1 else 0
  }

  /** Reservations not yet released. */
  function Active(l: seq<Grant>): nat {
    Count(l, (g: Grant) => !g.released)
  }

  /** Reservations whose dial is not known to be over. */
  function Pending(l: seq<Grant>): nat {
    Count(l, (g: Grant) => !g.dialDone)
  }

  /** Reservations of one token not yet released. */
  function Held(l: seq<Grant>, token: string): nat {
    Count(l, (g: Grant) => !g.released && g.token == token)
  }

  predicate Ordered(l: seq<Grant>) {
    forall g :: g in l ==> g.released ==> g.dialDone
  }

  lemma {:induction false} CountUpdate(l: seq<Grant>, i: nat, g: Grant, p: Grant -> bool)
    requires i < |l|
    ensures Count(l[i := g], p) == Count(l, p) - (if p(l[i]) then 1 else 0) + (if p(g) then 1 else 0)
  {
    var k := |l| - 1;
    if i < k {
      CountUpdate(l[..k], i, g, p);
      assert l[i := g][..k] == l[..k][i := g];
    } else {
      assert l[i := g][..k] == l[..k];
    }
  }

  lemma CountAppend(l: seq<Grant>, g: Grant, p: Grant -> bool)
    ensures Count(l + [g], p) == Count(l, p) + if p(g) then 1 else 0
  {
    assert (l + [g])[..|l|] == l;
  }

  lemma {:induction false} CountImplies(l: seq<Grant>, p: Grant -> bool, q: Grant -> bool)
    requires forall g :: g in l ==> p(g) ==> q(g)
    ensures Count(l, p) <= Count(l, q)
  {
    if l != [] {
      CountImplies(l[..|l| - 1], p, q);
      assert l[|l| - 1] in l;
    }
  }

  lemma {:induction false} CountSplit(l: seq<Grant>, p: Grant -> bool, q: Grant -> bool, r: Grant -> bool)
    requires forall g :: g in l ==> !(p(g) && q(g)) && (r(g) <==> p(g) || q(g))
    ensures Count(l, r) == Count(l, p) + Count(l, q)
  {
    if l != [] {
      CountSplit(l[..|l| - 1], p, q, r);
      assert l[|l| - 1] in l;
    }
  }

  lemma {:induction false} CountNone(l: seq<Grant>, p: Grant -> bool)
    requires forall g :: g in l ==> !p(g)
    ensures Count(l, p) == 0
  {
    if l != [] {
      CountNone(l[..|l| - 1], p);
      assert l[|l| - 1] in l;
    }
  }

  lemma {:induction false} CountSome(l: seq<Grant>, i: nat, p: Grant -> bool)
    requires i < |l| && p(l[i])
    ensures Count(l, p) > 0
  {
    if i < |l| - 1 {
      CountSome(l[..|l| - 1], i, p);
    }
  }

  /** The counters say what the ledger says; a token has an entry exactly while it holds sessions. */
  ghost predicate Accounts(l: seq<Grant>, active: int, pending: int, byToken: map<string, int>) {
    && active == Active(l)
    && pending == Pending(l)
    && (forall t :: if t in byToken then byToken[t] == Held(l, t) > 0 else Held(l, t) == 0)
  }

  predicate WithinCaps(l: seq<Grant>) {
    Active(l) <= MAX_SESSIONS && Pending(l) <= MAX_PENDING_DIALS
  }

  ghost predicate TokensWithinCaps(l: seq<Grant>) {
    forall t: string :: Held(l, t) <= MAX_SESSIONS_PER_TOKEN
  }

  // ------------------------------------------------------- what the counters mean

  function SumOver(keys: seq<string>, m: map<string, int>): int
    requires forall k :: k in keys ==> k in m
  {
    if keys == [] then 0 else SumOver(keys[..|keys| - 1], m) + m[keys[|keys| - 1]]
  }

  lemma {:induction false} SumOfKeys(l: seq<Grant>, keys: seq<string>, m: map<string, int>)
    requires forall k :: k in keys ==> k in m && m[k] == Held(l, k)
    requires forall i, j :: 0 <= i < j < |keys| ==> keys[i] != keys[j]
    ensures SumOver(keys, m) == Count(l, (g: Grant) => !g.released && g.token in keys)
  {
    if keys == [] {
      CountNone(l, (g: Grant) => !g.released && g.token in keys);
    } else {
      var k := |keys| - 1;
      SumOfKeys(l, keys[..k], m);
      CountSplit(l, (g: Grant) => !g.released && g.token in keys[..k], (g: Grant) => !g.released && g.token == keys[k],
        (g: Grant) => !g.released && g.token in keys);
    }
  }

  /** The per-token counts add up to the number of sessions. */
  lemma TokensSumToActive(l: seq<Grant>, active: int, pending: int, byToken: map<string, int>, keys: seq<string>)
    requires Accounts(l, active, pending, byToken)
    requires (set k | k in keys) == byToken.Keys
    requires forall i, j :: 0 <= i < j < |keys| ==> keys[i] != keys[j]
    ensures SumOver(keys, byToken) == active
  {
    forall k | k in keys ensures k in byToken {
      assert k in set k | k in keys;
    }
    SumOfKeys(l, keys, byToken);
    var unreleased := (g: Grant) => !g.released;
    forall g | g in l && !g.released ensures g.token in keys {
      var i :| 0 <= i < |l| && l[i] == g;
      CountSome(l, i, (h: Grant) => !h.released && h.token == g.token);
      assert Held(l, g.token) > 0;
      assert g.token in byToken.Keys;
    }
    CountImplies(l, (g: Grant) => !g.released && g.token in keys, (g: Grant) => !g.released);
    CountImplies(l, (g: Grant) => !g.released, (g: Grant) => !g.released && g.token in keys);
  }

  /** No more dials are under way than sessions are reserved. */
  lemma PendingWithinActive(l: seq<Grant>)
    requires Ordered(l)
    ensures Pending(l) <= Active(l)
  {
    CountImplies(l, (g: Grant) => !g.dialDone, (g: Grant) => !g.released);
  }

  /** When everything has been released the limiter is as new. */
  lemma DrainedIsNew(l: seq<Grant>, active: int, pending: int, byToken: map<string, int>)
    requires Accounts(l, active, pending, byToken) && Ordered(l)
    requires forall g :: g in l ==> g.released
    ensures active == 0 && pending == 0 && byToken == map[]
  {
    CountNone(l, (g: Grant) => !g.released);
    PendingWithinActive(l);
    forall t ensures t !in byToken {
      CountNone(l, (g: Grant) => !g.released && g.token == t);
      assert Held(l, t) == 0;
    }
  }

  // ------------------------------------------------------------------ the limiter

  class Limiter {
    var active: int
    var pending: int
    var byToken: map<string, int>
    /** Every reservation ever made. */
    ghost var reservations: seq<Reservation>

    ghost function Ledger(): (l: seq<Grant>)
      reads this, reservations
      ensures |l| == |reservations|
    {
      seq(|reservations|, i requires 0 <= i < |reservations| reads this, reservations =>
        Grant(reservations[i].tokenID, reservations[i].dialDone, reservations[i].released))
    }

    ghost predicate Valid()
      reads this, reservations
    {
      && (forall i, j :: 0 <= i < j < |reservations| ==> reservations[i] != reservations[j])
      && (forall r :: r in reservations ==> r.limiter == this)
      && Accounts(Ledger(), active, pending, byToken)
      && Ordered(Ledger()) && WithinCaps(Ledger()) && TokensWithinCaps(Ledger())
    }

    constructor ()
      ensures Valid() && Ledger() == []
    {
      active, pending, byToken := 0, 0, map[];
      reservations := [];
    }

    /** Reserve a session and a dial. Too many dials is refused first, with 503; too many sessions,
        in all or for the token, with 429; nothing else is refused. */
    method Reserve(tokenID: string) returns (r: Result<Reservation, nat>)
      requires Valid()
      modifies this
      ensures Valid()
      ensures var l := old(Ledger());
              if Pending(l) >= MAX_PENDING_DIALS then r == Err(503)
              else if Active(l) >= MAX_SESSIONS || Held(l, tokenID) >= MAX_SESSIONS_PER_TOKEN then r == Err(429)
              else r.Ok?
      ensures r.Err? ==> Ledger() == old(Ledger()) && reservations == old(reservations)
      ensures r.Ok? ==> fresh(r.value) && reservations == old(reservations) + [r.value]
                        && Ledger() == old(Ledger()) + [Grant(tokenID, false, false)]
    {
      if pending >= MAX_PENDING_DIALS {
        return Err(503);
      }
      var held := if tokenID in byToken then byToken[tokenID] else 0;
      if active >= MAX_SESSIONS || held >= MAX_SESSIONS_PER_TOKEN {
        return Err(429);
      }
      ghost var l := Ledger();
      active := active + 1;
      pending := pending + 1;
      byToken := byToken[tokenID := held + 1];
      var granted := new Reservation(this, tokenID);
      reservations := reservations + [granted];
      assert Ledger() == l + [Grant(tokenID, false, false)];
      Granted(l, tokenID, active - 1, pending - 1, old(byToken));
      return Ok(granted);
    }
  }

  class Reservation {
    const limiter: Limiter
    const tokenID: string
    var dialDone: bool
    var released: bool

    constructor (limiter: Limiter, tokenID: string)
      ensures this.limiter == limiter && this.tokenID == tokenID && !dialDone && !released
    {
      this.limiter, this.tokenID, dialDone, released := limiter, tokenID, false, false;
    }

    /** The position of a reservation in its limiter's ledger. */
    ghost function Index(): (i: nat)
      requires this in limiter.reservations
      reads this, limiter
      ensures i < |limiter.reservations| && limiter.reservations[i] == this
    {
      var i: nat :| i < |limiter.reservations| && limiter.reservations[i] == this;
      i
    }

    /** The dial is over. A second call does nothing. */
    method UpstreamDialDone()
      requires limiter.Valid() && this in limiter.reservations
      modifies this, limiter
      ensures limiter.Valid() && limiter.reservations == old(limiter.reservations)
      ensures var i, g := old(Index()), old(limiter.Ledger())[old(Index())];
              limiter.Ledger() == old(limiter.Ledger())[i := g.(dialDone := true)]
    {
      ghost var i, l := Index(), limiter.Ledger();
      if !dialDone {
        dialDone := true;
        limiter.pending := limiter.pending - 1;
      }
      assert limiter.Ledger() == l[i := l[i].(dialDone := true)];
      Dialled(l, i, old(limiter.active), old(limiter.pending), old(limiter.byToken));
    }

    /** The session is over, and its dial with it. A second call does nothing. */
    method Release()
      requires limiter.Valid() && this in limiter.reservations
      modifies this, limiter
      ensures limiter.Valid() && limiter.reservations == old(limiter.reservations)
      ensures var i, g := old(Index()), old(limiter.Ledger())[old(Index())];
              limiter.Ledger() == old(limiter.Ledger())[i := g.(dialDone := true, released := true)]
    {
      ghost var i, l := Index(), limiter.Ledger();
      if released {
        assert l[i] in l;
        assert limiter.Ledger() == l[i := l[i].(dialDone := true, released := true)];
        return;
      }
      if !dialDone {
        dialDone := true;
        limiter.pending := limiter.pending - 1;
      }
      released := true;
      limiter.active := limiter.active - 1;
      Released(l, i, old(limiter.active), old(limiter.pending), old(limiter.byToken));
      limiter.byToken := limiter.byToken[tokenID := limiter.byToken[tokenID] - 1];
      if limiter.byToken[tokenID] <= 0 {
        limiter.byToken := limiter.byToken - {tokenID};
      }
      assert limiter.Ledger() == l[i := l[i].(dialDone := true, released := true)];
    }
  }

  // ----------------------------------------------------------- one step of each

  lemma Granted(l: seq<Grant>, token: string, active: int, pending: int, byToken: map<string, int>)
    requires Accounts(l, active, pending, byToken) && Ordered(l) && WithinCaps(l) && TokensWithinCaps(l)
    requires pending < MAX_PENDING_DIALS && active < MAX_SESSIONS && Held(l, token) < MAX_SESSIONS_PER_TOKEN
    ensures var m := l + [Grant(token, false, false)];
            && Accounts(m, active + 1, pending + 1, byToken[token := Held(l, token) + 1])
            && Ordered(m) && WithinCaps(m) && TokensWithinCaps(m)
  {
    var g := Grant(token, false, false);
    CountAppend(l, g, (g: Grant) => !g.released);
    CountAppend(l, g, (g: Grant) => !g.dialDone);
    forall t: string ensures Held(l + [g], t) == Held(l, t) + if t == token then 1 else 0 {
      CountAppend(l, g, (g: Grant) => !g.released && g.token == t);
    }
  }

  lemma Dialled(l: seq<Grant>, i: nat, active: int, pending: int, byToken: map<string, int>)
    requires i < |l| && Accounts(l, active, pending, byToken) && Ordered(l) && WithinCaps(l) && TokensWithinCaps(l)
    ensures var m := l[i := l[i].(dialDone := true)];
            && Accounts(m, active, if l[i].dialDone then pending else pending - 1, byToken)
            && Ordered(m) && WithinCaps(m) && TokensWithinCaps(m)
  {
    var g := l[i].(dialDone := true);
    CountUpdate(l, i, g, (g: Grant) => !g.released);
    CountUpdate(l, i, g, (g: Grant) => !g.dialDone);
    forall t: string ensures Held(l[i := g], t) == Held(l, t) {
      CountUpdate(l, i, g, (g: Grant) => !g.released && g.token == t);
    }
  }

  lemma Released(l: seq<Grant>, i: nat, active: int, pending: int, byToken: map<string, int>)
    requires i < |l| && Accounts(l, active, pending, byToken) && Ordered(l) && WithinCaps(l) && TokensWithinCaps(l)
    requires !l[i].released
    ensures var m, t := l[i := l[i].(dialDone := true, released := true)], l[i].token;
            && t in byToken
            && Accounts(m, active - 1, if l[i].dialDone then pending else pending - 1,
                        if byToken[t] <= 1 then byToken - {t} else byToken[t := byToken[t] - 1])
            && Ordered(m) && WithinCaps(m) && TokensWithinCaps(m)
  {
    var g := l[i].(dialDone := true, released := true);
    CountUpdate(l, i, g, (g: Grant) => !g.released);
    CountUpdate(l, i, g, (g: Grant) => !g.dialDone);
    CountSome(l, i, (g: Grant) => !g.released && g.token == l[i].token);
    assert Held(l, l[i].token) > 0;
    forall t: string ensures Held(l[i := g], t) == Held(l, t) - if t == l[i].token then 1 else 0 {
      CountUpdate(l, i, g, (g: Grant) => !g.released && g.token == t);
    }
  }
}
