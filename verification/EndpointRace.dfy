/** One wave of racing dials: the goroutines, their channel, the receiver and the drain that
    closes late connections, under every schedule. */
module EndpointRace {
  import opened Wrappers
  import opened Collections

  /** Errors as the race tells them apart. */
  datatype Cause = Canceled | DeadlineExceeded | NetworkError

  datatype Outcome = Opened | Failed(cause: Cause)

  /** One goroutine. */
  datatype Worker =
    | Waiting                   // for its share of the stagger
    | Dialing
    | Dialed(outcome: Outcome)  // the dial returned, the context is still to be looked at
    | Ready(outcome: Outcome)   // about to send
    | Sent(outcome: Outcome)

  datatype Result = Result(from: nat, outcome: Outcome)

  datatype Report = ReportFailed(address: nat) | ReportSucceeded(address: nat)

  datatype Receiver =
    | Receiving(received: nat)
    | Returned(winner: Option<nat>)

  datatype Race = Race(
    workers: seq<Worker>,
    parent: Option<Cause>,    // why the caller's context is done, once it is
    ctx: Option<Cause>,       // why the wave's context is done, once it is
    channel: seq<Result>,     // sent and not yet received
    receiver: Receiver,
    drain: Option<int>,       // results the late drain still waits for
    connected: set<nat>,      // connections ever opened, by the index of their address
    closed: set<nat>,         // connections closed by the wave
    reports: seq<Report>,     // calls on the endpoint pool
    taken: seq<Result>)       // every result received so far, by the receiver or the drain

  /** The start of a wave; the first address does not wait. */
  function Start(n: nat, parent: Option<Cause>): Race
    requires n > 0
  {
    Race(seq(n, i => if i == 0 then Dialing else Waiting), parent, None, [], Receiving(0), None, {}, {}, [], [])
  }

  datatype Action =
    | StaggerOver(i: nat)
    | StaggerCut(i: nat)
    | DialReturns(i: nat, outcome: Outcome)
    | CheckContext(i: nat)
    | Send(i: nat)
    | ParentDone(cause: Cause)
    | Propagate
    | GiveUp
    | Receive
    | Drain

  predicate Enabled(s: Race, a: Action) {
    match a
    case StaggerOver(i) => i < |s.workers| && s.workers[i].Waiting?
    case StaggerCut(i) => i < |s.workers| && s.workers[i].Waiting? && s.ctx.Some?
    case DialReturns(i, _) => i < |s.workers| && s.workers[i].Dialing?
    case CheckContext(i) => i < |s.workers| && s.workers[i].Dialed?
    case Send(i) => i < |s.workers| && s.workers[i].Ready?
    case ParentDone(_) => s.parent.None?
    case Propagate => s.parent.Some? && s.ctx.None?
    case GiveUp => s.receiver.Receiving? && s.parent.Some?
    case Receive => s.receiver.Receiving? && s.channel != []
    case Drain => s.drain.Some? && s.drain.value > 0 && s.channel != []
  }

  function Cancel(ctx: Option<Cause>): Option<Cause> {
    if ctx.None? then Some(Canceled) else ctx
  }

  function Step(s: Race, a: Action): Race
    requires Enabled(s, a)
  {
    match a
    case StaggerOver(i) => s.(workers := s.workers[i := Dialing])
    case StaggerCut(i) => s.(workers := s.workers[i := Ready(Failed(s.ctx.value))])
    case DialReturns(i, outcome) =>
      s.(workers := s.workers[i := Dialed(outcome)],
         connected := if outcome.Opened? then s.connected + {i} else s.connected)
    case CheckContext(i) =>
      if s.workers[i].outcome.Opened? && s.ctx.Some? then
        s.(workers := s.workers[i := Ready(Failed(s.ctx.value))], closed := s.closed + {i})
      else s.(workers := s.workers[i := Ready(s.workers[i].outcome)])
    case Send(i) =>
      s.(workers := s.workers[i := Sent(s.workers[i].outcome)],
         channel := s.channel + [Result(i, s.workers[i].outcome)])
    case ParentDone(cause) => s.(parent := Some(cause))
    case Propagate => s.(ctx := s.parent)
    case GiveUp =>
      s.(ctx := Cancel(s.ctx), receiver := Returned(None), drain := Some(|s.workers| - s.receiver.received))
    case Receive => Received(s)
    case Drain => Drained(s)
  }

  function Received(s: Race): Race
    requires s.receiver.Receiving? && s.channel != []
  {
    var r, received := s.channel[0], s.receiver.received;
    var t := s.(channel := s.channel[1..], taken := s.taken + [r]);
    if r.outcome.Opened? then
      t.(ctx := Cancel(s.ctx), receiver := Returned(Some(r.from)), drain := Some(|s.workers| - received - 1),
         reports := s.reports + [ReportSucceeded(r.from)])
    else
      var u := if r.outcome.cause.Canceled? then t else t.(reports := s.reports + [ReportFailed(r.from)]);
      if received + 1 < |s.workers| then u.(receiver := Receiving(received + 1))
      else u.(receiver := Returned(None), ctx := Cancel(s.ctx))
  }

  function Drained(s: Race): Race
    requires s.drain.Some? && s.drain.value > 0 && s.channel != []
  {
    var r := s.channel[0];
    s.(channel := s.channel[1..], taken := s.taken + [r], drain := Some(s.drain.value - 1),
       closed := if r.outcome.Opened? then s.closed + {r.from} else s.closed)
  }

  predicate Runs(s: Race, actions: seq<Action>)
    decreases |actions|
  {
    actions == [] || (Enabled(s, actions[0]) && Runs(Step(s, actions[0]), actions[1..]))
  }

  function Run(s: Race, actions: seq<Action>): Race
    requires Runs(s, actions)
    decreases |actions|
  {
    if actions == [] then s else Run(Step(s, actions[0]), actions[1..])
  }

  // ------------------------------------------------------------------ invariant

  function All(s: Race): seq<Result> {
    s.taken + s.channel
  }

  /** Every goroutine that has sent is in the history once, with what it sent, and no other is. */
  ghost predicate SentOnce(s: Race) {
    var all := All(s);
    && (forall k :: 0 <= k < |all| ==> all[k].from < |s.workers| && s.workers[all[k].from] == Sent(all[k].outcome))
    && (forall j, k :: 0 <= j < k < |all| ==> all[j].from != all[k].from)
    && (forall i :: 0 <= i < |s.workers| && s.workers[i].Sent? ==> Result(i, s.workers[i].outcome) in all)
  }

  predicate Open(s: Race, i: nat) {
    i in s.connected && i !in s.closed
  }

  /** A connection is open exactly while a goroutine holds it, or it lies in the channel, or it
      is the one returned. */
  ghost predicate OpenHeld(s: Race) {
    && s.closed <= s.connected
    && (forall i :: i in s.connected ==> i < |s.workers| && !s.workers[i].Waiting? && !s.workers[i].Dialing?)
    && (forall i :: 0 <= i < |s.workers| ==> (Open(s, i) <==> Held(s, i)))
  }

  predicate Held(s: Race, i: nat)
    requires i < |s.workers|
  {
    match s.workers[i]
    case Waiting => false
    case Dialing => false
    case Dialed(o) => o.Opened?
    case Ready(o) => o.Opened?
    case Sent(o) => o.Opened? && (Result(i, Opened) in s.channel || s.receiver == Returned(Some(i)))
  }

  /** The reports that a run of failed results calls for. */
  function FailureReports(taken: seq<Result>): seq<Report> {
    if taken == [] then []
    else
      var r := taken[|taken| - 1];
      FailureReports(taken[..|taken| - 1])
      + if r.outcome.Failed? && !r.outcome.cause.Canceled? then [ReportFailed(r.from)] else []
  }

  predicate AllFailed(taken: seq<Result>) {
    forall r :: r in taken ==> r.outcome.Failed?
  }

  /** What the receiver has seen and reported: only failures, or failures and then a winner. */
  ghost predicate Reported(s: Race) {
    match s.receiver
    case Receiving(received) =>
      received == |s.taken| < |s.workers| && s.drain.None? && AllFailed(s.taken) && s.reports == FailureReports(s.taken)
    case Returned(w) =>
      && s.ctx.Some?
      && (if s.drain.Some? then s.drain.value == |s.workers| - |s.taken| else |s.taken| == |s.workers|)
      && exists k :: 0 <= k <= |s.taken| && Verdict(s, w, k)
  }

  /** The receiver stopped after `k` results. */
  ghost predicate Verdict(s: Race, w: Option<nat>, k: nat)
    requires k <= |s.taken|
  {
    && AllFailed(s.taken[..k])
    && match w
       case None => s.reports == FailureReports(s.taken[..k]) && (s.parent.Some? || k == |s.workers|)
       case Some(i) =>
         k < |s.taken| && s.taken[k] == Result(i, Opened)
         && s.reports == FailureReports(s.taken[..k]) + [ReportSucceeded(i)]
  }

  ghost predicate Inv(s: Race) {
    |s.workers| > 0 && SentOnce(s) && OpenHeld(s) && Reported(s)
  }

  lemma StartInv(n: nat, parent: Option<Cause>)
    requires n > 0
    ensures Inv(Start(n, parent))
  {
  }

  function Indices(n: nat): set<nat> {
    if n == 0 then {} else Indices(n - 1) + {n - 1}
  }

  lemma {:induction false} IndicesExact(n: nat)
    ensures |Indices(n)| == n && forall i: nat :: i in Indices(n) <==> i < n
  {
    if n > 0 {
      IndicesExact(n - 1);
    }
  }

  /** Results are never more than goroutines, and as many only when all have sent. */
  lemma CountSent(s: Race)
    requires SentOnce(s)
    ensures |All(s)| <= |s.workers|
    ensures |All(s)| == |s.workers| <==> forall i :: 0 <= i < |s.workers| ==> s.workers[i].Sent?
  {
    hide All, SentOnce, Froms;
    var all, n := All(s), |s.workers|;
    UsedFroms(s);
    IndicesExact(n);
    SubsetSize(Froms(all), Indices(n));
    assert |all| == n <==> Froms(all) == Indices(n);
    UsedAll(s);
  }

  function Froms(all: seq<Result>): set<nat> {
    set r | r in all :: r.from
  }

  lemma UsedFroms(s: Race)
    requires SentOnce(s)
    ensures |Froms(All(s))| == |All(s)| && Froms(All(s)) <= Indices(|s.workers|)
  {
    hide All;
    DistinctFroms(All(s));
    IndicesExact(|s.workers|);
  }

  lemma UsedAll(s: Race)
    requires SentOnce(s)
    ensures Froms(All(s)) == Indices(|s.workers|) <==> forall i :: 0 <= i < |s.workers| ==> s.workers[i].Sent?
  {
    hide All;
    var all, n := All(s), |s.workers|;
    IndicesExact(n);
    UsedFroms(s);
    forall i | 0 <= i < n ensures s.workers[i].Sent? <==> i in Froms(all) {
      if s.workers[i].Sent? {
        assert Result(i, s.workers[i].outcome) in all;
      }
    }
  }


  lemma {:induction false} DistinctFroms(all: seq<Result>)
    requires forall j, k :: 0 <= j < k < |all| ==> all[j].from != all[k].from
    ensures |set r | r in all :: r.from| == |all|
  {
    if all != [] {
      DistinctFroms(all[1..]);
      assert (set r | r in all :: r.from) == (set r | r in all[1..] :: r.from) + {all[0].from};
    }
  }

  lemma SentOnceSame(s: Race, t: Race)
    requires SentOnce(s) && All(t) == All(s) && |t.workers| == |s.workers|
    requires forall i :: 0 <= i < |s.workers| && (s.workers[i].Sent? || t.workers[i].Sent?) ==>
               t.workers[i] == s.workers[i]
    ensures SentOnce(t)
  {
    hide All;
  }

  lemma SentOnceSend(s: Race, i: nat)
    requires SentOnce(s) && Enabled(s, Send(i))
    ensures SentOnce(Step(s, Send(i)))
  {
    var t, r := Step(s, Send(i)), Result(i, s.workers[i].outcome);
    var all, more := All(s), All(t);
    assert more == all + [r];
    hide All;
    forall k | 0 <= k < |all| ensures all[k].from != i && more[k] == all[k] {
    }
    assert more[|all|] == r;
    forall j | 0 <= j < |t.workers| && t.workers[j].Sent? ensures Result(j, t.workers[j].outcome) in more {
      if j != i {
        assert Result(j, s.workers[j].outcome) in all;
      }
    }
  }

  lemma SentOnceStep(s: Race, a: Action)
    requires SentOnce(s) && Enabled(s, a)
    ensures SentOnce(Step(s, a))
  {
    hide SentOnce;
    if a.Send? {
      SentOnceSend(s, a.i);
    } else {
      assert All(Step(s, a)) == All(s);
      SentOnceSame(s, Step(s, a));
    }
  }

  /** The head of the channel is found nowhere else. */
  lemma HeadOnce(s: Race)
    requires SentOnce(s) && s.channel != []
    ensures forall r :: r in s.channel[1..] || r in s.taken ==> r.from != s.channel[0].from
    ensures s.channel[0].from < |s.workers| && s.workers[s.channel[0].from] == Sent(s.channel[0].outcome)
  {
    var all, c := All(s), |s.taken|;
    assert all[c] == s.channel[0];
    forall r | r in s.channel[1..] ensures r.from != s.channel[0].from {
      var k :| 0 <= k < |s.channel[1..]| && s.channel[1..][k] == r;
      assert all[c + 1 + k] == r;
    }
    forall r | r in s.taken ensures r.from != s.channel[0].from {
      var k :| 0 <= k < |s.taken| && s.taken[k] == r;
      assert all[k] == r;
    }
  }

  lemma OpenHeldLocal(s: Race, a: Action)
    requires OpenHeld(s) && Enabled(s, a) && !a.Receive? && !a.Drain?
    ensures OpenHeld(Step(s, a))
  {
    var t := Step(s, a);
    assert a.CheckContext? ==> (Open(s, a.i) <==> Held(s, a.i));
    forall i | 0 <= i < |s.workers| ensures Open(t, i) <==> Held(t, i) {
      assert Open(s, i) <==> Held(s, i);
    }
  }

  lemma OpenHeldTake(s: Race, a: Action)
    requires Inv(s) && Enabled(s, a) && (a.Receive? || a.Drain?)
    ensures OpenHeld(Step(s, a))
  {
    var t, r := Step(s, a), s.channel[0];
    HeadOnce(s);
    hide SentOnce;
    assert s.channel == [r] + s.channel[1..];
    if s.receiver.Returned? && s.receiver.winner.Some? {
      WinnerTaken(s);
    }
    assert Open(s, r.from) <==> Held(s, r.from);
    forall i | 0 <= i < |s.workers| ensures Open(t, i) <==> Held(t, i) {
      assert Open(s, i) <==> Held(s, i);
    }
  }

  lemma WinnerTaken(s: Race)
    requires Reported(s) && s.receiver.Returned? && s.receiver.winner.Some?
    ensures Result(s.receiver.winner.value, Opened) in s.taken
  {
  }

  lemma FailureReportsPush(taken: seq<Result>, r: Result)
    ensures FailureReports(taken + [r])
            == FailureReports(taken)
                + if r.outcome.Failed? && !r.outcome.cause.Canceled? then [ReportFailed(r.from)] else []
  {
    assert (taken + [r])[..|taken|] == taken;
  }

  lemma ReportedReceive(s: Race)
    requires Inv(s) && Enabled(s, Receive)
    ensures Reported(Step(s, Receive))
  {
    var t, r, k := Step(s, Receive), s.channel[0], |s.taken|;
    FailureReportsPush(s.taken, r);
    hide SentOnce, OpenHeld, FailureReports;
    assert t.taken[..k] == s.taken && t.taken[k] == r && t.taken[..k + 1] == t.taken;
    if r.outcome.Opened? {
      assert Verdict(t, Some(r.from), k);
    } else if k + 1 == |s.workers| {
      assert Verdict(t, None, k + 1);
    }
  }

  lemma ReportedStep(s: Race, a: Action)
    requires Inv(s) && Enabled(s, a)
    ensures Reported(Step(s, a))
  {
    var t := Step(s, a);
    if a.Receive? {
      ReportedReceive(s);
    } else {
      hide SentOnce, OpenHeld, FailureReports;
      if s.receiver.Returned? {
        var k :| 0 <= k <= |s.taken| && Verdict(s, s.receiver.winner, k);
        assert t.taken[..k] == s.taken[..k];
        assert Verdict(t, t.receiver.winner, k);
      } else if a.GiveUp? {
        assert s.taken[..|s.taken|] == s.taken;
        assert Verdict(t, None, |s.taken|);
      }
    }
  }

  lemma StepInv(s: Race, a: Action)
    requires Inv(s) && Enabled(s, a)
    ensures Inv(Step(s, a)) && |Step(s, a).workers| == |s.workers|
  {
    SentOnceStep(s, a);
    ReportedStep(s, a);
    if a.Receive? || a.Drain? { OpenHeldTake(s, a); } else { OpenHeldLocal(s, a); }
    hide SentOnce, OpenHeld, Reported;
  }

  lemma {:induction false} RunInv(s: Race, actions: seq<Action>)
    requires Inv(s) && Runs(s, actions)
    ensures Inv(Run(s, actions)) && |Run(s, actions).workers| == |s.workers|
    decreases |actions|
  {
    if actions != [] {
      hide Inv, Enabled, Step;
      StepInv(s, actions[0]);
      RunInv(Step(s, actions[0]), actions[1..]);
    }
  }

  // ------------------------------------------------------------------ main results

  /** The receiver has returned and the drain, if one was started, is over. */
  predicate Over(s: Race) {
    s.receiver.Returned? && (s.drain.None? || s.drain.value == 0)
  }

  /** At every moment of every schedule the connection that was returned is open, and a
      connection that is open is held by a goroutine, lies in the channel, or is that one. */
  lemma NoConnectionLost(n: nat, parent: Option<Cause>, actions: seq<Action>)
    requires n > 0 && Runs(Start(n, parent), actions)
    ensures var s := Run(Start(n, parent), actions);
            && (s.receiver.Returned? && s.receiver.winner.Some? ==> Open(s, s.receiver.winner.value))
            && OpenHeld(s)
  {
    StartInv(n, parent);
    RunInv(Start(n, parent), actions);
    var s := Run(Start(n, parent), actions);
    if s.receiver.Returned? && s.receiver.winner.Some? {
      var i := s.receiver.winner.value;
      WinnerTaken(s);
      var k :| 0 <= k < |s.taken| && s.taken[k] == Result(i, Opened);
      assert All(s)[k] == Result(i, Opened);
      assert Held(s, i);
    }
  }

  /** Once a wave is over every goroutine's one result has been received exactly once, and the
      only connection still open is the one that was returned, if one was. */
  lemma RaceSettles(n: nat, parent: Option<Cause>, actions: seq<Action>)
    requires n > 0 && Runs(Start(n, parent), actions) && Over(Run(Start(n, parent), actions))
    ensures var s := Run(Start(n, parent), actions);
            && |s.taken| == n == |s.workers| && s.channel == []
            && (forall i: nat :: i < n ==> s.workers[i].Sent? && Result(i, s.workers[i].outcome) in s.taken)
            && (forall j, k :: 0 <= j < k < n ==> s.taken[j].from != s.taken[k].from)
            && (forall i: nat :: Open(s, i) <==> s.receiver.winner == Some(i))
  {
    StartInv(n, parent);
    RunInv(Start(n, parent), actions);
    var s := Run(Start(n, parent), actions);
    assert |s.taken| == n;
    CountSent(s);
    assert s.channel == [] && All(s) == s.taken;
    NoConnectionLost(n, parent, actions);
    forall i: nat ensures Open(s, i) <==> s.receiver.winner == Some(i) {
      if Open(s, i) {
        assert Held(s, i);
      }
    }
  }

  /** What the pool hears: while results are received, of every failure that is not a cancellation,
      in the order of the results; with a winner, of those received before it and then of the winner;
      without one, of those received before the caller gave up, or of all. It hears of no address
      twice. */
  lemma ReportsExact(n: nat, parent: Option<Cause>, actions: seq<Action>)
    requires n > 0 && Runs(Start(n, parent), actions)
    ensures var s := Run(Start(n, parent), actions);
            && OncePerAddress(s.reports)
            && match s.receiver
               case Receiving(_) => AllFailed(s.taken) && s.reports == FailureReports(s.taken)
               case Returned(None) =>
                 exists k :: 0 <= k <= |s.taken| && AllFailed(s.taken[..k]) && (s.parent.Some? || k == n)
                   && s.reports == FailureReports(s.taken[..k])
               case Returned(Some(i)) =>
                 exists k :: 0 <= k < |s.taken| && AllFailed(s.taken[..k]) && s.taken[k] == Result(i, Opened)
                   && s.reports == FailureReports(s.taken[..k]) + [ReportSucceeded(i)]
  {
    StartInv(n, parent);
    RunInv(Start(n, parent), actions);
    RunSize(Start(n, parent), actions);
    var s := Run(Start(n, parent), actions);
    match s.receiver
    case Receiving(_) =>
      assert All(s)[..|s.taken|] == s.taken;
      FailuresOnce(All(s), |s.taken|);
    case Returned(w) =>
      var k :| 0 <= k <= |s.taken| && Verdict(s, w, k);
      assert AllFailed(s.taken[..k]);
      assert All(s)[..k] == s.taken[..k];
      FailuresOnce(All(s), k);
      if w.Some? {
        assert All(s)[k] == s.taken[k];
      }
  }

  predicate OncePerAddress(reports: seq<Report>) {
    forall i, j :: 0 <= i < j < |reports| ==> reports[i].address != reports[j].address
  }

  /** The failures among results of different goroutines are of different addresses. */
  lemma {:induction false} FailuresOnce(all: seq<Result>, k: nat)
    requires k <= |all| && forall i, j :: 0 <= i < j < |all| ==> all[i].from != all[j].from
    ensures OncePerAddress(FailureReports(all[..k]))
    ensures forall r :: r in FailureReports(all[..k]) ==> exists i :: 0 <= i < k && all[i].from == r.address
  {
    if k > 0 {
      assert all[..k][..k - 1] == all[..k - 1];
      FailuresOnce(all, k - 1);
    }
  }

  lemma {:induction false} RunSize(s: Race, actions: seq<Action>)
    requires Runs(s, actions)
    ensures |Run(s, actions).workers| == |s.workers|
    decreases |actions|
  {
    if actions != [] {
      StepSize(s, actions[0]);
      hide Step, Enabled;
      RunSize(Step(s, actions[0]), actions[1..]);
    }
  }

  lemma StepSize(s: Race, a: Action)
    requires Enabled(s, a)
    ensures |Step(s, a).workers| == |s.workers|
  {
  }

  /** Once the receiver has returned, nothing more is reported. */
  lemma {:induction false} ReportsEnd(s: Race, actions: seq<Action>)
    requires Runs(s, actions) && s.receiver.Returned?
    ensures Run(s, actions).reports == s.reports && Run(s, actions).receiver == s.receiver
    decreases |actions|
  {
    if actions != [] {
      StepEnds(s, actions[0]);
      hide Step, Enabled;
      ReportsEnd(Step(s, actions[0]), actions[1..]);
    }
  }

  lemma StepEnds(s: Race, a: Action)
    requires Enabled(s, a) && s.receiver.Returned?
    ensures Step(s, a).reports == s.reports && Step(s, a).receiver == s.receiver
  {
  }

  /** A wave without a winner was cut short by its caller, or every address failed. */
  lemma NoWinnerMeansNone(n: nat, parent: Option<Cause>, actions: seq<Action>)
    requires n > 0 && Runs(Start(n, parent), actions)
    requires Run(Start(n, parent), actions).receiver == Returned(None)
    requires Run(Start(n, parent), actions).parent.None?
    ensures AllFailed(Run(Start(n, parent), actions).taken) && |Run(Start(n, parent), actions).taken| == n
  {
    StartInv(n, parent);
    RunInv(Start(n, parent), actions);
    var s := Run(Start(n, parent), actions);
    var k :| 0 <= k <= |s.taken| && Verdict(s, None, k);
    CountSent(s);
    assert s.taken[..k] == s.taken;
  }

  // ------------------------------------------------------------------- termination

  function Left(w: Worker): nat {
    match w
    case Waiting => 5
    case Dialing => 4
    case Dialed(_) => 3
    case Ready(_) => 2
    case Sent(_) => 0
  }

  /** Steps that can still be taken, at most. */
  function Measure(s: Race): nat {
    Total(s.workers, Left) + |s.channel| + (if s.parent.None? then 1 else 0) + (if s.ctx.None? then 1 else 0)
    + (if s.receiver.Receiving? then 1 else 0)
  }

  lemma StepDecreases(s: Race, a: Action)
    requires Enabled(s, a)
    ensures Measure(Step(s, a)) < Measure(s)
  {
    match a {
      case StaggerOver(i) => TotalUpdate(s.workers, i, Step(s, a).workers[i], Left);
      case StaggerCut(i) => TotalUpdate(s.workers, i, Step(s, a).workers[i], Left);
      case DialReturns(i, _) => TotalUpdate(s.workers, i, Step(s, a).workers[i], Left);
      case CheckContext(i) => TotalUpdate(s.workers, i, Step(s, a).workers[i], Left);
      case Send(i) => TotalUpdate(s.workers, i, Step(s, a).workers[i], Left);
      case _ =>
    }
  }

  /** Every schedule is finite. */
  lemma {:induction false} RunsEnd(s: Race, actions: seq<Action>)
    requires Runs(s, actions)
    ensures |actions| <= Measure(s)
    decreases |actions|
  {
    hide Measure, Enabled;
    if actions != [] {
      StepDecreases(s, actions[0]);
      RunsEnd(Step(s, actions[0]), actions[1..]);
    }
  }

  /** No schedule gets stuck: until the wave is over some goroutine, the receiver or the drain
      can move, provided that dials return. */
  lemma NeverStuck(n: nat, parent: Option<Cause>, actions: seq<Action>) returns (a: Action)
    requires n > 0 && Runs(Start(n, parent), actions) && !Over(Run(Start(n, parent), actions))
    ensures Enabled(Run(Start(n, parent), actions), a) && !a.ParentDone?
  {
    StartInv(n, parent);
    RunInv(Start(n, parent), actions);
    var s := Run(Start(n, parent), actions);
    CountSent(s);
    if i :| 0 <= i < n && !s.workers[i].Sent? {
      a := if s.workers[i].Waiting? then StaggerOver(i)
      else if s.workers[i].Dialing? then DialReturns(i, Failed(NetworkError))
      else if s.workers[i].Dialed? then CheckContext(i)
      else Send(i);
    } else {
      a := if s.receiver.Receiving? then Receive else Drain;
    }
  }
}
