/** The route check: one dispatcher and at most six workers over the requested data centres. */
module RouteCheck {
  import opened Wrappers
  import opened Collections
  import opened Sorting

  const MAX_WORKERS: nat := 6

  // ---------------------------------------------------------- the list of centres

  datatype TestDC = TestDC(dc: int, ip: string)

  /** The first request for every centre, in order. */
  function FirstOfEach(items: seq<TestDC>): seq<TestDC> {
    if items == [] then []
    else
      var before, last := FirstOfEach(items[..|items| - 1]), items[|items| - 1];
      if HasDC(items[..|items| - 1], last.dc) then before else before + [last]
  }

  predicate HasDC(items: seq<TestDC>, dc: int) {
    exists i :: 0 <= i < |items| && items[i].dc == dc
  }

  const BY_DC := (x: TestDC) => x.dc

  predicate Increasing(s: seq<TestDC>) {
    forall i, j :: 0 <= i < j < |s| ==> s[i].dc < s[j].dc
  }

  predicate DistinctDCs(s: seq<TestDC>) {
    forall i, j :: 0 <= i < j < |s| ==> s[i].dc != s[j].dc
  }

  predicate IsFirst(items: seq<TestDC>, x: TestDC) {
    exists i :: 0 <= i < |items| && items[i] == x && !HasDC(items[..i], x.dc)
  }

  lemma {:induction false} FirstOfEachExact(items: seq<TestDC>)
    ensures var r := FirstOfEach(items);
            && DistinctDCs(r)
            && (forall dc :: HasDC(r, dc) <==> HasDC(items, dc))
            && (forall x :: x in r <==> IsFirst(items, x))
  {
    if items != [] {
      hide IsFirst, HasDC, DistinctDCs;
      var init, last := items[..|items| - 1], items[|items| - 1];
      FirstOfEachExact(init);
      assert items == init + [last];
      forall dc ensures HasDC(FirstOfEach(items), dc) <==> HasDC(items, dc) {
        HasPush(init, last, dc);
        HasPush(FirstOfEach(init), last, dc);
      }
      if !HasDC(init, last.dc) {
        DistinctPush(FirstOfEach(init), last);
      }
      forall x ensures x in FirstOfEach(items) <==> IsFirst(items, x) {
        FirstPush(init, last, x);
      }
    } else {
      NoneHas();
    }
  }

  lemma NoneHas()
    ensures forall dc :: !HasDC([], dc)
    ensures forall x :: !IsFirst([], x)
  {
  }

  lemma DistinctPush(s: seq<TestDC>, x: TestDC)
    requires DistinctDCs(s) && !HasDC(s, x.dc)
    ensures DistinctDCs(s + [x])
  {
  }

  lemma HasPush(s: seq<TestDC>, x: TestDC, dc: int)
    ensures HasDC(s + [x], dc) <==> HasDC(s, dc) || x.dc == dc
  {
    if HasDC(s, dc) {
      var i :| 0 <= i < |s| && s[i].dc == dc;
      assert (s + [x])[i].dc == dc;
    }
    if x.dc == dc {
      assert (s + [x])[|s|].dc == dc;
    }
  }

  lemma FirstPush(s: seq<TestDC>, last: TestDC, x: TestDC)
    ensures IsFirst(s + [last], x) <==> IsFirst(s, x) || (x == last && !HasDC(s, last.dc))
  {
    var all := s + [last];
    assert all[..|s|] == s;
    forall i | 0 <= i <= |s| ensures all[..i] == s[..i] {
    }
    if i :| 0 <= i < |s| && s[i] == x && !HasDC(s[..i], x.dc) {
      assert all[i] == x;
    }
    if x == last && !HasDC(s, last.dc) {
      assert all[|s|] == x;
    }
  }

  /** Sorting a list of different centres puts them in strictly increasing order. */
  lemma SortIncreases(s: seq<TestDC>)
    requires DistinctDCs(s)
    ensures Increasing(SortBy(s, BY_DC))
  {
    hide SortBy;
    var r := SortBy(s, BY_DC);
    SortExact(s, BY_DC);
    forall i, j | 0 <= i < j < |r| ensures r[i].dc < r[j].dc {
      assert BY_DC(r[i]) <= BY_DC(r[j]);
      CountsOnce(s, r[i]);
      if r[i] == r[j] {
        CountsTwice(r, i, j);
      } else {
        assert r[i] in multiset(r) && r[j] in multiset(r);
        assert r[i] in s && r[j] in s;
      }
    }
  }

  /** The centres to check: the first request for every centre, in strictly increasing order. */
  method SortedDCs(items: seq<TestDC>) returns (dcs: seq<TestDC>)
    ensures Increasing(dcs)
    ensures forall x :: x in dcs <==> exists i :: 0 <= i < |items| && items[i] == x && !HasDC(items[..i], x.dc)
  {
    var seen: set<int> := {};
    var kept: seq<TestDC> := [];
    for i := 0 to |items|
      invariant kept == FirstOfEach(items[..i])
      invariant forall dc :: dc in seen <==> HasDC(items[..i], dc)
    {
      assert items[..i + 1][..i] == items[..i] && items[..i + 1] == items[..i] + [items[i]];
      forall dc ensures HasDC(items[..i + 1], dc) <==> HasDC(items[..i], dc) || items[i].dc == dc {
        HasPush(items[..i], items[i], dc);
      }
      if items[i].dc in seen {
        continue;
      }
      seen := seen + {items[i].dc};
      kept := kept + [items[i]];
    }
    assert items[..|items|] == items;
    FirstOfEachExact(items);
    SortExact(kept, BY_DC);
    SortIncreases(kept);
    dcs := SortBy(kept, BY_DC);
    forall x ensures x in dcs <==> x in kept {
      assert x in multiset(dcs) <==> x in multiset(kept);
    }
  }

  // --------------------------------------------------------------- the check pool

  /** The error of a check; none means that the centre was reached. */
  type Verdict = Option<string>

  datatype Pair = Pair(main: Verdict, media: Verdict)

  datatype Worker = Idle | GotJob(index: nat) | MainDone(index: nat) | Exited

  datatype Dispatcher =
    | Sending(next: nat)
    | Filling(from: nat, next: nat)  // the context was done; the rest is marked with its error
    | Joining(cancelled: bool)       // the job channel is closed, the workers are awaited
    | Finished

  /** What became of one entry: the checks that were made for it, and how often it was handed
      out or filled in. */
  datatype Trace = Trace(main: Option<Verdict>, media: Option<Verdict>, handed: nat, filled: nat)

  datatype Pool = Pool(
    ctx: Option<string>,
    workers: seq<Worker>,
    dispatcher: Dispatcher,
    errors: seq<Pair>,
    completed: seq<bool>,
    trace: seq<Trace>)

  function Start(n: nat, ctx: Option<string>): Pool {
    Pool(ctx, seq(if n > MAX_WORKERS then MAX_WORKERS else n, i => Idle), Sending(0),
      seq(n, i => Pair(None, None)), seq(n, i => false), seq(n, i => Trace(None, None, 0, 0)))
  }

  datatype Action =
    | ContextDone(cause: string)
    | Handoff(w: nat)
    | CheckMain(w: nat, verdict: Verdict)
    | CheckMedia(w: nat, verdict: Verdict)
    | Quit(w: nat)
    | SeeClosed(w: nat)
    | SeeCancel
    | Fill
    | CloseJobs
    | Join

  predicate Sized(p: Pool) {
    |p.errors| == |p.completed| == |p.trace|
  }

  predicate Enabled(p: Pool, a: Action) {
    match a
    case ContextDone(_) => p.ctx.None?
    case Handoff(w) => w < |p.workers| && p.workers[w].Idle? && p.dispatcher.Sending? && p.dispatcher.next < |p.errors|
    case CheckMain(w, _) => w < |p.workers| && p.workers[w].GotJob? && p.workers[w].index < |p.errors|
    case CheckMedia(w, _) => w < |p.workers| && p.workers[w].MainDone? && p.workers[w].index < |p.errors|
    case Quit(w) => w < |p.workers| && p.workers[w].Idle? && p.ctx.Some?
    case SeeClosed(w) => w < |p.workers| && p.workers[w].Idle? && (p.dispatcher.Joining? || p.dispatcher.Finished?)
    case SeeCancel => p.dispatcher.Sending? && p.dispatcher.next < |p.errors| && p.ctx.Some?
    case Fill => p.dispatcher.Filling? && p.dispatcher.next < |p.errors| && p.ctx.Some?
    case CloseJobs => (p.dispatcher.Sending? || p.dispatcher.Filling?) && p.dispatcher.next >= |p.errors|
    case Join => p.dispatcher.Joining? && forall w :: 0 <= w < |p.workers| ==> p.workers[w].Exited?
  }

  /** The last loop: entries that are not complete get the context's error. */
  function Tidied(p: Pool): seq<Pair>
    requires Sized(p)
  {
    if p.ctx.None? then p.errors
    else seq(|p.errors|, i requires 0 <= i < |p.errors| => if p.completed[i] then p.errors[i] else Pair(p.ctx, p.ctx))
  }

  function Step(p: Pool, a: Action): Pool
    requires Enabled(p, a) && Sized(p)
  {
    match a
    case ContextDone(cause) => p.(ctx := Some(cause))
    case Handoff(w) =>
      var i := p.dispatcher.next;
      p.(workers := p.workers[w := GotJob(i)], dispatcher := Sending(i + 1),
         trace := p.trace[i := p.trace[i].(handed := p.trace[i].handed + 1)])
    case CheckMain(w, verdict) =>
      var i := p.workers[w].index;
      p.(workers := p.workers[w := MainDone(i)], errors := p.errors[i := p.errors[i].(main := verdict)],
         trace := p.trace[i := p.trace[i].(main := Some(verdict))])
    case CheckMedia(w, verdict) =>
      var i := p.workers[w].index;
      p.(workers := p.workers[w := Idle], errors := p.errors[i := p.errors[i].(media := verdict)],
         completed := p.completed[i := true], trace := p.trace[i := p.trace[i].(media := Some(verdict))])
    case Quit(w) => p.(workers := p.workers[w := Exited])
    case SeeClosed(w) => p.(workers := p.workers[w := Exited])
    case SeeCancel => p.(dispatcher := Filling(p.dispatcher.next, p.dispatcher.next))
    case Fill =>
      var i := p.dispatcher.next;
      p.(dispatcher := Filling(p.dispatcher.from, i + 1), errors := p.errors[i := Pair(p.ctx, p.ctx)],
         completed := p.completed[i := true], trace := p.trace[i := p.trace[i].(filled := p.trace[i].filled + 1)])
    case CloseJobs => p.(dispatcher := Joining(p.dispatcher.Filling?))
    case Join => p.(dispatcher := Finished, errors := if p.dispatcher.cancelled then p.errors else Tidied(p))
  }

  predicate Runs(p: Pool, actions: seq<Action>)
    requires Sized(p)
    decreases |actions|
  {
    actions == [] || (Enabled(p, actions[0]) && Runs(Step(p, actions[0]), actions[1..]))
  }

  function Run(p: Pool, actions: seq<Action>): Pool
    requires Sized(p) && Runs(p, actions)
    decreases |actions|
  {
    if actions == [] then p else Run(Step(p, actions[0]), actions[1..])
  }

  // ------------------------------------------------------------------ invariant

  function IndexOf(w: Worker): Option<nat> {
    match w
    case GotJob(i) => Some(i)
    case MainDone(i) => Some(i)
    case _ => None
  }

  predicate Untouched(p: Pool, i: nat)
    requires Sized(p) && i < |p.errors|
  {
    p.trace[i] == Trace(None, None, 0, 0) && !p.completed[i]
  }

  /** Marked by the dispatcher, once, and never checked. */
  predicate FilledIn(p: Pool, i: nat)
    requires Sized(p) && i < |p.errors|
  {
    p.trace[i] == Trace(None, None, 0, 1) && p.completed[i] && p.ctx.Some? && p.errors[i] == Pair(p.ctx, p.ctx)
  }

  /** In the hands of one worker. */
  predicate UnderWay(p: Pool, i: nat, w: nat)
    requires Sized(p) && i < |p.errors| && w < |p.workers|
  {
    && p.trace[i].handed == 1 && p.trace[i].filled == 0 && p.trace[i].media.None? && !p.completed[i]
    && match p.workers[w]
       case GotJob(j) => j == i && p.trace[i].main.None?
       case MainDone(j) => j == i && p.trace[i].main == Some(p.errors[i].main)
       case _ => false
  }

  /** Checked by one worker, with the verdicts of its own checks. */
  predicate Checked(p: Pool, i: nat)
    requires Sized(p) && i < |p.errors|
  {
    p.trace[i] == Trace(Some(p.errors[i].main), Some(p.errors[i].media), 1, 0) && p.completed[i]
  }

  ghost predicate Entry(p: Pool, i: nat)
    requires Sized(p) && i < |p.errors|
  {
    match p.dispatcher
    case Sending(next) => if i < next then Handled(p, i) else Untouched(p, i)
    case Filling(from, next) =>
      if i < from then Handled(p, i) else if i < next then FilledIn(p, i) else Untouched(p, i)
    case _ => Handled(p, i) || FilledIn(p, i)
  }

  ghost predicate Handled(p: Pool, i: nat)
    requires Sized(p) && i < |p.errors|
  {
    Checked(p, i) || exists w :: 0 <= w < |p.workers| && UnderWay(p, i, w)
  }

  ghost predicate Inv(p: Pool) {
    && Sized(p)
    && (|p.errors| > 0 ==> |p.workers| > 0)
    && (forall i :: 0 <= i < |p.errors| ==> Entry(p, i))
    && (forall w :: 0 <= w < |p.workers| && IndexOf(p.workers[w]).Some? ==>
          IndexOf(p.workers[w]).value < |p.errors| && UnderWay(p, IndexOf(p.workers[w]).value, w))
    && (forall v, w :: 0 <= v < w < |p.workers| && IndexOf(p.workers[v]).Some? ==>
          IndexOf(p.workers[v]) != IndexOf(p.workers[w]))
    && (forall w :: 0 <= w < |p.workers| && p.workers[w].Exited? ==>
          p.ctx.Some? || p.dispatcher.Joining? || p.dispatcher.Finished?)
    && (p.dispatcher.Filling? ==> p.ctx.Some? && p.dispatcher.from <= p.dispatcher.next)
    && (p.dispatcher.Finished? ==> forall w :: 0 <= w < |p.workers| ==> p.workers[w].Exited?)
  }

  lemma StartInv(n: nat, ctx: Option<string>)
    ensures Inv(Start(n, ctx))
  {
  }

  /** An entry that a step does not touch keeps its holder. */
  lemma HandledKept(p: Pool, t: Pool, i: nat, x: nat)
    requires Sized(p) && Sized(t) && i < |p.errors| == |t.errors| && |t.workers| == |p.workers|
    requires t.errors[i] == p.errors[i] && t.completed[i] == p.completed[i] && t.trace[i] == p.trace[i]
    requires forall w :: 0 <= w < |p.workers| && w != x ==> t.workers[w] == p.workers[w]
    requires x < |p.workers| ==> t.workers[x] == p.workers[x] || IndexOf(p.workers[x]) != Some(i)
    requires Handled(p, i)
    ensures Handled(t, i)
  {
    if !Checked(p, i) {
      var w :| 0 <= w < |p.workers| && UnderWay(p, i, w);
      assert UnderWay(t, i, w);
    }
  }

  lemma HandoffInv(p: Pool, w: nat)
    requires Inv(p) && Enabled(p, Handoff(w))
    ensures Inv(Step(p, Handoff(w)))
  {
    var t, n := Step(p, Handoff(w)), p.dispatcher.next;
    assert Entry(p, n);
    assert UnderWay(t, n, w);
    forall i | 0 <= i < |p.errors| ensures Entry(t, i) {
      assert Entry(p, i);
      if i < n {
        HandledKept(p, t, i, w);
      }
    }
    forall v | 0 <= v < |p.workers| && IndexOf(p.workers[v]).Some? ensures IndexOf(p.workers[v]) != Some(n) {
      assert UnderWay(p, IndexOf(p.workers[v]).value, v);
    }
  }

  lemma CheckInv(p: Pool, a: Action)
    requires Inv(p) && Enabled(p, a) && (a.CheckMain? || a.CheckMedia?)
    ensures Inv(Step(p, a))
  {
    var t, i := Step(p, a), p.workers[a.w].index;
    assert UnderWay(p, i, a.w) && Entry(p, i);
    assert if a.CheckMain? then UnderWay(t, i, a.w) else Checked(t, i);
    forall j | 0 <= j < |p.errors| ensures Entry(t, j) {
      assert Entry(p, j);
      if j != i && Handled(p, j) {
        HandledKept(p, t, j, a.w);
      }
    }
    forall v | 0 <= v < |p.workers| && v != a.w && IndexOf(p.workers[v]).Some?
      ensures UnderWay(t, IndexOf(p.workers[v]).value, v)
    {
      assert UnderWay(p, IndexOf(p.workers[v]).value, v);
      assert IndexOf(p.workers[v]) != Some(i);
    }
  }

  /** Steps that change neither an entry nor a worker with a job. */
  lemma QuietInv(p: Pool, a: Action)
    requires Inv(p) && Enabled(p, a) && (a.ContextDone? || a.Quit? || a.SeeClosed? || a.SeeCancel? || a.CloseJobs?)
    ensures Inv(Step(p, a))
  {
    var t := Step(p, a);
    var x := if a.Quit? || a.SeeClosed? then a.w else |p.workers|;
    forall i | 0 <= i < |p.errors| ensures Entry(t, i) {
      assert Entry(p, i);
      if Handled(p, i) {
        HandledKept(p, t, i, x);
      }
    }
    forall v | 0 <= v < |p.workers| && IndexOf(t.workers[v]).Some? ensures UnderWay(t, IndexOf(t.workers[v]).value, v) {
      assert UnderWay(p, IndexOf(p.workers[v]).value, v);
    }
  }

  lemma FillInv(p: Pool)
    requires Inv(p) && Enabled(p, Fill)
    ensures Inv(Step(p, Fill))
  {
    var t, n := Step(p, Fill), p.dispatcher.next;
    assert Entry(p, n);
    forall i | 0 <= i < |p.errors| ensures Entry(t, i) {
      assert Entry(p, i);
      if i != n && Handled(p, i) {
        HandledKept(p, t, i, |p.workers|);
      }
    }
    forall v | 0 <= v < |p.workers| && IndexOf(t.workers[v]).Some? ensures UnderWay(t, IndexOf(t.workers[v]).value, v) {
      assert UnderWay(p, IndexOf(p.workers[v]).value, v);
    }
  }

  /** When all workers have left, every entry is complete, so the last loop changes nothing. */
  lemma AllComplete(p: Pool)
    requires Inv(p) && Enabled(p, Join)
    ensures forall i :: 0 <= i < |p.errors| ==> p.completed[i] && (Checked(p, i) || FilledIn(p, i))
    ensures Tidied(p) == p.errors
  {
    forall i | 0 <= i < |p.errors| ensures p.completed[i] && (Checked(p, i) || FilledIn(p, i)) {
      assert Entry(p, i);
    }
  }

  lemma StepInv(p: Pool, a: Action)
    requires Inv(p) && Enabled(p, a)
    ensures Inv(Step(p, a)) && |Step(p, a).errors| == |p.errors|
  {
    match a {
      case Handoff(w) => HandoffInv(p, w);
      case CheckMain(_, _) => CheckInv(p, a);
      case CheckMedia(_, _) => CheckInv(p, a);
      case Fill => FillInv(p);
      case Join =>
        AllComplete(p);
        var t := Step(p, a);
        forall i | 0 <= i < |p.errors| ensures Entry(t, i) {
          assert Checked(p, i) || FilledIn(p, i);
          assert Checked(p, i) ==> Checked(t, i);
          assert FilledIn(p, i) ==> FilledIn(t, i);
        }
      case _ => QuietInv(p, a);
    }
  }

  lemma {:induction false} RunInv(p: Pool, actions: seq<Action>)
    requires Inv(p) && Runs(p, actions)
    ensures Inv(Run(p, actions)) && |Run(p, actions).errors| == |p.errors|
    decreases |actions|
  {
    if actions != [] {
      hide Step, Enabled, Entry;
      StepInv(p, actions[0]);
      RunInv(Step(p, actions[0]), actions[1..]);
    }
  }

  // ------------------------------------------------------------------ main results

  /** Whatever the schedule and whenever the context ends, a finished check has for every centre
      one pair of verdicts from one party: the outcomes of its own two checks by the worker it was
      handed to, or the context's error twice from the dispatcher. */
  lemma CheckExact(n: nat, ctx: Option<string>, actions: seq<Action>)
    requires Runs(Start(n, ctx), actions) && Run(Start(n, ctx), actions).dispatcher.Finished?
    ensures var p := Run(Start(n, ctx), actions);
            && Sized(p) && |p.errors| == n
            && forall i :: 0 <= i < n ==>
                 (p.trace[i] == Trace(Some(p.errors[i].main), Some(p.errors[i].media), 1, 0))
                 || (p.trace[i] == Trace(None, None, 0, 1) && p.ctx.Some? && p.errors[i] == Pair(p.ctx, p.ctx))
  {
    StartInv(n, ctx);
    RunInv(Start(n, ctx), actions);
    var p := Run(Start(n, ctx), actions);
    forall i | 0 <= i < n
      ensures (p.trace[i] == Trace(Some(p.errors[i].main), Some(p.errors[i].media), 1, 0))
              || (p.trace[i] == Trace(None, None, 0, 1) && p.ctx.Some? && p.errors[i] == Pair(p.ctx, p.ctx))
    {
      assert Entry(p, i);
    }
  }

  /** A centre is reported reachable only if its own check was made and returned no error. */
  lemma OkOnlyIfChecked(n: nat, ctx: Option<string>, actions: seq<Action>, i: nat)
    requires Runs(Start(n, ctx), actions) && Run(Start(n, ctx), actions).dispatcher.Finished? && i < n
    ensures var p := Run(Start(n, ctx), actions);
            && Sized(p) && |p.errors| == n
            && (p.errors[i].main.None? ==> p.trace[i].main == Some(None))
            && (p.errors[i].media.None? ==> p.trace[i].media == Some(None))
  {
    CheckExact(n, ctx, actions);
  }

  // ------------------------------------------------------------------- termination

  function Left(w: Worker): nat {
    match w
    case GotJob(_) => 3
    case MainDone(_) => 2
    case Idle => 1
    case Exited => 0
  }

  /** Steps that can still be taken, at most. */
  function Measure(p: Pool): int {
    Total(p.workers, Left) + (if p.ctx.None? then 1 else 0)
    + match p.dispatcher
      case Sending(next) => 3 * (|p.errors| - next) + 4
      case Filling(_, next) => 3 * (|p.errors| - next) + 3
      case Joining(_) => 1
      case Finished => 0
  }

  predicate InRange(p: Pool) {
    match p.dispatcher
    case Sending(next) => next <= |p.errors|
    case Filling(_, next) => next <= |p.errors|
    case _ => true
  }

  lemma StepDecreases(p: Pool, a: Action)
    requires Sized(p) && InRange(p) && Enabled(p, a)
    ensures InRange(Step(p, a)) && 0 <= Measure(Step(p, a)) < Measure(p)
  {
    match a {
      case Handoff(w) => TotalUpdate(p.workers, w, Step(p, a).workers[w], Left);
      case CheckMain(w, _) => TotalUpdate(p.workers, w, Step(p, a).workers[w], Left);
      case CheckMedia(w, _) => TotalUpdate(p.workers, w, Step(p, a).workers[w], Left);
      case Quit(w) => TotalUpdate(p.workers, w, Step(p, a).workers[w], Left);
      case SeeClosed(w) => TotalUpdate(p.workers, w, Step(p, a).workers[w], Left);
      case _ =>
    }
  }

  /** Every schedule is finite. */
  lemma {:induction false} RunsEnd(p: Pool, actions: seq<Action>)
    requires Sized(p) && InRange(p) && Runs(p, actions)
    ensures |actions| <= Measure(p)
    decreases |actions|
  {
    if actions != [] {
      StepDecreases(p, actions[0]);
      hide Measure, Enabled, Step, InRange;
      RunsEnd(Step(p, actions[0]), actions[1..]);
    } else {
      assert Measure(p) >= 0;
    }
  }

  /** No schedule gets stuck: until the check is finished the dispatcher or a worker can move. */
  lemma NeverStuck(n: nat, ctx: Option<string>, actions: seq<Action>) returns (a: Action)
    requires Runs(Start(n, ctx), actions) && !Run(Start(n, ctx), actions).dispatcher.Finished?
    ensures Enabled(Run(Start(n, ctx), actions), a) && !a.ContextDone?
  {
    StartInv(n, ctx);
    RunInv(Start(n, ctx), actions);
    var p := Run(Start(n, ctx), actions);
    if w :| 0 <= w < |p.workers| && IndexOf(p.workers[w]).Some? {
      a := if p.workers[w].GotJob? then CheckMain(w, None) else CheckMedia(w, None);
    } else if p.dispatcher.Joining? {
      if w :| 0 <= w < |p.workers| && p.workers[w].Idle? {
        a := SeeClosed(w);
      } else {
        a := Join;
      }
    } else if p.dispatcher.next >= n {
      a := CloseJobs;
    } else if p.ctx.Some? {
      a := if p.dispatcher.Sending? then SeeCancel else Fill;
    } else {
      assert p.workers[0].Idle?;
      a := Handoff(0);
    }
  }

  // -------------------------------------------------------------------- the report

  /** One line of the report. */
  datatype Line = Line(dc: int, media: bool, verdict: Verdict)

  function Lines(dcs: seq<TestDC>, errors: seq<Pair>): (r: seq<Line>)
    requires |dcs| == |errors|
    ensures |r| == 2 * |dcs|
  {
    seq(2 * |dcs|, k requires 0 <= k < 2 * |dcs| =>
      Line(dcs[k / 2].dc, k % 2 == 1, if k % 2 == 0 then errors[k / 2].main else errors[k / 2].media))
  }

  function Digits(n: nat): string {
    if n < 10 then ['0' + n as char] else Digits(n / 10) + ['0' + (n % 10) as char]
  }

  function Decimal(n: int): string {
    if n < 0 then "-" + Digits(-n) else Digits(n)
  }

  function Text(l: Line): string {
    "DC" + Decimal(l.dc) + (if l.media then " media" else " main")
    + match l.verdict
      case Some(err) => " ERROR " + err + " (TCP_ONLY)\n"
      case None => " OK TCP_ONLY\n"
  }

  /** The number that decimal digits stand for. */
  function Value(s: string): nat {
    if s == "" then 0
    else Value(s[..|s| - 1]) * 10 + if '0' <= s[|s| - 1] <= '9' then s[|s| - 1] as int - '0' as int else 0
  }

  lemma {:induction false} DigitsExact(n: nat)
    ensures var s := Digits(n);
            && Value(s) == n && s != "" && (s[0] == '0' ==> n == 0 && s == "0")
            && forall k :: 0 <= k < |s| ==> '0' <= s[k] <= '9'
  {
    if n < 10 {
      assert Digits(n)[..0] == "";
    } else {
      DigitsExact(n / 10);
      var s := Digits(n);
      assert s[..|s| - 1] == Digits(n / 10);
    }
  }

  /** A line names its centre in decimal and its scope, and says OK or what the error was. */
  lemma LineTextExact(l: Line)
    ensures var number := if l.dc < 0 then "-" + Digits(-l.dc) else Digits(l.dc);
            var scope := if l.media then " media" else " main";
            Text(l) == if l.verdict.None? then "DC" + number + scope + " OK TCP_ONLY\n"
                       else "DC" + number + scope + (" ERROR " + l.verdict.value + " (TCP_ONLY)\n")
  {
    hide Digits;
  }

  function Report(lines: seq<Line>): string {
    if lines == [] then "" else Report(lines[..|lines| - 1]) + Text(lines[|lines| - 1])
  }

  /** The report has the main and the media line of every centre in turn, and all is available
      exactly when no check failed. */
  method FormatRouteReport(dcs: seq<TestDC>, errors: seq<Pair>) returns (text: string, allAvailable: bool)
    requires |dcs| == |errors|
    ensures text == Report(Lines(dcs, errors))
    ensures allAvailable <==> forall i :: 0 <= i < |errors| ==> errors[i] == Pair(None, None)
  {
    hide Text;
    text, allAvailable := "", true;
    ghost var lines := Lines(dcs, errors);
    for i := 0 to |dcs|
      invariant text == Report(lines[..2 * i])
      invariant allAvailable <==> forall j :: 0 <= j < i ==> errors[j] == Pair(None, None)
    {
      assert lines[..2 * i + 1][..2 * i] == lines[..2 * i];
      assert lines[..2 * i + 2][..2 * i + 1] == lines[..2 * i + 1];
      var main, media := Line(dcs[i].dc, false, errors[i].main), Line(dcs[i].dc, true, errors[i].media);
      assert lines[2 * i] == main && lines[2 * i + 1] == media;
      if errors[i].main.Some? {
        allAvailable := false;
      }
      text := text + Text(main);
      if errors[i].media.Some? {
        allAvailable := false;
      }
      text := text + Text(media);
    }
    assert lines[..2 * |dcs|] == lines;
  }

  /** A finished check of distinct centres reports them in strictly increasing order, each scope
      once, and says OK only of a scope whose own check returned no error. */
  lemma ReportSound(dcs: seq<TestDC>, ctx: Option<string>, actions: seq<Action>, k: nat)
    requires Increasing(dcs) && Runs(Start(|dcs|, ctx), actions)
    requires Run(Start(|dcs|, ctx), actions).dispatcher.Finished? && k < 2 * |dcs|
    ensures var p := Run(Start(|dcs|, ctx), actions);
            && Sized(p) && |p.errors| == |dcs|
            && var lines := Lines(dcs, p.errors);
            && (forall j :: 0 <= j < k ==>
                  lines[j].dc < lines[k].dc || (lines[j].dc == lines[k].dc && !lines[j].media && lines[k].media))
            && (lines[k].verdict.None? ==>
                 (if lines[k].media then p.trace[k / 2].media else p.trace[k / 2].main) == Some(None))
  {
    OkOnlyIfChecked(|dcs|, ctx, actions, k / 2);
    var p := Run(Start(|dcs|, ctx), actions);
    hide Run, Runs, Start;
    var lines := Lines(dcs, p.errors);
    forall j | 0 <= j < k
      ensures lines[j].dc < lines[k].dc || (lines[j].dc == lines[k].dc && !lines[j].media && lines[k].media)
    {
      if j / 2 == k / 2 {
        assert j % 2 == 0 && k % 2 == 1;
      } else {
        assert j / 2 < k / 2;
      }
    }
  }
}
