/** How many flush timers there can be, and what makes them more than one. */
module Flushing {
  import opened Wrappers
  import opened Text
  import opened Config
  import opened ControlState
  import opened StepFrames
  import opened ControlInvariant
  import opened TokenLedger
  import opened SecretReuse

  /** Callbacks that have not taken the lock yet. */
  function Pending(t: Timers): set<nat> {
    t.armed + t.fired
  }

  predicate Numbered(t: Timers) {
    t.armed !! t.fired && forall n :: n in Pending(t) ==> n < t.next
  }

  /** At most one callback is ahead, and the program remembers its timer. */
  predicate OneTimer(t: Timers) {
    Numbered(t) && Pending(t) == if t.handle.Some? then {t.handle.value} else {}
  }

  /** The step stops the remembered timer: the owner's change is on disk, or shutdown ends. */
  predicate Stops(cfg: Setup, p: Plane, a: Action) {
    match a
    case DoPrepare(ok) => ok
    case DoCreate(_, _) => Adds(cfg, p, a)
    case DoDelete(id, ok) => DeleteToken(cfg, p, id, ok).1.Ok?
    case DoBlock(t, d, block, now, ok) => now > 0 && SetBlocked(p, t, d, block, now, ok).1.Ok?
    case DoFinishShutdown(_) => p.shuttingDown
    case _ => false
  }

  /** The timer is stopped too late: its callback has begun. */
  predicate StopsFired(cfg: Setup, p: Plane, a: Action) {
    p.timers.handle.Some? && p.timers.handle.value in p.timers.fired && Stops(cfg, p, a)
  }

  predicate MayArm(a: Action) {
    a.DoRegister? || a.DoUnregister? || a.DoLocate?
  }

  /** What a step does to the timers: it stops the one that is remembered, arms one if none is and
      shutdown has not begun, lets one fire, or runs a callback, which arms another when the write
      of dirty memory fails. */
  lemma StepTimers(cfg: Setup, p: Plane, a: Action)
    requires !a.DoRestart?
    ensures var t, u := p.timers, Step(cfg, p, a).timers;
            if Stops(cfg, p, a) then
              u == t.(handle := None, armed := if t.handle.Some? then t.armed - {t.handle.value} else t.armed)
            else if MayArm(a) then
              u == t || (t.handle.None? && !p.shuttingDown
                         && u == Timers(Some(t.next), t.armed + {t.next}, t.fired, t.next + 1))
            else if a.DoFire? && a.timer in t.armed then
              u == t.(armed := t.armed - {a.timer}, fired := t.fired + {a.timer})
            else if a.DoFlush? && a.timer in t.fired then
              var rest := t.fired - {a.timer};
              u == if p.dirty && !a.ok then Timers(Some(t.next), t.armed + {t.next}, rest, t.next + 1)
                   else t.(fired := rest, handle := None)
            else u == t
  {
    hide CreateToken, Register, DeleteToken, SetBlocked, Disconnect, Unregister, Locate, Authorize, MintedId,
      EvictionOrder, LegacyId, ActiveKeys, AllSessions;
    if Enabled(p, a) {
      match a
      case DoCreate(args, ok) => CreateTimers(cfg, p, args, ok);
      case DoDelete(id, ok) => DeleteTimers(cfg, p, id, ok);
      case DoBlock(t, d, block, now, ok) => BlockTimers(p, t, d, block, now, ok);
      case DoDisconnect(t, d) => DisconnectTimers(p, t, d);
      case DoRegister(token, r, now, order) => RegisterTimers(cfg, p, token, r, now, order);
      case DoUnregister(sid, now) => UnregisterTimers(p, sid, now);
      case DoLocate(key, l) => LocateTimers(p, key, l);
      case _ =>
    }
  }

  lemma CreateTimers(cfg: Setup, p: Plane, args: CreateArgs, ok: bool)
    requires MintedId(args.drawnId)
    ensures CreateToken(cfg, p, args, ok).0.timers
            == if Adds(cfg, p, DoCreate(args, ok)) then Stop(p.timers) else p.timers
  {
    hide AllTokens, Requested, Replay, Stop;
    if Requested(cfg, args).Ok? {
      ReplaysAreReplayed(cfg, p.mem, args);
    }
  }

  lemma DeleteTimers(cfg: Setup, p: Plane, id: string, ok: bool)
    ensures var (q, r) := DeleteToken(cfg, p, id, ok); q.timers == if r.Ok? then Stop(p.timers) else p.timers
  {
    hide AllTokens, Refusal, Deletion, Trim, Stop;
  }

  lemma BlockTimers(p: Plane, t: string, d: string, block: bool, now: nat, ok: bool)
    ensures var (q, r) := SetBlocked(p, t, d, block, now, ok); q.timers == if r.Ok? then Stop(p.timers) else p.timers
  {
    hide DeviceKey, DeviceSessions, Stop;
  }

  lemma DisconnectTimers(p: Plane, t: string, d: string)
    ensures Disconnect(p, t, d).0.timers == p.timers
  {
    hide DeviceKey, DeviceSessions;
  }

  lemma RegisterTimers(cfg: Setup, p: Plane, token: Token, r: Request, now: nat, order: seq<string>)
    ensures var (q, sid) := Register(cfg, p, token, r, now, order);
            q.timers == if sid.None? || p.shuttingDown || p.timers.handle.Some? then p.timers else Arm(p.timers)
  {
    hide Admits, IdentityOf, Prune, Link, ClientKey, ApplyHeaders, Located, MergeKeys, OldKeys, Arm;
    var i, pruned := IdentityOf(token.id, r), p.(mem := Prune(p.mem, order));
    MergeFrame(pruned, OldKeys(pruned.mem, i, r), i);
  }

  lemma UnregisterTimers(p: Plane, sid: nat, now: nat)
    ensures Unregister(p, sid, now).timers
            == if sid !in p.closures || p.shuttingDown || p.timers.handle.Some? then p.timers else Arm(p.timers)
  {
    hide Unlink, Touch, Arm;
  }

  lemma LocateTimers(p: Plane, key: string, l: Lookup)
    ensures var u := Locate(p, key, l).timers;
            u == p.timers || (!p.shuttingDown && p.timers.handle.None? && u == Arm(p.timers))
  {
    hide Located, Found, Arm;
  }

  /** While at most one callback is ahead, a step leaves it so exactly if it does not stop a timer
      whose callback has begun. */
  lemma StepOneTimer(cfg: Setup, p: Plane, a: Action)
    requires OneTimer(p.timers)
    ensures OneTimer(Step(cfg, p, a).timers) <==> !StopsFired(cfg, p, a)
  {
    hide Step, Stops;
    if a.DoRestart? {
      RestartOneTimer(cfg, p, a);
    } else {
      StepTimers(cfg, p, a);
    }
  }

  lemma RestartOneTimer(cfg: Setup, p: Plane, a: Action)
    requires a.DoRestart? && OneTimer(p.timers)
    ensures OneTimer(Step(cfg, p, a).timers) && !Stops(cfg, p, a)
  {
    hide Start, ValidInstanceId;
  }

  predicate InTime(cfg: Setup, p: Plane, acts: seq<Action>)
    decreases |acts|
  {
    acts == []
    || (!StopsFired(cfg, p, acts[0]) && InTime(cfg, Step(cfg, p, acts[0]), acts[1..]))
  }

  /** From a first start, over any run in which no timer is stopped too late, at most one callback is
      ahead. */
  lemma FromStartOneTimer(cfg: Setup, generated: string, acts: seq<Action>)
    requires InTime(cfg, Initial(cfg, generated), acts)
    ensures OneTimer(Run(cfg, Initial(cfg, generated), acts).timers)
  {
    hide InTime, Run;
    RunOneTimer(cfg, Initial(cfg, generated), acts);
  }

  lemma {:induction false} RunOneTimer(cfg: Setup, p: Plane, acts: seq<Action>)
    requires OneTimer(p.timers) && InTime(cfg, p, acts)
    ensures OneTimer(Run(cfg, p, acts).timers)
    decreases |acts|
  {
    hide Step, OneTimer, StopsFired;
    if acts != [] {
      StepOneTimer(cfg, p, acts[0]);
      RunOneTimer(cfg, Step(cfg, p, acts[0]), acts[1..]);
    }
  }

  /** Once shutdown has begun the callbacks that are ahead do not get more. */
  lemma ShutdownArmsNone(cfg: Setup, p: Plane, a: Action)
    requires !a.DoRestart? && p.shuttingDown && Numbered(p.timers)
    ensures Numbered(Step(cfg, p, a).timers) && |Pending(Step(cfg, p, a).timers)| <= |Pending(p.timers)|
  {
    hide Step, Stops;
    StepTimers(cfg, p, a);
    if a.DoFlush? && a.timer in p.timers.fired {
      assert !Stops(cfg, p, a) by { CallbackStopsNone(cfg, p, a); }
      CallbackReplaced(p.timers, a.timer, Step(cfg, p, a).timers);
    } else {
      Fewer(Pending(Step(cfg, p, a).timers), Pending(p.timers));
    }
  }

  lemma CallbackReplaced(t: Timers, timer: nat, u: Timers)
    requires Numbered(t) && timer in t.fired
    requires var rest := t.fired - {timer};
             u == t.(fired := rest, handle := None) || u == Timers(Some(t.next), t.armed + {t.next}, rest, t.next + 1)
    ensures Numbered(u) && |Pending(u)| <= |Pending(t)|
  {
    var rest := Pending(t) - {timer};
    assert Pending(u) == rest || Pending(u) == rest + {t.next};
  }

  lemma CallbackStopsNone(cfg: Setup, p: Plane, a: Action)
    requires a.DoFlush?
    ensures !Stops(cfg, p, a)
  {
  }

  lemma Fewer(a: set<nat>, b: set<nat>)
    requires a <= b
    ensures |a| <= |b|
  {
    assert b == a + (b - a);
  }

  /** Stopped too late, and there are two timers: the callback forgets the one that was armed after
      the stop, and the next session that ends arms another. */
  lemma TwoTimers(cfg: Setup, p: Plane, first: nat, second: nat, now: nat)
    requires OneTimer(p.timers) && p.timers.handle.Some? && p.timers.armed == {} && !p.shuttingDown
    requires first in p.closures && second in p.closures && first != second
    ensures var t := p.timers;
            var acts := [DoPrepare(true), DoUnregister(first, now), DoFlush(t.handle.value, true),
                         DoUnregister(second, now)];
            Run(cfg, p, acts).timers == Timers(Some(t.next + 1), {t.next, t.next + 1}, {}, t.next + 2)
  {
    hide Step, Unlink, Touch;
    var t := p.timers;
    var one, two, three, four :=
      DoPrepare(true), DoUnregister(first, now), DoFlush(t.handle.value, true), DoUnregister(second, now);
    var p1 := Step(cfg, p, one);
    var p2 := Step(cfg, p1, two);
    var p3 := Step(cfg, p2, three);
    var p4 := Step(cfg, p3, four);
    StepsOf(cfg, p, p1, p2, p3, t.handle.value, first, second, now);
    UnregisterTimers(p1, first, now);
    UnregisterTimers(p3, second, now);
    FourSteps(cfg, p, one, two, three, four);
  }

  lemma StepsOf(cfg: Setup, p: Plane, p1: Plane, p2: Plane, p3: Plane, t: nat, first: nat, second: nat, now: nat)
    ensures Step(cfg, p, DoPrepare(true)) == PersistCritical(p, true)
    ensures Step(cfg, p1, DoUnregister(first, now)) == Unregister(p1, first, now)
    ensures Step(cfg, p2, DoFlush(t, true)) == FlushCallback(p2, t, true)
    ensures Step(cfg, p3, DoUnregister(second, now)) == Unregister(p3, second, now)
  {
    hide PersistCritical, Unregister, FlushCallback;
  }

  lemma FourSteps(cfg: Setup, p: Plane, one: Action, two: Action, three: Action, four: Action)
    ensures Run(cfg, p, [one, two, three, four])
            == Step(cfg, Step(cfg, Step(cfg, Step(cfg, p, one), two), three), four)
  {
    hide Step, Run;
    var p1 := Step(cfg, p, one);
    var p2 := Step(cfg, p1, two);
    var p3 := Step(cfg, p2, three);
    assert [one, two, three, four] == [one] + [two, three, four] && [two, three, four] == [two] + [three, four];
    assert [three, four] == [three] + [four] && [four] == [four] + [];
    RunFirst(cfg, p, one, [two, three, four]);
    RunFirst(cfg, p1, two, [three, four]);
    RunFirst(cfg, p2, three, [four]);
    RunFirst(cfg, p3, four, []);
    RunNone(cfg, Step(cfg, p3, four));
  }
}
