/** Pings and pongs between the heartbeat and the reader of one connection. Every step is one
    operation on an atomic, a write, a timer or a frame. */
module Heartbeat {
  import opened Bytes
  import opened Frames

  /** Where the heartbeat stands; the number is its last sequence number. */
  datatype Beat =
    | Resting(n: nat)
    | Armed(n: nat)    // the expected pong is stored, the ping not yet written
    | Waiting(n: nat)  // the ping is written, the timer runs
    | Failing(n: nat)  // about to withdraw the expectation and close
    | Stopped(n: nat)

  /** Where the reader stands while it handles a pong. */
  datatype Reader =
    | Reading
    | Matched(n: nat)  // the pong was found to be the expected one
    | Acked(n: nat)    // it is acknowledged; the expectation is still to be cleared

  datatype Event =
    | RoundStarted(n: nat)
    | PongMatched(n: nat)
    | PongAcked(n: nat)
    | Cleared(n: nat, round: nat)
    | TimedOut(n: nat)
    | Survived(n: nat)

  datatype State = State(expected: nat, acknowledged: nat, beat: Beat, reader: Reader, history: seq<Event>)

  const INITIAL := State(0, 0, Resting(0), Reading, [])

  datatype Action =
    | Tick
    | PingWritten(ok: bool)
    | TimerFires
    | Withdraw
    | Done
    | PongArrives(payload: seq<byte>)
    | Acknowledge
    | ClearExpected

  predicate Enabled(s: State, a: Action) {
    match a
    case Tick => s.beat.Resting?
    case PingWritten(_) => s.beat.Armed?
    case TimerFires => s.beat.Waiting?
    case Withdraw => s.beat.Failing?
    case Done => s.beat.Resting? || s.beat.Waiting?
    case PongArrives(_) => s.reader.Reading?
    case Acknowledge => s.reader.Matched?
    case ClearExpected => s.reader.Acked?
  }

  /** Compare and swap with zero. */
  function Swapped(expected: nat, n: nat): nat {
    if expected == n then 0 else expected
  }

  function Step(s: State, a: Action): State
    requires Enabled(s, a)
  {
    match a
    case Tick =>
      var n := s.beat.n + 1;
      s.(expected := n, beat := Armed(n), history := s.history + [RoundStarted(n)])
    case PingWritten(ok) =>
      s.(beat := if ok then Waiting(s.beat.n) else Failing(s.beat.n))
    case TimerFires =>
      var n := s.beat.n;
      if s.acknowledged != n then s.(beat := Failing(n), history := s.history + [TimedOut(n)])
      else s.(beat := Resting(n), history := s.history + [Survived(n)])
    case Withdraw =>
      s.(expected := Swapped(s.expected, s.beat.n), beat := Stopped(s.beat.n))
    case Done =>
      s.(beat := Stopped(s.beat.n))
    case PongArrives(payload) =>
      if |payload| == 8 && BigEndian(payload) != 0 && s.expected == BigEndian(payload) then
        s.(reader := Matched(BigEndian(payload)), history := s.history + [PongMatched(BigEndian(payload))])
      else s
    case Acknowledge =>
      s.(acknowledged := s.reader.n, reader := Acked(s.reader.n), history := s.history + [PongAcked(s.reader.n)])
    case ClearExpected =>
      var n := s.reader.n;
      s.(expected := Swapped(s.expected, n), reader := Reading,
         history := if s.expected == n then s.history + [Cleared(n, s.beat.n)] else s.history)
  }

  predicate Runs(s: State, actions: seq<Action>)
    decreases |actions|
  {
    actions == [] || (Enabled(s, actions[0]) && Runs(Step(s, actions[0]), actions[1..]))
  }

  function Run(s: State, actions: seq<Action>): State
    requires Runs(s, actions)
    decreases |actions|
  {
    if actions == [] then s else Run(Step(s, actions[0]), actions[1..])
  }

  // ------------------------------------------------------------------ invariant

  /** A pong for round `n` was matched after the round began, and acknowledged. */
  ghost predicate Answered(h: seq<Event>, n: nat) {
    exists i, j, k :: 0 <= i < j < k < |h| && h[i] == RoundStarted(n) && h[j] == PongMatched(n) && h[k] == PongAcked(n)
  }

  /** A pong for round `n` was matched after the round began. */
  ghost predicate Heard(h: seq<Event>, n: nat) {
    exists i, j :: 0 <= i < j < |h| && h[i] == RoundStarted(n) && h[j] == PongMatched(n)
  }

  /** What an event needs to have before it: round `n + 1` begins only after round `n` was
      answered; the reader clears no round but the current one; a round times out only if it
      was never acknowledged, and survives only if it was answered. */
  ghost predicate Justified(h: seq<Event>, e: Event) {
    match e
    case RoundStarted(n) => n > 1 ==> Answered(h, n - 1)
    case PongMatched(n) => RoundStarted(n) in h
    case PongAcked(n) => Heard(h, n)
    case Cleared(n, round) => n == round && Answered(h, n)
    case TimedOut(n) => PongAcked(n) !in h
    case Survived(n) => Answered(h, n)
  }

  ghost predicate Sound(h: seq<Event>) {
    forall k :: 0 <= k < |h| ==> Justified(h[..k], h[k])
  }

  ghost predicate Inv(s: State) {
    var n := s.beat.n;
    && Sound(s.history)
    && (s.expected == 0 || s.expected == n)
    && s.acknowledged <= n
    && (forall m: nat :: PongAcked(m) in s.history ==> m <= s.acknowledged)
    && (s.acknowledged > 0 ==> Answered(s.history, s.acknowledged))
    && (s.beat.Resting? ==> s.acknowledged == n)
    && (s.beat.Armed? || s.beat.Waiting? ==> n > 0)
    && (s.expected != 0 ==> RoundStarted(n) in s.history)
    && (s.reader.Matched? ==> s.reader.n == n && s.acknowledged < n && Heard(s.history, n))
    && (s.reader.Acked? ==> s.reader.n == s.acknowledged > 0)
    && (s.reader.Reading? && s.acknowledged == n ==> s.expected == 0)
  }

  lemma SoundAppend(h: seq<Event>, e: Event)
    requires Sound(h) && Justified(h, e)
    ensures Sound(h + [e])
  {
    hide Justified;
    forall k | 0 <= k < |h + [e]| ensures Justified((h + [e])[..k], (h + [e])[k]) {
      if k < |h| {
        assert (h + [e])[..k] == h[..k];
      } else {
        assert (h + [e])[..k] == h;
      }
    }
  }

  lemma AnsweredLater(h: seq<Event>, e: Event, n: nat)
    ensures Answered(h, n) ==> Answered(h + [e], n)
    ensures Heard(h, n) ==> Heard(h + [e], n)
  {
    if Answered(h, n) {
      var i, j, k :| 0 <= i < j < k < |h| && h[i] == RoundStarted(n) && h[j] == PongMatched(n) && h[k] == PongAcked(n);
      assert (h + [e])[i] == RoundStarted(n) && (h + [e])[j] == PongMatched(n) && (h + [e])[k] == PongAcked(n);
    }
    if Heard(h, n) {
      var i, j :| 0 <= i < j < |h| && h[i] == RoundStarted(n) && h[j] == PongMatched(n);
      assert (h + [e])[i] == RoundStarted(n) && (h + [e])[j] == PongMatched(n);
    }
  }

  lemma HeardByMatch(h: seq<Event>, n: nat)
    requires RoundStarted(n) in h
    ensures Heard(h + [PongMatched(n)], n)
  {
    var i :| 0 <= i < |h| && h[i] == RoundStarted(n);
    assert (h + [PongMatched(n)])[i] == RoundStarted(n) && (h + [PongMatched(n)])[|h|] == PongMatched(n);
  }

  lemma AnsweredByAck(h: seq<Event>, n: nat)
    requires Heard(h, n)
    ensures Answered(h + [PongAcked(n)], n)
  {
    var i, j :| 0 <= i < j < |h| && h[i] == RoundStarted(n) && h[j] == PongMatched(n);
    var g := h + [PongAcked(n)];
    assert g[i] == RoundStarted(n) && g[j] == PongMatched(n) && g[|h|] == PongAcked(n);
  }

  lemma StepInv(s: State, a: Action)
    requires Inv(s) && Enabled(s, a)
    ensures Inv(Step(s, a))
  {
    hide Answered, Heard, Sound, BigEndian;
    var h, n, t := s.history, s.beat.n, Step(s, a);
    if t.history != h {
      var e := t.history[|h|];
      assert t.history == h + [e];
      AnsweredLater(h, e, s.acknowledged);
      AnsweredLater(h, e, n);
      match e {
        case PongMatched(m) => HeardByMatch(h, m);
        case PongAcked(m) => AnsweredByAck(h, m);
        case _ =>
      }
      SoundAppend(h, e);
    }
  }

  lemma {:induction false} RunInv(s: State, actions: seq<Action>)
    requires Inv(s) && Runs(s, actions)
    ensures Inv(Run(s, actions))
    decreases |actions|
  {
    hide Inv, Step, Enabled;
    if actions != [] {
      StepInv(s, actions[0]);
      RunInv(Step(s, actions[0]), actions[1..]);
    }
  }

  lemma InitialInv()
    ensures Inv(INITIAL)
  {
  }

  /** Over every interleaving, every round after the first begins only when a pong carrying the
      number of the round before was matched after that round had begun; no clearing hits a newer
      round; only rounds without an acknowledged pong time out. */
  lemma HeartbeatSound(actions: seq<Action>)
    requires Runs(INITIAL, actions)
    ensures Sound(Run(INITIAL, actions).history)
  {
    InitialInv();
    RunInv(INITIAL, actions);
  }

  // ------------------------------------------------------- what keeps a link up

  /** At the end of a round the link stays up exactly when a pong was acknowledged for it. */
  lemma TimerExact(actions: seq<Action>)
    requires Runs(INITIAL, actions) && Run(INITIAL, actions).beat.Waiting?
    ensures var s := Run(INITIAL, actions);
            Step(s, TimerFires).beat
                == if PongAcked(s.beat.n) in s.history then Resting(s.beat.n) else Failing(s.beat.n)
  {
    InitialInv();
    RunInv(INITIAL, actions);
    var s := Run(INITIAL, actions);
    if s.acknowledged == s.beat.n {
      var i, j, k :| 0 <= i < j < k < |s.history| && s.history[i] == RoundStarted(s.beat.n)
                     && s.history[j] == PongMatched(s.beat.n) && s.history[k] == PongAcked(s.beat.n);
    }
  }

  /** The reader's late clearing leaves the expectation of a newer round alone. */
  lemma LateClearingHarmless(actions: seq<Action>)
    requires Runs(INITIAL, actions) && Run(INITIAL, actions).reader.Acked?
    ensures var s := Run(INITIAL, actions);
            Step(s, ClearExpected).expected == if s.reader.n == s.beat.n then 0 else s.expected
  {
    InitialInv();
    RunInv(INITIAL, actions);
  }

  /** A pong that does not carry the current number changes nothing, at any time. */
  lemma StalePongIgnored(actions: seq<Action>, payload: seq<byte>)
    requires Runs(INITIAL, actions) && Run(INITIAL, actions).reader.Reading?
    requires |payload| != 8 || BigEndian(payload) != Run(INITIAL, actions).beat.n
    ensures Step(Run(INITIAL, actions), PongArrives(payload)) == Run(INITIAL, actions)
  {
    hide BigEndian;
    InitialInv();
    RunInv(INITIAL, actions);
  }

  /** The ping of a round. */
  function PingPayload(n: nat): seq<byte> {
    ToBytes(n, 8)
  }

  /** A client that echoes the ping of the round under way is heard. */
  lemma EchoMatches(actions: seq<Action>)
    requires Runs(INITIAL, actions)
    requires Run(INITIAL, actions).reader.Reading? && 0 < Run(INITIAL, actions).expected < TWO_64
    ensures var s := Run(INITIAL, actions);
            Step(s, PongArrives(PingPayload(s.beat.n))).reader == Matched(s.beat.n)
  {
    InitialInv();
    RunInv(INITIAL, actions);
    Powers();
    BigEndianOfBytes(Run(INITIAL, actions).expected, 8);
    hide BigEndian, ToBytes;
  }
}
