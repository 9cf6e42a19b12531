/**
  The verifier with a clock (in milliseconds). Timers may fire only when due, and a goroutine whose
  deadline has passed sends its result within a known delay, the slack.
 */
module VerifierTimed {
  import opened Verifier
  import opened VerifierEffects
  import opened VerifierSafety

  const RECORD_TIMEOUT := 15_000
  const COLLECTOR_WAIT := 600_000
  const CLOSER_WAIT := 900_000

  /**
    started[i] is when record i's goroutine began, closerAt when the closer did, armed when the collector
    last entered its select, and quietAt when the closer began or a goroutine last left the group.
   */
  datatype TimedState = TimedState(s: State, now: nat, started: seq<nat>, closerAt: nat, armed: nat, quietAt: nat)

  datatype TimedAction = Tick(d: nat) | Do(a: Action)

  function TimedInit(c: Config): TimedState {
    TimedState(Init(c), 0, seq(|c.originals|, _ => 0), 0, 0, 0)
  }

  /** Timers are not early. */
  ghost predicate Due(ts: TimedState, a: Action) {
    match a
    case Outer(i, TimeOut) => i < |ts.started| && (ts.now >= ts.started[i] + RECORD_TIMEOUT || ts.s.cancelled)
    case Collect(WaitTooLong) => ts.now >= ts.armed + COLLECTOR_WAIT
    case Close(ForceClose) => ts.now >= ts.closerAt + CLOSER_WAIT
    case _ => true
  }

  /** 15 seconds a record, 10 minutes between results, 15 minutes for the group. */
  lemma TimersAre(ts: TimedState, i: nat)
    ensures i < |ts.started| ==> (Due(ts, Outer(i, TimeOut)) <==> ts.now >= ts.started[i] + 15_000 || ts.s.cancelled)
    ensures Due(ts, Collect(WaitTooLong)) <==> ts.now >= ts.armed + 600_000
    ensures Due(ts, Close(ForceClose)) <==> ts.now >= ts.closerAt + 900_000
  {
  }

  /** Time may not pass the deadline of a goroutine that owes a result by more than slack. */
  ghost predicate TimedEnabled(c: Config, slack: nat, ts: TimedState, ta: TimedAction) {
    match ta
    case Do(a) => Enabled(c, ts.s, a) && Due(ts, a)
    case Tick(d) =>
      forall i :: i in Owing(ts.s.outers) && i < |ts.started| ==> ts.now + d <= ts.started[i] + RECORD_TIMEOUT + slack
  }

  function StartedAfter(ts: TimedState, a: Action): seq<nat>
    requires a == Main(Spawn) ==> ts.s.main.Acquire?
  {
    if a == Main(Spawn) && ts.s.main.i < |ts.started| then ts.started[ts.s.main.i := ts.now] else ts.started
  }

  ghost function TimedStep(c: Config, slack: nat, ts: TimedState, ta: TimedAction): TimedState
    requires TimedEnabled(c, slack, ts, ta)
  {
    match ta
    case Tick(d) => ts.(now := ts.now + d)
    case Do(a) =>
      ts.(s := Step(c, ts.s, a),
          started := StartedAfter(ts, a),
          closerAt := if a == Main(StartCloser) then ts.now else ts.closerAt,
          armed := if a == Collect(Append) then ts.now else ts.armed,
          quietAt := if a == Main(StartCloser) || (a.Outer? && a.o.LeaveGroup?) then ts.now else ts.quietAt)
  }

  /** A record's deadline runs from its own start, the collector's from its last result, the closer's from its own. */
  lemma ClocksAre(c: Config, slack: nat, ts: TimedState, a: Action)
    requires TimedEnabled(c, slack, ts, Do(a))
    ensures var tt := TimedStep(c, slack, ts, Do(a));
            && tt.s == Step(c, ts.s, a) && tt.now == ts.now
            && (a == Main(Spawn) && ts.s.main.i < |ts.started| ==> tt.started == ts.started[ts.s.main.i := ts.now])
            && (a != Main(Spawn) ==> tt.started == ts.started)
            && (a == Collect(Append) ==> tt.armed == ts.now) && (a != Collect(Append) ==> tt.armed == ts.armed)
            && (a == Main(StartCloser) ==> tt.closerAt == ts.now)
            && (a != Main(StartCloser) ==> tt.closerAt == ts.closerAt)
  {
  }

  /** The same as a relation. */
  ghost predicate TimedEffect(c: Config, ts: TimedState, a: Action, tt: TimedState)
    requires Enabled(c, ts.s, a)
  {
    && Effect(c, ts.s, a, tt.s) && tt.now == ts.now
    && tt.started == StartedAfter(ts, a)
    && tt.closerAt == (if a == Main(StartCloser) then ts.now else ts.closerAt)
    && tt.armed == (if a == Collect(Append) then ts.now else ts.armed)
    && tt.quietAt == (if a == Main(StartCloser) || (a.Outer? && a.o.LeaveGroup?) then ts.now else ts.quietAt)
  }

  lemma TimedHasEffect(c: Config, slack: nat, ts: TimedState, a: Action)
    requires TimedEnabled(c, slack, ts, Do(a))
    ensures TimedEffect(c, ts, a, TimedStep(c, slack, ts, Do(a)))
  {
    StepHasEffect(c, ts.s, a);
  }

  ghost predicate IsTimedRun(c: Config, slack: nat, ts: TimedState, tas: seq<TimedAction>, tt: TimedState)
    decreases |tas|
  {
    if tas == [] then ts == tt
    else TimedEnabled(c, slack, ts, tas[0]) && IsTimedRun(c, slack, TimedStep(c, slack, ts, tas[0]), tas[1..], tt)
  }

  // ---------------------------------------------------------------- the closer's timer

  ghost predicate Punctual(c: Config, slack: nat, ts: TimedState) {
    && |ts.started| == |c.originals|
    && (forall i :: 0 <= i < |ts.started| ==> ts.started[i] <= ts.now)
    && (forall i :: i in Owing(ts.s.outers) ==> i < |ts.started| && ts.now <= ts.started[i] + RECORD_TIMEOUT + slack)
    && (!ts.s.closer.Absent? ==> forall i :: 0 <= i < |ts.started| ==> ts.started[i] <= ts.closerAt)
  }

  lemma PunctualStep(c: Config, slack: nat, ts: TimedState, ta: TimedAction)
    requires Inv(c, ts.s) && Punctual(c, slack, ts) && TimedEnabled(c, slack, ts, ta)
    requires slack < CLOSER_WAIT - RECORD_TIMEOUT
    ensures var tt := TimedStep(c, slack, ts, ta);
            Inv(c, tt.s) && Punctual(c, slack, tt) && (!ts.s.cutShort ==> !tt.s.cutShort)
  {
    if ta.Do? {
      StepKeeps(c, ts.s, ta.a);
      TimedHasEffect(c, slack, ts, ta.a);
      PunctualDo(c, slack, ts, ta.a, TimedStep(c, slack, ts, ta));
    }
  }

  lemma PunctualDo(c: Config, slack: nat, ts: TimedState, a: Action, tt: TimedState)
    requires Inv(c, ts.s) && Punctual(c, slack, ts) && Enabled(c, ts.s, a) && Due(ts, a) && TimedEffect(c, ts, a, tt)
    requires slack < CLOSER_WAIT - RECORD_TIMEOUT
    ensures Punctual(c, slack, tt) && (!ts.s.cutShort ==> !tt.s.cutShort)
  {
    match a
    case Main(m) => PunctualMain(c, slack, ts, m, tt);
    case Outer(i, o) => OuterOnlyStopsOwing(c, ts.s, i, o, tt.s);
    case Close(z) => PunctualClose(c, slack, ts, z, tt);
    case _ =>
  }

  lemma PunctualMain(c: Config, slack: nat, ts: TimedState, m: MainOp, tt: TimedState)
    requires Inv(c, ts.s) && Punctual(c, slack, ts) && MainEnabled(c, ts.s, m) && !ts.s.panicked
    requires TimedEffect(c, ts, Main(m), tt)
    ensures Punctual(c, slack, tt)
  {
    if m.Spawn? {
      GroupsUpdate(ts.s.outers, ts.s.main.i, Waiting);
    }
  }

  lemma PunctualClose(c: Config, slack: nat, ts: TimedState, z: CloserOp, tt: TimedState)
    requires Punctual(c, slack, ts) && CloserEnabled(ts.s, z) && !ts.s.panicked && Due(ts, Close(z))
    requires TimedEffect(c, ts, Close(z), tt) && slack < CLOSER_WAIT - RECORD_TIMEOUT
    ensures Punctual(c, slack, tt) && (!ts.s.cutShort ==> !tt.s.cutShort)
  {
    if z.ForceClose? {
      assert Owing(ts.s.outers) == {};
    }
  }

  lemma {:induction false} TimedRunKeeps(c: Config, slack: nat, ts: TimedState, tas: seq<TimedAction>, tt: TimedState)
    requires Inv(c, ts.s) && Punctual(c, slack, ts) && !ts.s.cutShort && IsTimedRun(c, slack, ts, tas, tt)
    requires slack < CLOSER_WAIT - RECORD_TIMEOUT
    ensures Inv(c, tt.s) && Punctual(c, slack, tt) && !tt.s.cutShort
    decreases |tas|
  {
    if tas != [] {
      PunctualStep(c, slack, ts, tas[0]);
      TimedRunKeeps(c, slack, TimedStep(c, slack, ts, tas[0]), tas[1..], tt);
    }
  }

  /**
    If goroutines are late by less than 14 minutes 45 seconds, the 15-minute close never catches a
    result still to be sent, so nothing is ever sent on the closed channel.
   */
  lemma ForcedCloseIsHarmless(c: Config, slack: nat, tas: seq<TimedAction>, tt: TimedState)
    requires slack < 885_000 && IsTimedRun(c, slack, TimedInit(c), tas, tt)
    ensures !tt.s.cutShort && !tt.s.panicked
  {
    InitInv(c);
    assert Owing(Init(c).outers) == {};
    TimedRunKeeps(c, slack, TimedInit(c), tas, tt);
  }
}
