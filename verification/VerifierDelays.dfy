/**
  The timed verifier with every delay of its shutdown bounded: a record's goroutine has left the group at
  most `slack` after its deadline, and the closer acts at most `lag` after the group has become empty.
 */
module VerifierDelays {
  import opened Verifier
  import opened VerifierSafety
  import opened VerifierTimed

  ghost predicate DiligentEnabled(c: Config, slack: nat, lag: nat, ts: TimedState, ta: TimedAction) {
    && TimedEnabled(c, slack, ts, ta)
    && (ta.Tick? ==> GroupInTime(ts, slack, ta.d) && CloserInTime(ts, lag, ta.d))
  }

  ghost predicate GroupInTime(ts: TimedState, slack: nat, d: nat) {
    forall i :: i in Group(ts.s.outers) && i < |ts.started| ==> ts.now + d <= ts.started[i] + RECORD_TIMEOUT + slack
  }

  ghost predicate CloserInTime(ts: TimedState, lag: nat, d: nat) {
    ts.s.closer.Armed? && ts.s.wg == 0 ==> ts.now + d <= ts.quietAt + lag
  }

  ghost predicate IsDiligentRun(
      c: Config, slack: nat, lag: nat, ts: TimedState, tas: seq<TimedAction>, tt: TimedState)
    decreases |tas|
  {
    if tas == [] then ts == tt
    else DiligentEnabled(c, slack, lag, ts, tas[0])
         && IsDiligentRun(c, slack, lag, TimedStep(c, slack, ts, tas[0]), tas[1..], tt)
  }

  /** The group empties in time, and so the closer gets to close in time. */
  ghost predicate Timely(c: Config, slack: nat, lag: nat, ts: TimedState) {
    && |ts.started| == |c.originals| && |ts.s.outers| == |c.originals|
    && GroupInTime(ts, slack, 0) && CloserInTime(ts, lag, 0)
    && (!ts.s.closer.Absent? ==> forall i :: 0 <= i < |ts.started| ==> ts.started[i] <= ts.closerAt)
    && (forall i :: 0 <= i < |ts.started| ==> ts.started[i] <= ts.now)
    && (ts.s.closer.Armed? ==> ts.quietAt <= ts.closerAt + RECORD_TIMEOUT + slack)
  }

  lemma TickTimely(c: Config, slack: nat, lag: nat, ts: TimedState, d: nat)
    requires Timely(c, slack, lag, ts) && DiligentEnabled(c, slack, lag, ts, Tick(d))
    ensures Timely(c, slack, lag, TimedStep(c, slack, ts, Tick(d)))
  {
  }

  lemma OuterTimely(c: Config, slack: nat, lag: nat, ts: TimedState, i: nat, o: OuterOp, tt: TimedState)
    requires Inv(c, ts.s) && Timely(c, slack, lag, ts) && !ts.s.panicked
    requires OuterEnabled(c, ts.s, i, o) && TimedEffect(c, ts, Outer(i, o), tt)
    ensures Timely(c, slack, lag, tt)
  {
    OuterOnlyStopsOwing(c, ts.s, i, o, tt.s);
  }

  lemma MainTimely(c: Config, slack: nat, lag: nat, ts: TimedState, m: MainOp, tt: TimedState)
    requires Inv(c, ts.s) && Timely(c, slack, lag, ts) && !ts.s.panicked
    requires MainEnabled(c, ts.s, m) && TimedEffect(c, ts, Main(m), tt)
    ensures Timely(c, slack, lag, tt)
  {
    if m.Spawn? {
      GroupsUpdate(ts.s.outers, ts.s.main.i, Waiting);
    }
  }

  lemma TimelyDo(c: Config, slack: nat, lag: nat, ts: TimedState, a: Action, tt: TimedState)
    requires Inv(c, ts.s) && Timely(c, slack, lag, ts) && Enabled(c, ts.s, a) && TimedEffect(c, ts, a, tt)
    ensures Timely(c, slack, lag, tt)
  {
    match a
    case Main(m) => MainTimely(c, slack, lag, ts, m, tt);
    case Outer(i, o) => OuterTimely(c, slack, lag, ts, i, o, tt);
    case _ =>
  }

  lemma TimelyStep(c: Config, slack: nat, lag: nat, ts: TimedState, ta: TimedAction)
    requires Inv(c, ts.s) && Timely(c, slack, lag, ts) && DiligentEnabled(c, slack, lag, ts, ta)
    ensures Timely(c, slack, lag, TimedStep(c, slack, ts, ta))
  {
    match ta
    case Tick(d) => TickTimely(c, slack, lag, ts, d);
    case Do(a) =>
      TimedHasEffect(c, slack, ts, a);
      TimelyDo(c, slack, lag, ts, a, TimedStep(c, slack, ts, ta));
  }

  lemma TooEarlyToForce(c: Config, slack: nat, lag: nat, ts: TimedState)
    requires Inv(c, ts.s) && Timely(c, slack, lag, ts) && slack + lag < CLOSER_WAIT - RECORD_TIMEOUT
    ensures ts.s.closer.Armed? ==> ts.now < ts.closerAt + CLOSER_WAIT
  {
    if ts.s.closer.Armed? && ts.s.wg > 0 {
      assert PastLoop(ts.s.main);
      var i :| i in Group(ts.s.outers);
    }
  }

  lemma {:induction false} TimelyRun(
      c: Config, slack: nat, lag: nat, ts: TimedState, tas: seq<TimedAction>, tt: TimedState)
    requires Inv(c, ts.s) && Timely(c, slack, lag, ts) && IsDiligentRun(c, slack, lag, ts, tas, tt)
    requires slack + lag < CLOSER_WAIT - RECORD_TIMEOUT
    ensures Do(Close(ForceClose)) !in tas
    decreases |tas|
  {
    if tas != [] {
      TooEarlyToForce(c, slack, lag, ts);
      TimelyStep(c, slack, lag, ts, tas[0]);
      if tas[0].Do? {
        StepKeeps(c, ts.s, tas[0].a);
      }
      TimelyRun(c, slack, lag, TimedStep(c, slack, ts, tas[0]), tas[1..], tt);
    }
  }

  /**
    When the two delays together are below 14 minutes 45 seconds, the 15-minute forced close never fires:
    the channel is always closed by the goroutines' completion.
   */
  lemma ForcedCloseNeverFires(
      c: Config, slack: nat, lag: nat, tas: seq<TimedAction>, tt: TimedState)
    requires IsDiligentRun(c, slack, lag, TimedInit(c), tas, tt) && slack + lag < 885_000
    ensures Do(Close(ForceClose)) !in tas
  {
    InitInv(c);
    assert Group(Init(c).outers) == {};
    TimelyRun(c, slack, lag, TimedInit(c), tas, tt);
  }
}
