/**
  How far the delay bounds can be pushed: runs in which a late goroutine meets the forced close, built for
  every source with a stored record, and the exact conditions they give.
 */
module VerifierLate {
  import opened Verification
  import opened Verifier
  import opened VerifierEffects
  import opened VerifierSafety
  import opened VerifierRuns
  import opened VerifierTimed
  import opened VerifierDelays
  import opened VerifierWitnesses

  predicate Stored(c: Config, i: nat) {
    i < |c.originals| && c.originals[i].id in c.stored
  }

  ghost predicate HasStored(c: Config) {
    exists i :: Stored(c, i)
  }

  /** The first i records have been dealt with: the missing reported, the stored ones checked and finished. */
  function Passed(c: Config, chan: seq<VerificationRecord>, i: nat): State
    requires i <= |c.originals|
  {
    var n := |c.originals|;
    Init(c).(main := Loop(i),
             outers := seq(n, j requires 0 <= j < n => if j < i && Stored(c, j) then Finished else NotSpawned),
             inners := seq(n, j requires 0 <= j < n => if j < i && Stored(c, j) then Delivered else Off),
             chan := chan)
  }

  /** An untimed run in which no timer fires. */
  ghost predicate Calm(actions: seq<Action>) {
    forall i :: 0 <= i < |actions| ==>
      !IsSafetyTimer(actions[i]) && !(actions[i].Outer? && actions[i].o.TimeOut?)
  }

  /** A calm run from s to t. */
  ghost predicate CalmRun(c: Config, s: State, actions: seq<Action>, t: State) {
    IsRun(c, s, actions, t) && Calm(actions)
  }

  lemma PassMissing(c: Config, chan: seq<VerificationRecord>, i: nat)
      returns (actions: seq<Action>, more: seq<VerificationRecord>)
    requires i < |c.originals| && !Stored(c, i) && |chan| == i
    ensures CalmRun(c, Passed(c, chan, i), actions, Passed(c, more, i + 1)) && |more| == i + 1
  {
    var s := Passed(c, chan, i);
    more := chan + [Failed(c.originals[i], NotFound)];
    TwoStepRun(c, s, Main(LookAtContext), Main(SendMissing));
    actions := [Main(LookAtContext), Main(SendMissing)];
    var t, u := Step(c, Step(c, s, Main(LookAtContext)), Main(SendMissing)), Passed(c, more, i + 1);
    assert t.outers == u.outers;
    assert t.inners == u.inners;
  }

  /** The same, except that record m's goroutine still waits for its check. */
  function Late(c: Config, chan: seq<VerificationRecord>, m: nat, i: nat): State
    requires m < i <= |c.originals|
  {
    var s := Passed(c, chan, i);
    s.(outers := s.outers[m := Waiting], inners := s.inners[m := Running], sem := 1, wg := 1)
  }

  lemma StartStored(c: Config, chan: seq<VerificationRecord>, i: nat) returns (actions: seq<Action>)
    requires c.workers >= 1 && Stored(c, i) && |chan| == i
    ensures CalmRun(c, Passed(c, chan, i), actions, Late(c, chan, i, i + 1))
  {
    var s := Passed(c, chan, i);
    var s1 := Step(c, s, Main(LookAtContext));
    var s2 := Step(c, s1, Main(AddToGroup));
    var t, u := Step(c, s2, Main(Spawn)), Late(c, chan, i, i + 1);
    TwoStepRun(c, s, Main(LookAtContext), Main(AddToGroup));
    RunThen(c, s, [Main(LookAtContext), Main(AddToGroup)], s2, Main(Spawn));
    actions := [Main(LookAtContext), Main(AddToGroup)] + [Main(Spawn)];
    assert t.outers == u.outers;
    assert t.inners == u.inners;
  }

  /** The check is made and reported ... */
  lemma CheckStored(c: Config, chan: seq<VerificationRecord>, i: nat)
      returns (actions: seq<Action>, v: VerificationRecord, t: State)
    requires Stored(c, i) && |chan| == i
    ensures var s := Late(c, chan, i, i + 1);
            CalmRun(c, s, actions, t)
            && t == s.(outers := s.outers[i := Sending(v)], inners := s.inners[i := Delivered])
  {
    var s := Late(c, chan, i, i + 1);
    var check, take := Inner(i, true, true), Outer(i, TakeReport);
    TwoStepRun(c, s, check, take);
    actions := [check, take];
    v := VerifyRecord(c.key, c.originals[i], c.stored[c.originals[i].id], true, true);
    t := Step(c, Step(c, s, check), take);
    assert t.inners == s.inners[i := Delivered];
  }

  /** ... and the goroutine finishes. */
  lemma FinishStored(c: Config, chan: seq<VerificationRecord>, i: nat, v: VerificationRecord, s: State)
      returns (actions: seq<Action>)
    requires Stored(c, i) && |chan| == i
    requires var late := Late(c, chan, i, i + 1);
             s == late.(outers := late.outers[i := Sending(v)], inners := late.inners[i := Delivered])
    ensures CalmRun(c, s, actions, Passed(c, chan + [v], i + 1))
  {
    var s1 := Step(c, s, Outer(i, SendResult));
    var s2 := Step(c, s1, Outer(i, ReleaseSlot));
    var t, u := Step(c, s2, Outer(i, LeaveGroup)), Passed(c, chan + [v], i + 1);
    TwoStepRun(c, s, Outer(i, SendResult), Outer(i, ReleaseSlot));
    RunThen(c, s, [Outer(i, SendResult), Outer(i, ReleaseSlot)], s2, Outer(i, LeaveGroup));
    actions := [Outer(i, SendResult), Outer(i, ReleaseSlot)] + [Outer(i, LeaveGroup)];
    assert t.outers == u.outers;
    assert t.inners == u.inners;
  }

  lemma CalmConcat(c: Config, s: State, a: seq<Action>, t: State, b: seq<Action>, u: State)
    requires CalmRun(c, s, a, t) && CalmRun(c, t, b, u)
    ensures CalmRun(c, s, a + b, u)
  {
    RunConcat(c, s, a, t, b, u);
  }

  lemma PassStored(c: Config, chan: seq<VerificationRecord>, i: nat)
      returns (actions: seq<Action>, more: seq<VerificationRecord>)
    requires c.workers >= 1 && Stored(c, i) && |chan| == i
    ensures CalmRun(c, Passed(c, chan, i), actions, Passed(c, more, i + 1)) && |more| == i + 1
  {
    var start := StartStored(c, chan, i);
    var check, v, t := CheckStored(c, chan, i);
    var finish := FinishStored(c, chan, i, v, t);
    more := chan + [v];
    CalmConcat(c, Passed(c, chan, i), start, Late(c, chan, i, i + 1), check, t);
    CalmConcat(c, Passed(c, chan, i), start + check, t, finish, Passed(c, more, i + 1));
    actions := start + check + finish;
  }

  /** A calm run past the first i records. */
  lemma {:induction false} PassAll(c: Config, i: nat) returns (actions: seq<Action>, chan: seq<VerificationRecord>)
    requires c.workers >= 1 && i <= |c.originals|
    ensures |chan| == i && CalmRun(c, Init(c), actions, Passed(c, chan, i))
  {
    if i == 0 {
      actions, chan := [], [];
      assert Passed(c, [], 0) == Init(c);
    } else {
      var before, had := PassAll(c, i - 1);
      var step;
      if Stored(c, i - 1) {
        step, chan := PassStored(c, had, i - 1);
      } else {
        step, chan := PassMissing(c, had, i - 1);
      }
      CalmConcat(c, Init(c), before, Passed(c, had, i - 1), step, Passed(c, chan, i));
      actions := before + step;
    }
  }

  /** With record m still waited for, the missing records after it are passed ... */
  lemma LatePassMissing(c: Config, chan: seq<VerificationRecord>, m: nat, i: nat)
      returns (actions: seq<Action>, more: seq<VerificationRecord>)
    requires m < i < |c.originals| && !Stored(c, i) && |chan| == i - 1
    ensures CalmRun(c, Late(c, chan, m, i), actions, Late(c, more, m, i + 1)) && |more| == i
  {
    var s := Late(c, chan, m, i);
    more := chan + [Failed(c.originals[i], NotFound)];
    TwoStepRun(c, s, Main(LookAtContext), Main(SendMissing));
    actions := [Main(LookAtContext), Main(SendMissing)];
    var t, u := Step(c, Step(c, s, Main(LookAtContext)), Main(SendMissing)), Late(c, more, m, i + 1);
    assert t.outers == u.outers;
    assert t.inners == u.inners;
  }

  /** ... up to the end, when m is the last stored one. */
  lemma {:induction false} LatePassAll(c: Config, m: nat, i: nat)
      returns (actions: seq<Action>, chan: seq<VerificationRecord>)
    requires c.workers >= 1 && Stored(c, m) && m < i <= |c.originals| && forall j :: m < j < i ==> !Stored(c, j)
    ensures |chan| == i - 1 && CalmRun(c, Init(c), actions, Late(c, chan, m, i))
  {
    if i == m + 1 {
      var before;
      before, chan := PassAll(c, m);
      var start := StartStored(c, chan, m);
      CalmConcat(c, Init(c), before, Passed(c, chan, m), start, Late(c, chan, m, i));
      actions := before + start;
    } else {
      var before, had := LatePassAll(c, m, i - 1);
      var step;
      step, chan := LatePassMissing(c, had, m, i - 1);
      CalmConcat(c, Init(c), before, Late(c, had, m, i - 1), step, Late(c, chan, m, i));
      actions := before + step;
    }
  }

  lemma {:induction false} LastStored(c: Config, i: nat) returns (m: nat)
    requires i <= |c.originals| && exists j :: 0 <= j < i && Stored(c, j)
    ensures m < i && Stored(c, m) && forall j :: m < j < i ==> !Stored(c, j)
  {
    if Stored(c, i - 1) {
      m := i - 1;
    } else {
      m := LastStored(c, i - 1);
    }
  }

  // ---------------------------------------------------------------- with the clock

  /** The untimed state s at time 0, when nothing has been timed yet. */
  function AtZero(c: Config, s: State): TimedState {
    TimedState(s, 0, seq(|c.originals|, _ => 0), 0, 0, 0)
  }

  function Instantly(actions: seq<Action>): seq<TimedAction> {
    if actions == [] then [] else [Do(actions[0])] + Instantly(actions[1..])
  }

  /** A calm run can be made at time 0, whatever the delays allowed. */
  lemma {:induction false} CalmIsInstant(c: Config, slack: nat, lag: nat, s: State, actions: seq<Action>, t: State)
    requires CalmRun(c, s, actions, t)
    ensures IsDiligentRun(c, slack, lag, AtZero(c, s), Instantly(actions), AtZero(c, t))
    decreases |actions|
  {
    if actions != [] {
      CalmStep(c, slack, lag, s, actions[0]);
      CalmIsInstant(c, slack, lag, Step(c, s, actions[0]), actions[1..], t);
      assert Instantly(actions)[1..] == Instantly(actions[1..]);
    }
  }

  lemma CalmStep(c: Config, slack: nat, lag: nat, s: State, a: Action)
    requires Enabled(c, s, a) && !IsSafetyTimer(a) && !(a.Outer? && a.o.TimeOut?)
    ensures DiligentEnabled(c, slack, lag, AtZero(c, s), Do(a))
    ensures TimedStep(c, slack, AtZero(c, s), Do(a)) == AtZero(c, Step(c, s, a))
  {
    var zeros := AtZero(c, s).started;
    if a == Main(Spawn) && s.main.i < |zeros| {
      assert zeros[s.main.i := 0] == zeros;
    }
  }

  lemma {:induction false} ThenDiligently(
      c: Config, slack: nat, lag: nat, ts: TimedState, tas: seq<TimedAction>, tt: TimedState, ta: TimedAction)
    requires IsDiligentRun(c, slack, lag, ts, tas, tt) && DiligentEnabled(c, slack, lag, tt, ta)
    ensures IsDiligentRun(c, slack, lag, ts, tas + [ta], TimedStep(c, slack, tt, ta))
    decreases |tas|
  {
    if tas == [] {
      assert [ta][1..] == [];
    } else {
      ThenDiligently(c, slack, lag, TimedStep(c, slack, ts, tas[0]), tas[1..], tt, ta);
      assert (tas + [ta])[1..] == tas[1..] + [ta];
    }
  }

  /** All records are behind main, and only record m's goroutine is left, waiting. */
  ghost predicate OneLeft(c: Config, s: State, m: nat) {
    && m < |s.outers| == |s.inners| == |c.originals|
    && s.main == Loop(|c.originals|) && s.closer.Absent? && s.closes == 0 && !s.panicked
    && s.outers[m].Waiting? && Group(s.outers) == {m} && s.wg == 1 && s.sem == 1 && |s.chan| < c.Capacity()
  }

  /** A diligent run to the point where only the last stored record is waited for, all at time 0. */
  lemma ReachOneLeft(c: Config, slack: nat, lag: nat)
      returns (tas: seq<TimedAction>, s: State, m: nat)
    requires c.workers >= 1 && HasStored(c)
    ensures IsDiligentRun(c, slack, lag, TimedInit(c), tas, AtZero(c, s)) && OneLeft(c, s, m)
  {
    var n := |c.originals|;
    m := LastStored(c, n);
    var actions, chan := LatePassAll(c, m, n);
    s := Late(c, chan, m, n);
    tas := Instantly(actions);
    CalmIsInstant(c, slack, lag, Init(c), actions, s);
    assert Group(s.outers) == {m};
  }

  lemma Extend(
      c: Config, slack: nat, lag: nat, tas: seq<TimedAction>, ts: TimedState, ta: TimedAction)
      returns (more: seq<TimedAction>, tt: TimedState)
    requires IsDiligentRun(c, slack, lag, TimedInit(c), tas, ts) && DiligentEnabled(c, slack, lag, ts, ta)
    ensures more == tas + [ta] && tt == TimedStep(c, slack, ts, ta)
    ensures IsDiligentRun(c, slack, lag, TimedInit(c), more, tt)
  {
    ThenDiligently(c, slack, lag, TimedInit(c), tas, ts, ta);
    more, tt := tas + [ta], TimedStep(c, slack, ts, ta);
  }

  /** The closer has been armed since time 0, and record m's goroutine has been waiting as long. */
  ghost predicate StillWaiting(c: Config, ts: TimedState, m: nat) {
    && m < |ts.s.outers| == |ts.s.inners| == |c.originals| == |ts.started|
    && ts.s.closer.Armed? && ts.s.closes == 0 && !ts.s.panicked && ts.closerAt == 0
    && ts.s.outers[m].Waiting? && Group(ts.s.outers) == {m} && ts.started[m] == 0
    && ts.s.wg == 1 && ts.s.sem == 1 && |ts.s.chan| < c.Capacity()
  }

  lemma WaitFor(c: Config, slack: nat, lag: nat, d: nat)
      returns (tas: seq<TimedAction>, tt: TimedState, m: nat)
    requires c.workers >= 1 && HasStored(c) && d <= RECORD_TIMEOUT + slack
    ensures IsDiligentRun(c, slack, lag, TimedInit(c), tas, tt) && StillWaiting(c, tt, m) && tt.now == d
  {
    var s;
    tas, s, m := ReachOneLeft(c, slack, lag);
    tas, tt := Extend(c, slack, lag, tas, AtZero(c, s), Do(Main(StartCloser)));
    tas, tt := Extend(c, slack, lag, tas, tt, Tick(d));
  }

  /** What matters of the timed state while record m's goroutine goes through its last steps. */
  ghost predicate At(c: Config, ts: TimedState, m: nat, o: Outer, now: nat, closes: nat) {
    && m < |ts.s.outers| == |ts.s.inners| == |c.originals| == |ts.started|
    && ts.s.outers[m] == o && !ts.s.panicked
    && ts.now == now && ts.s.closes == closes && ts.started[m] == 0 && |ts.s.chan| < c.Capacity()
  }

  /** What its last steps leave alone: the closer stays armed, the others stay out of the group. */
  ghost predicate Alone(ts: TimedState, m: nat, members: nat) {
    && ts.s.closer.Armed? && ts.closerAt == 0
    && ts.s.wg == members && ts.s.sem <= 1 && Group(ts.s.outers) <= {m}
  }

  lemma TimeOutAt(c: Config, slack: nat, lag: nat, before: seq<TimedAction>, ts: TimedState, m: nat, closes: nat)
      returns (tas: seq<TimedAction>, tt: TimedState, v: VerificationRecord)
    requires IsDiligentRun(c, slack, lag, TimedInit(c), before, ts)
    requires At(c, ts, m, Waiting, ts.now, closes) && ts.now >= RECORD_TIMEOUT
    ensures IsDiligentRun(c, slack, lag, TimedInit(c), tas, tt) && At(c, tt, m, Sending(v), ts.now, closes)
    ensures Alone(ts, m, 1) ==> Alone(tt, m, 1) && tt.s.sem == ts.s.sem
  {
    v := Failed(c.originals[m], TimedOut);
    tas, tt := Extend(c, slack, lag, before, ts, Do(Outer(m, TimeOut)));
    GroupsUpdate(ts.s.outers, m, Sending(v));
  }

  /** Fifteen minutes pass, the channel is closed by force, and the late result panics. */
  lemma LateCanPanic(c: Config, slack: nat, lag: nat) returns (tas: seq<TimedAction>, tt: TimedState)
    requires c.workers >= 1 && HasStored(c) && slack >= CLOSER_WAIT - RECORD_TIMEOUT
    ensures IsDiligentRun(c, slack, lag, TimedInit(c), tas, tt) && tt.s.panicked
  {
    var m, v;
    tas, tt, m := WaitFor(c, slack, lag, CLOSER_WAIT);
    tas, tt := ForceWhileWaiting(c, slack, lag, tas, tt, m);
    tas, tt, v := TimeOutAt(c, slack, lag, tas, tt, m, 1);
    tas, tt := SendOnClosed(c, slack, lag, tas, tt, m, v);
  }

  lemma SendOnClosed(
      c: Config, slack: nat, lag: nat, before: seq<TimedAction>, ts: TimedState, m: nat, v: VerificationRecord)
      returns (tas: seq<TimedAction>, tt: TimedState)
    requires IsDiligentRun(c, slack, lag, TimedInit(c), before, ts) && At(c, ts, m, Sending(v), ts.now, 1)
    ensures IsDiligentRun(c, slack, lag, TimedInit(c), tas, tt) && tt.s.panicked
  {
    tas, tt := Extend(c, slack, lag, before, ts, Do(Outer(m, SendResult)));
  }

  lemma ForceWhileWaiting(c: Config, slack: nat, lag: nat, before: seq<TimedAction>, ts: TimedState, m: nat)
      returns (tas: seq<TimedAction>, tt: TimedState)
    requires IsDiligentRun(c, slack, lag, TimedInit(c), before, ts) && StillWaiting(c, ts, m) && ts.now == CLOSER_WAIT
    ensures IsDiligentRun(c, slack, lag, TimedInit(c), tas, tt) && At(c, tt, m, Waiting, CLOSER_WAIT, 1)
  {
    tas, tt := Extend(c, slack, lag, before, ts, Do(Close(ForceClose)));
  }

  /** The goroutine ends as late as it may, and the closer is then late enough to be forced. */
  lemma LateCanForce(c: Config, slack: nat, lag: nat) returns (tas: seq<TimedAction>, tt: TimedState)
    requires c.workers >= 1 && HasStored(c) && slack + lag >= CLOSER_WAIT - RECORD_TIMEOUT
    ensures IsDiligentRun(c, slack, lag, TimedInit(c), tas, tt) && Do(Close(ForceClose)) in tas
  {
    var m, v;
    tas, tt, m := WaitFor(c, slack, lag, RECORD_TIMEOUT + slack);
    tas, tt, v := TimeOutAt(c, slack, lag, tas, tt, m, 0);
    tas, tt := SendAt(c, slack, lag, tas, tt, m, v);
    tas, tt := ReleaseAt(c, slack, lag, tas, tt, m);
    tas, tt := LeaveAt(c, slack, lag, tas, tt, m);
    tas, tt := ForceWhenQuiet(c, slack, lag, tas, tt);
  }

  lemma SendAt(c: Config, slack: nat, lag: nat, before: seq<TimedAction>, ts: TimedState, m: nat, v: VerificationRecord)
      returns (tas: seq<TimedAction>, tt: TimedState)
    requires IsDiligentRun(c, slack, lag, TimedInit(c), before, ts)
    requires At(c, ts, m, Sending(v), ts.now, 0) && Alone(ts, m, 1)
    ensures IsDiligentRun(c, slack, lag, TimedInit(c), tas, tt)
    ensures tt.now == ts.now && Alone(tt, m, 1) && tt.s.sem == ts.s.sem && !tt.s.panicked
    ensures m < |tt.s.outers| == |tt.s.inners| == |c.originals| && tt.s.outers[m] == Releasing
  {
    tas, tt := Extend(c, slack, lag, before, ts, Do(Outer(m, SendResult)));
    GroupsUpdate(ts.s.outers, m, Releasing);
  }

  lemma ReleaseAt(
      c: Config, slack: nat, lag: nat, before: seq<TimedAction>, ts: TimedState, m: nat)
      returns (tas: seq<TimedAction>, tt: TimedState)
    requires IsDiligentRun(c, slack, lag, TimedInit(c), before, ts)
    requires m < |ts.s.outers| == |ts.s.inners| == |c.originals| && ts.s.outers[m] == Releasing
    requires Alone(ts, m, 1) && ts.s.sem == 1 && !ts.s.panicked
    ensures IsDiligentRun(c, slack, lag, TimedInit(c), tas, tt)
    ensures tt.now == ts.now && Alone(tt, m, 1) && !tt.s.panicked
    ensures m < |tt.s.outers| == |tt.s.inners| == |c.originals| && tt.s.outers[m] == Finishing
  {
    tas, tt := Extend(c, slack, lag, before, ts, Do(Outer(m, ReleaseSlot)));
    GroupsUpdate(ts.s.outers, m, Finishing);
  }

  lemma LeaveAt(
      c: Config, slack: nat, lag: nat, before: seq<TimedAction>, ts: TimedState, m: nat)
      returns (tas: seq<TimedAction>, tt: TimedState)
    requires IsDiligentRun(c, slack, lag, TimedInit(c), before, ts)
    requires m < |ts.s.outers| == |ts.s.inners| == |c.originals| && ts.s.outers[m] == Finishing
    requires Alone(ts, m, 1) && !ts.s.panicked
    ensures IsDiligentRun(c, slack, lag, TimedInit(c), tas, tt)
    ensures tt.quietAt == tt.now == ts.now && Alone(tt, m, 0) && Group(tt.s.outers) == {} && !tt.s.panicked
  {
    tas, tt := Extend(c, slack, lag, before, ts, Do(Outer(m, LeaveGroup)));
    GroupsUpdate(ts.s.outers, m, Finished);
  }

  lemma ForceWhenQuiet(c: Config, slack: nat, lag: nat, before: seq<TimedAction>, ts: TimedState)
      returns (tas: seq<TimedAction>, tt: TimedState)
    requires IsDiligentRun(c, slack, lag, TimedInit(c), before, ts)
    requires ts.s.closer.Armed? && ts.closerAt == 0 && ts.quietAt == ts.now && !ts.s.panicked
    requires Group(ts.s.outers) == {} && ts.now + lag >= CLOSER_WAIT
    ensures IsDiligentRun(c, slack, lag, TimedInit(c), tas, tt) && Do(Close(ForceClose)) in tas
  {
    OwingAreInGroup(ts.s.outers);
    tas, tt := Extend(c, slack, lag, before, ts, Tick(lag));
    tas, tt := Extend(c, slack, lag, tas, tt, Do(Close(ForceClose)));
  }

  // ---------------------------------------------------------------- the exact bounds

  lemma {:induction false} DiligentIsTimed(
      c: Config, slack: nat, lag: nat, ts: TimedState, tas: seq<TimedAction>, tt: TimedState)
    requires IsDiligentRun(c, slack, lag, ts, tas, tt)
    ensures IsTimedRun(c, slack, ts, tas, tt)
    decreases |tas|
  {
    if tas != [] {
      DiligentIsTimed(c, slack, lag, TimedStep(c, slack, ts, tas[0]), tas[1..], tt);
    }
  }

  /** With nothing stored no goroutine ever owes a result, so a forced close cuts nothing short. */
  lemma {:induction false} NothingStored(c: Config, slack: nat, ts: TimedState, tas: seq<TimedAction>, tt: TimedState)
    requires !HasStored(c) && Inv(c, ts.s) && !ts.s.cutShort && IsTimedRun(c, slack, ts, tas, tt)
    ensures Inv(c, tt.s) && !tt.s.cutShort
    decreases |tas|
  {
    if tas != [] {
      if tas[0].Do? {
        StepKeeps(c, ts.s, tas[0].a);
        StepFlags(c, ts.s, tas[0].a);
        NobodySpawned(c, ts.s);
      }
      NothingStored(c, slack, TimedStep(c, slack, ts, tas[0]), tas[1..], tt);
    }
  }

  lemma NobodySpawned(c: Config, s: State)
    requires !HasStored(c) && Inv(c, s)
    ensures forall i :: 0 <= i < |s.outers| ==> s.outers[i].NotSpawned?
    ensures Owing(s.outers) == {} && Group(s.outers) == {} && s.wg == 0
  {
    forall i: nat | i < |s.outers| ensures s.outers[i].NotSpawned? {
      assert !Stored(c, i);
    }
    assert Group(s.outers) == {};
    if s.main.Acquire? {
      assert Stored(c, s.main.i);
    }
  }

  lemma StoredLiterally(c: Config)
    ensures HasStored(c) <==> exists i :: 0 <= i < |c.originals| && c.originals[i].id in c.stored
  {
    if i :| 0 <= i < |c.originals| && c.originals[i].id in c.stored {
      assert Stored(c, i);
    }
  }

  /** A panic is possible exactly when a result may be 14 minutes 45 seconds late and there is one to be late. */
  lemma PanicBoundIsExact(c: Config, slack: nat)
    requires c.workers >= 1
    ensures (exists tas, tt :: IsTimedRun(c, slack, TimedInit(c), tas, tt) && tt.s.panicked) <==>
            slack >= 885_000 && exists i :: 0 <= i < |c.originals| && c.originals[i].id in c.stored
  {
    StoredLiterally(c);
    if slack >= CLOSER_WAIT - RECORD_TIMEOUT && HasStored(c) {
      var tas, tt := LateCanPanic(c, slack, 0);
      DiligentIsTimed(c, slack, 0, TimedInit(c), tas, tt);
      assert exists tas, tt :: IsTimedRun(c, slack, TimedInit(c), tas, tt) && tt.s.panicked;
    } else {
      forall tas, tt | IsTimedRun(c, slack, TimedInit(c), tas, tt) ensures !tt.s.panicked {
        NoPanic(c, slack, tas, tt);
      }
    }
  }

  lemma NoPanic(c: Config, slack: nat, tas: seq<TimedAction>, tt: TimedState)
    requires IsTimedRun(c, slack, TimedInit(c), tas, tt)
    requires slack < CLOSER_WAIT - RECORD_TIMEOUT || !HasStored(c)
    ensures !tt.s.panicked
  {
    if HasStored(c) {
      ForcedCloseIsHarmless(c, slack, tas, tt);
    } else {
      InitInv(c);
      NothingStored(c, slack, TimedInit(c), tas, tt);
    }
  }

  lemma {:induction false} QuietFromStart(
      c: Config, slack: nat, lag: nat, ts: TimedState, tas: seq<TimedAction>, tt: TimedState)
    requires !HasStored(c) && lag < CLOSER_WAIT
    requires Inv(c, ts.s) && Timely(c, slack, lag, ts) && (ts.s.closer.Armed? ==> ts.quietAt == ts.closerAt)
    requires IsDiligentRun(c, slack, lag, ts, tas, tt)
    ensures Do(Close(ForceClose)) !in tas
    decreases |tas|
  {
    if tas != [] {
      var us := TimedStep(c, slack, ts, tas[0]);
      NobodySpawned(c, ts.s);
      TimelyStep(c, slack, lag, ts, tas[0]);
      assert ts.s.closer.Armed? ==> ts.now <= ts.closerAt + lag;
      if tas[0].Do? {
        StepKeeps(c, ts.s, tas[0].a);
        ArmedByMain(c, ts.s, tas[0].a);
      }
      QuietFromStart(c, slack, lag, us, tas[1..], tt);
    }
  }

  lemma ArmedByMain(c: Config, s: State, a: Action)
    requires !HasStored(c) && Inv(c, s) && Enabled(c, s, a)
    ensures !a.Outer?
    ensures Step(c, s, a).closer.Armed? ==> s.closer.Armed? || a == Main(StartCloser)
  {
    NobodySpawned(c, s);
    StepHasEffect(c, s, a);
  }

  lemma NothingForced(c: Config, slack: nat, lag: nat, tas: seq<TimedAction>, tt: TimedState)
    requires IsDiligentRun(c, slack, lag, TimedInit(c), tas, tt) && !HasStored(c) && lag < CLOSER_WAIT
    ensures Do(Close(ForceClose)) !in tas
  {
    InitInv(c);
    assert Group(Init(c).outers) == {};
    QuietFromStart(c, slack, lag, TimedInit(c), tas, tt);
  }

  /** With nothing to wait for, only the closer itself can be late. */
  lemma IdleCanForce(c: Config, slack: nat, lag: nat) returns (tas: seq<TimedAction>, tt: TimedState)
    requires c.workers >= 1 && !HasStored(c) && lag >= CLOSER_WAIT
    ensures IsDiligentRun(c, slack, lag, TimedInit(c), tas, tt) && Do(Close(ForceClose)) in tas
  {
    var n := |c.originals|;
    var actions, chan := PassAll(c, n);
    var s := Passed(c, chan, n);
    CalmIsInstant(c, slack, lag, Init(c), actions, s);
    assert Group(s.outers) == {};
    tas, tt := Extend(c, slack, lag, Instantly(actions), AtZero(c, s), Do(Main(StartCloser)));
    tas, tt := ForceWhenQuiet(c, slack, lag, tas, tt);
  }

  /**
    The forced close can fire exactly when the two delays together reach 14 minutes 45 seconds, or, with no
    stored record to wait for, the closer's own delay reaches 15 minutes.
   */
  lemma ForceBoundIsExact(c: Config, slack: nat, lag: nat)
    requires c.workers >= 1
    ensures (exists tas, tt :: IsDiligentRun(c, slack, lag, TimedInit(c), tas, tt) && Do(Close(ForceClose)) in tas) <==>
            if exists i :: 0 <= i < |c.originals| && c.originals[i].id in c.stored then slack + lag >= 885_000
            else lag >= 900_000
  {
    StoredLiterally(c);
    if HasStored(c) && RECORD_TIMEOUT + slack + lag >= CLOSER_WAIT {
      var tas, tt := LateCanForce(c, slack, lag);
      assert exists tas, tt ::
          IsDiligentRun(c, slack, lag, TimedInit(c), tas, tt) && Do(Close(ForceClose)) in tas;
    } else if !HasStored(c) && lag >= CLOSER_WAIT {
      var tas, tt := IdleCanForce(c, slack, lag);
      assert exists tas, tt ::
          IsDiligentRun(c, slack, lag, TimedInit(c), tas, tt) && Do(Close(ForceClose)) in tas;
    } else if tas, tt :| IsDiligentRun(c, slack, lag, TimedInit(c), tas, tt) && Do(Close(ForceClose)) in tas {
      if HasStored(c) {
        ForcedCloseNeverFires(c, slack, lag, tas, tt);
      } else {
        NothingForced(c, slack, lag, tas, tt);
      }
    }
  }
}
