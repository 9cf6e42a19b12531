/** The timed verifier under prompt scheduling: time passes only while every goroutine is blocked. */
module VerifierPrompt {
  import opened Sequences
  import opened Verification
  import opened Verifier
  import opened VerifierSafety
  import opened VerifierRuns
  import opened VerifierTimed
  import opened VerifierDelays
  import opened VerifierSmooth

  // ---------------------------------------------------------------- the collector's timer

  /** A goroutine that could move now and is waiting neither for a remote call nor for the clock. */
  ghost predicate Runnable(c: Config, s: State, a: Action) {
    Enabled(c, s, a) && !a.Cancel? && !a.Inner? && !IsSafetyTimer(a) && !(a.Outer? && a.o.TimeOut?)
  }

  /** Time passes only while every goroutine is blocked, and a passed deadline is acted on at once. */
  ghost predicate PromptEnabled(c: Config, ts: TimedState, ta: TimedAction) {
    && TimedEnabled(c, 0, ts, ta)
    && (ta.Tick? ==>
          && (forall a :: !Runnable(c, ts.s, a))
          && (ts.s.cancelled ==> Owing(ts.s.outers) == {}))
  }

  ghost predicate IsPromptRun(c: Config, ts: TimedState, tas: seq<TimedAction>, tt: TimedState)
    decreases |tas|
  {
    if tas == [] then ts == tt
    else PromptEnabled(c, ts, tas[0]) && IsPromptRun(c, TimedStep(c, 0, ts, tas[0]), tas[1..], tt)
  }

  /** The collector is about to be woken, or was re-armed at this very instant. */
  ghost predicate Fresh(ts: TimedState) {
    ts.s.collector.Done? || ts.s.collector.Holding? || ts.s.chan != [] || ts.armed == ts.now
  }

  predicate AnyReleasing(outers: seq<Outer>) {
    exists i :: 0 <= i < |outers| && outers[i].Releasing?
  }

  /** Main can go on: it is in its loop, not blocked on a slot. */
  predicate MainFree(c: Config, s: State) {
    s.main.Loop? || s.main.Dispatch? || (s.main.Acquire? && s.sem < c.Slots())
  }

  ghost predicate Attended(c: Config, ts: TimedState) {
    && !ts.s.gaveUp && !ts.s.cutShort && !ts.s.panicked
    && ts.armed <= ts.now
    && (MainFree(c, ts.s) || AnyReleasing(ts.s.outers) ==> Fresh(ts))
    && (ts.s.collector.Ready? && ts.s.chan == [] ==>
          forall i :: 0 <= i < |ts.s.outers| && ts.s.outers[i].Waiting? ==>
            i < |ts.started| && ts.started[i] <= ts.armed)
    && (ts.s.collector.Ready? ==> ts.now <= ts.armed + RECORD_TIMEOUT)
  }

  /** If time can pass while the collector waits, it is because some goroutine waits for its deadline. */
  lemma SomebodyWaits(c: Config, s: State) returns (i: nat)
    requires Inv(c, s) && c.workers >= 1 && !s.panicked && s.collector.Ready?
    requires forall a :: !Runnable(c, s, a)
    requires s.cancelled ==> Owing(s.outers) == {}
    ensures i < |s.outers| && s.outers[i].Waiting? && s.chan == []
  {
    SendNeverBlocks(c, s);
    if s.chan != [] {
      CanMove(c, s, Collect(Receive));
    } else if j :| j in Group(s.outers) {
      i := j;
      if !s.outers[j].Waiting? {
        var a := OuterProgress(c, s, j);
        CanMove(c, s, a);
      }
    } else {
      assert Group(s.outers) == {};
      OwingAreInGroup(s.outers);
      i := 0;
      if s.returned.None? {
        var a := QuietProgress(c, s);
        CanMove(c, s, a);
      } else {
        CanMove(c, s, Collect(SeeClosed));
      }
    }
  }

  lemma CanMove(c: Config, s: State, a: Action)
    requires Enabled(c, s, a) && !a.Cancel? && !a.Inner? && !IsSafetyTimer(a) && !(a.Outer? && a.o.TimeOut?)
    ensures Runnable(c, s, a)
  {
  }

  lemma TickAttended(c: Config, ts: TimedState, d: nat)
    requires Inv(c, ts.s) && c.workers >= 1 && Punctual(c, 0, ts) && Attended(c, ts)
    requires PromptEnabled(c, ts, Tick(d))
    ensures Attended(c, TimedStep(c, 0, ts, Tick(d)))
  {
    var s := ts.s;
    if s.collector.Ready? {
      var i := SomebodyWaits(c, s);
      assert i in Owing(s.outers);
    } else if s.collector.Holding? {
      CanMove(c, s, Collect(Append));
    }
    NobodyReleasing(c, s);
    MainIsBlocked(c, s);
  }

  lemma NobodyReleasing(c: Config, s: State)
    requires Inv(c, s) && !s.panicked && forall a :: !Runnable(c, s, a)
    ensures !AnyReleasing(s.outers)
  {
    if i :| 0 <= i < |s.outers| && s.outers[i].Releasing? {
      assert i in SlotHolders(s.outers);
      CanMove(c, s, Outer(i, ReleaseSlot));
    }
  }

  lemma MainIsBlocked(c: Config, s: State)
    requires Inv(c, s) && !s.panicked && forall a :: !Runnable(c, s, a)
    ensures !MainFree(c, s)
  {
    SendNeverBlocks(c, s);
    if s.main.Loop? {
      CanMove(c, s, Main(if s.main.i < |c.originals| then LookAtContext else StartCloser));
    } else if s.main.Dispatch? {
      CanMove(c, s, Main(if c.originals[s.main.i].id in c.stored then AddToGroup else SendMissing));
    } else if s.main.Acquire? && s.sem < c.Slots() {
      CanMove(c, s, Main(Spawn));
    }
  }

  lemma MainAttended(c: Config, ts: TimedState, m: MainOp, tt: TimedState)
    requires Inv(c, ts.s) && Inv(c, tt.s) && Punctual(c, 0, ts) && Attended(c, ts)
    requires MainEnabled(c, ts.s, m) && TimedEffect(c, ts, Main(m), tt) && !tt.s.panicked
    ensures Attended(c, tt)
  {
    OwingAreInGroup(ts.s.outers);
    if AfterCancelClose(ts.s.main) {
      assert Group(ts.s.outers) == {};
      forall i | 0 <= i < |ts.s.outers| ensures !InGroup(ts.s.outers[i]) {
        assert i !in Group(ts.s.outers);
      }
    }
  }

  lemma OuterAttended(c: Config, ts: TimedState, i: nat, o: OuterOp, tt: TimedState)
    requires Inv(c, ts.s) && Attended(c, ts)
    requires OuterEnabled(c, ts.s, i, o) && TimedEffect(c, ts, Outer(i, o), tt) && !tt.s.panicked
    ensures Attended(c, tt)
  {
    var next := tt.s.outers;
    if AnyReleasing(next) && !o.SendResult? {
      var j :| 0 <= j < |next| && next[j].Releasing?;
      assert ts.s.outers[j].Releasing?;
    }
  }

  lemma CollectorAttended(c: Config, ts: TimedState, k: CollectorOp, tt: TimedState)
    requires Inv(c, ts.s) && Punctual(c, 0, ts) && Attended(c, ts) && CollectorEnabled(ts.s, k)
    requires Due(ts, Collect(k)) && TimedEffect(c, ts, Collect(k), tt)
    ensures Attended(c, tt)
  {
  }

  lemma OthersAttended(c: Config, ts: TimedState, a: Action, tt: TimedState)
    requires Attended(c, ts) && Enabled(c, ts.s, a) && TimedEffect(c, ts, a, tt)
    requires !a.Main? && !a.Outer? && !a.Collect? && !tt.s.cutShort && !tt.s.panicked
    ensures Attended(c, tt)
  {
  }

  lemma DoAttended(c: Config, ts: TimedState, a: Action, tt: TimedState)
    requires Inv(c, ts.s) && Inv(c, tt.s) && Punctual(c, 0, ts) && Attended(c, ts)
    requires Enabled(c, ts.s, a) && Due(ts, a) && TimedEffect(c, ts, a, tt) && !tt.s.panicked && !tt.s.cutShort
    ensures Attended(c, tt)
  {
    match a
    case Main(m) => MainAttended(c, ts, m, tt);
    case Outer(i, o) => OuterAttended(c, ts, i, o, tt);
    case Collect(k) => CollectorAttended(c, ts, k, tt);
    case _ => OthersAttended(c, ts, a, tt);
  }

  lemma PromptStep(c: Config, ts: TimedState, ta: TimedAction)
    requires Inv(c, ts.s) && c.workers >= 1 && Punctual(c, 0, ts) && Attended(c, ts) && PromptEnabled(c, ts, ta)
    ensures var tt := TimedStep(c, 0, ts, ta); Inv(c, tt.s) && Punctual(c, 0, tt) && Attended(c, tt)
  {
    PunctualStep(c, 0, ts, ta);
    match ta
    case Tick(d) => TickAttended(c, ts, d);
    case Do(a) =>
      TimedHasEffect(c, 0, ts, a);
      DoAttended(c, ts, a, TimedStep(c, 0, ts, ta));
  }

  lemma PromptIsDiligent(c: Config, ts: TimedState, ta: TimedAction)
    requires Inv(c, ts.s) && Attended(c, ts) && PromptEnabled(c, ts, ta)
    ensures DiligentEnabled(c, 0, 0, ts, ta)
    ensures ta != Do(Collect(WaitTooLong))
  {
    if ta.Tick? {
      var s := ts.s;
      SendNeverBlocks(c, s);
      forall i | i in Group(s.outers) ensures i in Owing(s.outers) {
        if !s.outers[i].Waiting? {
          var a := OuterProgress(c, s, i);
          CanMove(c, s, a);
        }
      }
      if s.closer.Armed? && s.wg == 0 {
        CanMove(c, s, Close(CloseWhenDone));
      }
    }
  }

  lemma {:induction false} PromptRunKeeps(c: Config, ts: TimedState, tas: seq<TimedAction>, tt: TimedState)
    requires Inv(c, ts.s) && c.workers >= 1 && Punctual(c, 0, ts) && Attended(c, ts) && IsPromptRun(c, ts, tas, tt)
    ensures Inv(c, tt.s) && Attended(c, tt)
    ensures IsDiligentRun(c, 0, 0, ts, tas, tt) && Do(Collect(WaitTooLong)) !in tas
    decreases |tas|
  {
    if tas != [] {
      PromptIsDiligent(c, ts, tas[0]);
      PromptStep(c, ts, tas[0]);
      PromptRunKeeps(c, TimedStep(c, 0, ts, tas[0]), tas[1..], tt);
    }
  }

  /** The untimed actions of a timed run. */
  function Untimed(tas: seq<TimedAction>): seq<Action> {
    if tas == [] then [] else (if tas[0].Do? then [tas[0].a] else []) + Untimed(tas[1..])
  }

  lemma {:induction false} PromptRunIsRun(c: Config, ts: TimedState, tas: seq<TimedAction>, tt: TimedState)
    requires IsPromptRun(c, ts, tas, tt)
    ensures IsRun(c, ts.s, Untimed(tas), tt.s)
    decreases |tas|
  {
    if tas != [] {
      PromptRunIsRun(c, TimedStep(c, 0, ts, tas[0]), tas[1..], tt);
      if tas[0].Do? {
        assert Untimed(tas)[1..] == Untimed(tas[1..]);
      } else {
        assert Untimed(tas) == Untimed(tas[1..]);
      }
    }
  }

  /**
    With prompt scheduling neither safety timer ever fires, for any number of records: results arrive at
    most 15 seconds apart, and the group is empty at most 15 seconds after the last start. So whenever
    main returns without having been cancelled it returns exactly one result per source record.
   */
  lemma PromptRunsAreComplete(c: Config, tas: seq<TimedAction>, tt: TimedState)
    requires c.workers >= 1 && IsPromptRun(c, TimedInit(c), tas, tt)
    ensures Do(Close(ForceClose)) !in tas && Do(Collect(WaitTooLong)) !in tas
    ensures !tt.s.gaveUp && !tt.s.cutShort && !tt.s.panicked
    ensures tt.s.main.Returned? ==>
              tt.s.returned.Some? && multiset(Map(ByOrigin(), tt.s.returned.value)) == multiset(c.originals)
  {
    InitInv(c);
    assert Owing(Init(c).outers) == {};
    PromptRunKeeps(c, TimedInit(c), tas, tt);
    ForcedCloseNeverFires(c, 0, 0, tas, tt);
    PromptRunIsRun(c, TimedInit(c), tas, tt);
    if tt.s.main.Returned? {
      CompleteReturn(c, Untimed(tas), tt.s);
    }
  }

  // ---------------------------------------------------------------- such runs exist

  /** A run that needs no timer can be made at one instant. */
  lemma {:induction false} AtOnce(c: Config, ts: TimedState, actions: seq<Action>, t: State)
      returns (tas: seq<TimedAction>, tt: TimedState)
    requires IsRun(c, ts.s, actions, t) && forall a :: a in actions ==> Smooth(a) && !IsSafetyTimer(a)
    ensures IsPromptRun(c, ts, tas, tt) && tt.s == t
    decreases |actions|
  {
    if actions == [] {
      tas, tt := [], ts;
    } else {
      var a := actions[0];
      assert Smooth(a) && !IsSafetyTimer(a);
      var rest;
      rest, tt := AtOnce(c, TimedStep(c, 0, ts, Do(a)), actions[1..], t);
      tas := [Do(a)] + rest;
      assert tas[1..] == rest;
    }
  }

  /** Over any source and destination some prompt run ends with main returning. */
  lemma PromptRunExists(c: Config) returns (tas: seq<TimedAction>, tt: TimedState)
    requires c.workers >= 1
    ensures IsPromptRun(c, TimedInit(c), tas, tt) && tt.s.main.Returned?
  {
    var actions, t := SmoothRunExists(c);
    tas, tt := AtOnce(c, TimedInit(c), actions, t);
  }
}
