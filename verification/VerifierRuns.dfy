/** What holds over whole runs of the verifier, for every schedule, cancellation and timer. */
module VerifierRuns {
  import opened Records
  import opened Sequences
  import opened Verification
  import opened Verifier
  import opened VerifierEffects
  import opened VerifierSafety
  import opened VerifierResults

  // ---------------------------------------------------------------- invariants along runs

  /** Everything known of a reachable state. */
  ghost predicate Traced(c: Config, R: Relation, s: State) {
    && Inv(c, s)
    && GenuineState(c, R, s)
    && Conserved(c, s)
  }

  ghost predicate AllProduce(c: Config, R: Relation, actions: seq<Action>) {
    forall i :: 0 <= i < |actions| ==> Produces(c, R, actions[i])
  }

  lemma InitTraced(c: Config, R: Relation)
    ensures Traced(c, R, Init(c))
  {
    InitInv(c);
    forall x ensures CountIs(c, Init(c), x) {
      assert Owed(c, Init(c).outers, x) == {};
      assert c.originals[..0] == [];
    }
  }

  lemma TracedStep(c: Config, R: Relation, s: State, a: Action)
    requires Traced(c, R, s) && Enabled(c, s, a) && AboutCards(R) && Produces(c, R, a)
    ensures Traced(c, R, Step(c, s, a))
  {
    StepKeeps(c, s, a);
    GenuineStep(c, R, s, a);
    ConservedStep(c, R, s, a);
  }

  lemma {:induction false} RunTraced(c: Config, R: Relation, s: State, actions: seq<Action>, t: State)
    requires Traced(c, R, s) && IsRun(c, s, actions, t) && AboutCards(R) && AllProduce(c, R, actions)
    ensures Traced(c, R, t)
    decreases |actions|
  {
    if actions != [] {
      TracedStep(c, R, s, actions[0]);
      RunTraced(c, R, Step(c, s, actions[0]), actions[1..], t);
    }
  }

  /** The relation that holds of every result in every run. */
  ghost function AnyResult(c: Config): Relation {
    (card, v) => ResultFor(c.key, c.stored, card, v)
  }

  lemma AnyResultProduced(c: Config, actions: seq<Action>)
    ensures AboutCards(AnyResult(c)) && AllProduce(c, AnyResult(c), actions)
  {
    var R := AnyResult(c);
    forall card, v | R(card, v) ensures Origin(v) == card {
      ResultIsAboutCard(c.key, c.stored, card, v);
    }
  }

  lemma ReachableTraced(c: Config, actions: seq<Action>, t: State)
    requires IsRun(c, Init(c), actions, t)
    ensures Traced(c, AnyResult(c), t)
  {
    AnyResultProduced(c, actions);
    InitTraced(c, AnyResult(c));
    RunTraced(c, AnyResult(c), Init(c), actions, t);
  }

  // ---------------------------------------------------------------- bounded parallelism

  /**
    At most 10 outer goroutines (or the configured number, if smaller) hold a slot, the channel always
    has room for the next result, and it is closed at most once.
   */
  lemma BoundedParallelism(c: Config, actions: seq<Action>, t: State)
    requires IsRun(c, Init(c), actions, t)
    ensures |SlotHolders(t.outers)| <= c.workers && |SlotHolders(t.outers)| <= 10
    ensures |c.originals| > 0 ==> |t.chan| < 2 * |c.originals| == c.Capacity()
    ensures t.closes <= 1
  {
    ReachableTraced(c, actions, t);
    SendNeverBlocks(c, t);
  }

  // ---------------------------------------------------------------- normal return

  /**
    When main returns after waiting for the collector, and neither safety timer has spoiled the run,
    it returns exactly one result per source record, each about that record, in some order.
   */
  lemma CompleteReturn(c: Config, actions: seq<Action>, t: State)
    requires IsRun(c, Init(c), actions, t) && t.main.Returned? && !t.gaveUp && !t.cutShort
    ensures t.returned.Some? && multiset(Map(ByOrigin(), t.returned.value)) == multiset(c.originals)
    ensures AllGenuine(c, AnyResult(c), t.returned.value)
  {
    ReachableTraced(c, actions, t);
    CompleteState(c, t);
  }

  lemma CompleteState(c: Config, t: State)
    requires Inv(c, t) && Conserved(c, t) && t.main.Returned? && !t.gaveUp && !t.cutShort
    ensures t.returned.Some? && multiset(Map(ByOrigin(), t.returned.value)) == multiset(c.originals)
  {
    assert c.originals[..|c.originals|] == c.originals;
    DrainedAll(c, t);
  }

  lemma NobodyOwes(c: Config, outers: seq<Outer>, x: Card)
    requires |Owing(outers)| == 0
    ensures Owed(c, outers, x) == {}
  {
    if i :| i in Owed(c, outers, x) {
      assert i in Owing(outers);
    }
  }

  lemma StepFlags(c: Config, s: State, a: Action)
    requires Enabled(c, s, a)
    ensures a != Collect(WaitTooLong) ==> Step(c, s, a).gaveUp == s.gaveUp
    ensures a != Close(ForceClose) ==> Step(c, s, a).cutShort == s.cutShort
  {
    StepHasEffect(c, s, a);
  }

  lemma {:induction false} FlagsComeFromTimers(c: Config, s: State, actions: seq<Action>, t: State)
    requires IsRun(c, s, actions, t)
    ensures Collect(WaitTooLong) !in actions ==> t.gaveUp == s.gaveUp
    ensures Close(ForceClose) !in actions ==> t.cutShort == s.cutShort
    decreases |actions|
  {
    if actions != [] {
      StepFlags(c, s, actions[0]);
      FlagsComeFromTimers(c, Step(c, s, actions[0]), actions[1..], t);
    }
  }

  /** In particular when neither timer fires, however many records are missing or time out. */
  lemma CompleteWithoutTimers(c: Config, actions: seq<Action>, t: State)
    requires IsRun(c, Init(c), actions, t) && t.main.Returned?
    requires Collect(WaitTooLong) !in actions && Close(ForceClose) !in actions
    ensures t.returned.Some? && multiset(Map(ByOrigin(), t.returned.value)) == multiset(c.originals)
  {
    FlagsComeFromTimers(c, Init(c), actions, t);
    CompleteReturn(c, actions, t);
  }

  // ---------------------------------------------------------------- cancelled return

  /**
    A cancelled run returns results about the records main had passed, each at most as often as it
    occurs there and all of them but at most one, and none it did not produce.
   */
  lemma CancelledReturn(c: Config, actions: seq<Action>, t: State)
    requires IsRun(c, Init(c), actions, t) && t.main.CancelReturned?
    ensures t.main.i < |c.originals| && t.returned.Some?
    ensures multiset(Map(ByOrigin(), t.returned.value)) <= multiset(c.originals[..t.main.i])
    ensures t.main.i - 1 <= |t.returned.value| <= t.main.i
    ensures AllGenuine(c, AnyResult(c), t.returned.value)
  {
    ReachableTraced(c, actions, t);
    OwingAreInGroup(t.outers);
    var got := t.returned.value;
    forall x ensures multiset(Map(ByOrigin(), got))[x] <= multiset(c.originals[..t.main.i])[x] {
      assert CountIs(c, t, x);
      assert t.results == got + t.results[|got|..];
      TallyConcat(ByOrigin(), got, t.results[|got|..], x);
      TallyIsMultiplicity(ByOrigin(), got, x);
    }
  }

  /** Nothing is missing exactly when the collector has no result in hand at the moment main returns. */
  lemma CancelledReturnIsComplete(c: Config, actions: seq<Action>, s: State)
    requires IsRun(c, Init(c), actions, s) && Enabled(c, s, Main(ReturnCancelled))
    ensures s.main.i <= |c.originals|
    ensures var t := Step(c, s, Main(ReturnCancelled));
            multiset(Map(ByOrigin(), t.returned.value)) == multiset(c.originals[..s.main.i]) <==> !s.collector.Holding?
  {
    ReachableTraced(c, actions, s);
    DrainIsComplete(c, s);
  }

  lemma DrainIsComplete(c: Config, s: State)
    requires Inv(c, s) && Conserved(c, s) && s.main.Drain? && s.chan == []
    ensures s.main.i <= |c.originals|
    ensures multiset(Map(ByOrigin(), s.results)) == multiset(c.originals[..s.main.i]) <==> !s.collector.Holding?
  {
    OwingAreInGroup(s.outers);
    if s.collector.Holding? {
      MapLength(ByOrigin(), s.results);
      SizesDiffer(Map(ByOrigin(), s.results), c.originals[..s.main.i]);
    } else {
      DrainedAll(c, s);
    }
  }

  lemma SizesDiffer<T>(a: seq<T>, b: seq<T>)
    requires |a| != |b|
    ensures multiset(a) != multiset(b)
  {
    assert |multiset(a)| == |a| && |multiset(b)| == |b|;
  }

  lemma DrainedAll(c: Config, s: State)
    requires Position(c, s.main) <= |c.originals| && Conserved(c, s) && |Owing(s.outers)| == 0
    requires s.chan == [] && !s.collector.Holding? && !s.main.DrainHold?
    ensures multiset(Map(ByOrigin(), s.results)) == multiset(c.originals[..Position(c, s.main)])
  {
    forall x ensures multiset(Map(ByOrigin(), s.results))[x] == multiset(c.originals[..Position(c, s.main)])[x] {
      assert CountIs(c, s, x);
      NobodyOwes(c, s.outers, x);
      TallyIsMultiplicity(ByOrigin(), s.results, x);
    }
  }

  // ---------------------------------------------------------------- panics

  /** No send or close on a closed channel, unless the closer was forced with results outstanding. */
  lemma PanicsOnlyWhenCutShort(c: Config, actions: seq<Action>, t: State)
    requires IsRun(c, Init(c), actions, t) && t.panicked
    ensures t.cutShort && Close(ForceClose) in actions
  {
    ReachableTraced(c, actions, t);
    FlagsComeFromTimers(c, Init(c), actions, t);
  }

  ghost predicate CanPanic(c: Config, s: State) {
    exists actions, t :: IsRun(c, s, actions, t) && t.panicked
  }

  lemma ClosedStays(c: Config, s: State, a: Action)
    requires Ordered(c, s) && s.closer.Closed? && Enabled(c, s, a)
    ensures Step(c, s, a).closer.Closed?
  {
    StepHasEffect(c, s, a);
    assert a.Main? ==> PastLoop(s.main);
  }

  lemma {:induction false} StaysQuiet(c: Config, s: State, actions: seq<Action>, t: State)
    requires Inv(c, s) && s.closer.Closed? && !s.cutShort && IsRun(c, s, actions, t)
    ensures !t.panicked
    decreases |actions|
  {
    if actions != [] {
      StepKeeps(c, s, actions[0]);
      ClosedStays(c, s, actions[0]);
      StepFlags(c, s, actions[0]);
      StaysQuiet(c, Step(c, s, actions[0]), actions[1..], t);
    }
  }

  lemma OneStepRun(c: Config, s: State, a: Action)
    requires Enabled(c, s, a)
    ensures IsRun(c, s, [a], Step(c, s, a))
  {
    assert [a][1..] == [];
  }

  lemma TwoStepRun(c: Config, s: State, a: Action, b: Action)
    requires Enabled(c, s, a) && Enabled(c, Step(c, s, a), b)
    ensures IsRun(c, s, [a, b], Step(c, Step(c, s, a), b))
  {
    assert [a, b][1..] == [b];
    OneStepRun(c, Step(c, s, a), b);
  }

  /** Forcing the closer is dangerous exactly when some goroutine still owes its result. */
  lemma ForcedCloseCanPanic(c: Config, actions: seq<Action>, s: State)
    requires IsRun(c, Init(c), actions, s) && Enabled(c, s, Close(ForceClose)) && !s.cutShort
    ensures CanPanic(c, Step(c, s, Close(ForceClose))) <==> Owing(s.outers) != {}
  {
    ReachableTraced(c, actions, s);
    var u := Step(c, s, Close(ForceClose));
    StepKeeps(c, s, Close(ForceClose));
    CloserHasEffect(s, ForceClose);
    if i :| i in Owing(s.outers) {
      OwingCanPanic(c, u, i);
    } else {
      assert Owing(s.outers) == {};
      forall more, t | IsRun(c, u, more, t) ensures !t.panicked {
        StaysQuiet(c, u, more, t);
      }
    }
  }

  lemma OwingCanPanic(c: Config, u: State, i: nat)
    requires |u.outers| == |u.inners| == |c.originals| && i in Owing(u.outers) && u.closes > 0 && !u.panicked
    ensures CanPanic(c, u)
  {
    if u.outers[i].Sending? {
      OneStepRun(c, u, Outer(i, SendResult));
      OuterHasEffect(c, u, i, SendResult);
    } else {
      OuterHasEffect(c, u, i, TimeOut);
      var v := Step(c, u, Outer(i, TimeOut));
      OuterHasEffect(c, v, i, SendResult);
      TwoStepRun(c, u, Outer(i, TimeOut), Outer(i, SendResult));
    }
  }

  // ---------------------------------------------------------------- termination and progress

  function MainLoad(c: Config, m: MainPc): nat
    requires Position(c, m) <= |c.originals|
  {
    match m
    case Loop(i) => 20 * (|c.originals| - i) + 12
    case Dispatch(i) => 20 * (|c.originals| - i) + 11
    case Acquire(i) => 20 * (|c.originals| - i) + 10
    case CancelWait(_) => 9
    case Drain(_) => 7
    case DrainHold(_, _) => 8
    case CancelReturned(_) => 0
    case Await => 5
    case Returned => 0
  }

  function OuterLoad(o: Outer): nat {
    match o
    case NotSpawned => 0
    case Waiting => 7
    case Sending(_) => 6
    case Releasing => 2
    case Finishing => 1
    case Finished => 0
  }

  function InnerLoad(n: Inner): nat { if n.Running? then 1 else 0 }

  function OuterLoads(): Outer -> nat {
    o => OuterLoad(o)
  }

  function InnerLoads(): Inner -> nat {
    n => InnerLoad(n)
  }

  function CollectorLoad(k: Collector): nat {
    match k
    case Ready => 1
    case Holding(_) => 2
    case Done => 0
  }

  function Measure(c: Config, s: State): nat
    requires Position(c, s.main) <= |c.originals|
  {
    (if s.cancelled then 0 else 1) + MainLoad(c, s.main) + Sum(OuterLoads(), s.outers) + Sum(InnerLoads(), s.inners)
    + 3 * |s.chan| + CollectorLoad(s.collector) + (if s.closer.Armed? then 1 else 0)
  }

  lemma MainGetsOn(c: Config, s: State, m: MainOp, t: State)
    requires Ordered(c, s) && Ordered(c, t) && MainEnabled(c, s, m) && MainEffect(c, s, m, t) && !t.panicked
    ensures Measure(c, t) < Measure(c, s)
  {
    if m.Spawn? {
      SpawnGetsOn(c, s, t);
    }
  }

  lemma SpawnGetsOn(c: Config, s: State, t: State)
    requires s.main.Acquire? && s.main.i < |c.originals| == |s.outers| == |s.inners| && s.outers[s.main.i].NotSpawned?
    requires Spawned(s, t) && t.cancelled == s.cancelled && t.collector == s.collector
    ensures Measure(c, t) < Measure(c, s)
  {
    SumUpdate(OuterLoads(), s.outers, s.main.i, Waiting);
    SumUpdate(InnerLoads(), s.inners, s.main.i, Running);
  }

  lemma OuterGetsOn(c: Config, s: State, i: nat, o: OuterOp, t: State)
    requires Ordered(c, s) && Ordered(c, t) && OuterEnabled(c, s, i, o) && OuterEffect(c, s, i, o, t) && !t.panicked
    ensures Measure(c, t) < Measure(c, s)
  {
    SumUpdate(OuterLoads(), s.outers, i, t.outers[i]);
    if o.TakeReport? {
      SumUpdate(InnerLoads(), s.inners, i, Delivered);
    }
  }

  lemma InnerGetsOn(c: Config, s: State, i: nat, p: bool, q: bool, t: State)
    requires Ordered(c, s) && Ordered(c, t) && InnerEnabled(c, s, i) && InnerEffect(c, s, i, p, q, t)
    ensures Measure(c, t) < Measure(c, s)
  {
    SumUpdate(InnerLoads(), s.inners, i, t.inners[i]);
  }

  lemma EffectGetsOn(c: Config, s: State, a: Action, t: State)
    requires Ordered(c, s) && Ordered(c, t) && Enabled(c, s, a) && Effect(c, s, a, t) && !t.panicked
    ensures Measure(c, t) < Measure(c, s)
  {
    match a
    case Cancel =>
    case Main(m) => MainGetsOn(c, s, m, t);
    case Outer(i, o) => OuterGetsOn(c, s, i, o, t);
    case Inner(i, p, q) => InnerGetsOn(c, s, i, p, q, t);
    case Collect(k) =>
    case Close(z) =>
  }

  lemma MeasureDecreases(c: Config, s: State, a: Action)
    requires Ordered(c, s) && Enabled(c, s, a)
    requires Ordered(c, Step(c, s, a)) && !Step(c, s, a).panicked
    ensures Measure(c, Step(c, s, a)) < Measure(c, s)
  {
    StepHasEffect(c, s, a);
    EffectGetsOn(c, s, a, Step(c, s, a));
  }

  lemma {:induction false} RunLength(c: Config, s: State, actions: seq<Action>, t: State)
    requires Inv(c, s) && IsRun(c, s, actions, t)
    ensures |actions| <= Measure(c, s) + 1
    decreases |actions|
  {
    if actions != [] {
      var u := Step(c, s, actions[0]);
      StepKeeps(c, s, actions[0]);
      if u.panicked {
        assert actions[1..] == [];
      } else {
        MeasureDecreases(c, s, actions[0]);
        RunLength(c, u, actions[1..], t);
      }
    }
  }

  /** Every run is finite: at most 20 steps a source record and 15. */
  lemma RunsAreBounded(c: Config, actions: seq<Action>, t: State)
    requires IsRun(c, Init(c), actions, t)
    ensures |actions| <= 20 * |c.originals| + 15
  {
    InitInv(c);
    RunLength(c, Init(c), actions, t);
    SumOfEqual(OuterLoads(), Init(c).outers, 0);
    SumOfEqual(InnerLoads(), Init(c).inners, 0);
  }

  predicate IsSafetyTimer(a: Action) {
    a == Collect(WaitTooLong) || a == Close(ForceClose) || a == Cancel
  }

  /**
    Until main has returned, some goroutine can move without the help of a safety timer or a
    cancellation; only a record's own deadline may be needed.
   */
  lemma Progress(c: Config, s: State) returns (a: Action)
    requires Inv(c, s) && c.workers >= 1 && !s.panicked && s.returned.None?
    ensures Enabled(c, s, a) && !IsSafetyTimer(a)
  {
    SendNeverBlocks(c, s);
    if i :| i in Group(s.outers) {
      a := OuterProgress(c, s, i);
    } else {
      assert Group(s.outers) == {};
      OwingAreInGroup(s.outers);
      a := QuietProgress(c, s);
    }
  }

  lemma OuterProgress(c: Config, s: State, i: nat) returns (a: Action)
    requires Inv(c, s) && !s.panicked && i in Group(s.outers) && |s.chan| < c.Capacity()
    ensures Enabled(c, s, a) && a.Outer? && a.i == i && (a.o.TimeOut? <==> s.outers[i].Waiting?)
  {
    match s.outers[i]
    case Waiting => a := Outer(i, TimeOut);
    case Sending(_) => a := Outer(i, SendResult);
    case Releasing =>
      assert i in SlotHolders(s.outers);
      a := Outer(i, ReleaseSlot);
    case Finishing => a := Outer(i, LeaveGroup);
  }

  lemma QuietProgress(c: Config, s: State) returns (a: Action)
    requires Inv(c, s) && c.workers >= 1 && !s.panicked && s.returned.None?
    requires Group(s.outers) == {} && |SlotHolders(s.outers)| == 0
    requires |c.originals| > 0 ==> |s.chan| < c.Capacity()
    ensures Enabled(c, s, a) && !IsSafetyTimer(a) && !a.Inner? && !a.Outer?
  {
    match s.main
    case Loop(i) => a := Main(if i < |c.originals| then LookAtContext else StartCloser);
    case Dispatch(i) => a := Main(if c.originals[i].id in c.stored then AddToGroup else SendMissing);
    case Acquire(_) => a := Main(Spawn);
    case CancelWait(_) => a := Main(CloseAfterCancel);
    case Drain(_) => a := Main(if s.chan != [] then DrainTake else ReturnCancelled);
    case DrainHold(_, _) => a := Main(DrainAppend);
    case Await =>
      if s.signalled {
        a := Main(ReturnComplete);
      } else if s.collector.Holding? {
        a := Collect(Append);
      } else if s.chan != [] {
        a := Collect(Receive);
      } else if s.closes > 0 {
        a := Collect(SeeClosed);
      } else {
        a := Close(CloseWhenDone);
      }
  }

  /** So a run that cannot be continued has returned or panicked: no schedule deadlocks. */
  lemma StuckMeansReturned(c: Config, actions: seq<Action>, t: State)
    requires IsRun(c, Init(c), actions, t) && c.workers >= 1
    requires forall a :: !Enabled(c, t, a)
    ensures t.returned.Some? || t.panicked
  {
    ReachableTraced(c, actions, t);
    if t.returned.None? && !t.panicked {
      var a := Progress(c, t);
    }
  }
}
