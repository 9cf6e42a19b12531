/** Runs of the verifier in which nothing goes wrong: there always is one, and it ends with main returning. */
module VerifierSmooth {
  import opened Basics
  import opened Verifier
  import opened VerifierEffects
  import opened VerifierSafety
  import opened VerifierRuns

  /** No record hit its deadline and every Decrypt call was answered. */
  predicate Smooth(a: Action) {
    match a
    case Outer(_, TimeOut) => false
    case Inner(_, p, q) => p && q
    case _ => true
  }

  /** Unless main has returned, some goroutine can move without a timer, a cancellation or a failing call. */
  lemma SmoothProgress(c: Config, s: State) returns (a: Action)
    requires Inv(c, s) && c.workers >= 1 && !s.panicked && s.returned.None?
    ensures Enabled(c, s, a) && Smooth(a) && !IsSafetyTimer(a)
  {
    SendNeverBlocks(c, s);
    if i :| i in Group(s.outers) {
      if !s.outers[i].Waiting? {
        a := OuterProgress(c, s, i);
      } else if s.inners[i].Reported? {
        a := Outer(i, TakeReport);
      } else {
        a := Inner(i, true, true);
      }
    } else {
      assert Group(s.outers) == {};
      OwingAreInGroup(s.outers);
      a := QuietProgress(c, s);
    }
  }

  /** Nobody has cancelled, and neither safety timer has fired. */
  ghost predicate Undisturbed(s: State) {
    !s.cancelled && !OnCancelPath(s.main) && !s.gaveUp && !s.cutShort && !s.panicked
  }

  lemma SmoothStep(c: Config, s: State, a: Action)
    requires Inv(c, s) && Undisturbed(s) && Enabled(c, s, a) && !IsSafetyTimer(a)
    ensures Inv(c, Step(c, s, a)) && Undisturbed(Step(c, s, a)) && Measure(c, Step(c, s, a)) < Measure(c, s)
  {
    StepKeeps(c, s, a);
    StepFlags(c, s, a);
    StepHasEffect(c, s, a);
    MeasureDecreases(c, s, a);
  }

  lemma {:induction false} RunOn(c: Config, s: State) returns (actions: seq<Action>, t: State)
    requires Inv(c, s) && Undisturbed(s) && c.workers >= 1
    ensures IsRun(c, s, actions, t) && t.returned.Some? && Inv(c, t) && Undisturbed(t)
    ensures forall a :: a in actions ==> Smooth(a) && !IsSafetyTimer(a)
    decreases Measure(c, s)
  {
    if s.returned.Some? {
      actions, t := [], s;
    } else {
      var a := SmoothProgress(c, s);
      SmoothStep(c, s, a);
      var rest;
      rest, t := RunOn(c, Step(c, s, a));
      actions := [a] + rest;
      assert actions[1..] == rest;
    }
  }

  /** Over any source and destination the verifier has an undisturbed run in which main returns by itself. */
  lemma SmoothRunExists(c: Config) returns (actions: seq<Action>, t: State)
    requires c.workers >= 1
    ensures IsRun(c, Init(c), actions, t) && t.main.Returned? && !t.gaveUp && !t.cutShort && !t.panicked
    ensures forall a :: a in actions ==> Smooth(a) && !IsSafetyTimer(a)
  {
    InitInv(c);
    actions, t := RunOn(c, Init(c));
  }

  /**
    The environment's moves are never ruled out: a call can be answered or not, also after its record's
    deadline; a deadline, a safety timer and a cancellation can come whenever they are waited for.
   */
  lemma EnvironmentIsFree(c: Config, s: State, i: nat, p: bool, q: bool)
    requires Inv(c, s) && !s.panicked
    ensures Enabled(c, s, Cancel) <==> !s.cancelled
    ensures i < |s.inners| && s.inners[i].Running? ==> Enabled(c, s, Inner(i, p, q))
    ensures Enabled(c, s, Outer(i, TimeOut)) <==> i < |s.outers| && s.outers[i].Waiting?
    ensures Enabled(c, s, Collect(WaitTooLong)) <==> s.collector.Ready?
    ensures Enabled(c, s, Close(ForceClose)) <==> s.closer.Armed?
  {
  }
}
