/** Runs of the verifier that show what its limits do not promise. */
module VerifierWitnesses {
  import opened Basics
  import opened Verification
  import opened Verifier
  import opened VerifierRuns

  lemma {:induction false} RunThen(c: Config, s: State, actions: seq<Action>, t: State, a: Action)
    requires IsRun(c, s, actions, t) && Enabled(c, t, a)
    ensures IsRun(c, s, actions + [a], Step(c, t, a))
    decreases |actions|
  {
    if actions == [] {
      assert [a][1..] == [];
    } else {
      RunThen(c, Step(c, s, actions[0]), actions[1..], t, a);
      assert (actions + [a])[1..] == actions[1..] + [a];
    }
  }

  lemma {:induction false} RunConcat(c: Config, s: State, a: seq<Action>, t: State, b: seq<Action>, u: State)
    requires IsRun(c, s, a, t) && IsRun(c, t, b, u)
    ensures IsRun(c, s, a + b, u)
    decreases |a|
  {
    if a == [] {
      assert a + b == b;
    } else {
      RunConcat(c, Step(c, s, a[0]), a[1..], t, b, u);
      assert (a + b)[1..] == a[1..] + b;
    }
  }

  // ---------------------------------------------------------------- checks outlive their slots

  /** The first i records have timed out and given their slots back, but their checks are still running. */
  function AllTimedOut(c: Config, i: nat): State
    requires i <= |c.originals|
  {
    var n := |c.originals|;
    Init(c).(main := Loop(i), wg := i,
             outers := seq(n, j requires 0 <= j < n => if j < i then Finishing else NotSpawned),
             inners := seq(n, j requires 0 <= j < n => if j < i then Running else Off),
             chan := seq(i, j requires 0 <= j < i => Failed(c.originals[j], TimedOut)))
  }

  /** Record i's goroutine has been started too. */
  function OneStarted(c: Config, i: nat): State
    requires i < |c.originals|
  {
    var s := AllTimedOut(c, i);
    s.(main := Loop(i + 1), wg := i + 1, sem := 1, outers := s.outers[i := Waiting], inners := s.inners[i := Running])
  }

  lemma StartOne(c: Config, i: nat) returns (actions: seq<Action>)
    requires c.workers >= 1 && i < |c.originals| && c.originals[i].id in c.stored
    ensures IsRun(c, AllTimedOut(c, i), actions, OneStarted(c, i))
  {
    var s := AllTimedOut(c, i);
    var s1 := Step(c, s, Main(LookAtContext));
    var s2 := Step(c, s1, Main(AddToGroup));
    TwoStepRun(c, s, Main(LookAtContext), Main(AddToGroup));
    RunThen(c, s, [Main(LookAtContext), Main(AddToGroup)], s2, Main(Spawn));
    actions := [Main(LookAtContext), Main(AddToGroup)] + [Main(Spawn)];
  }

  lemma TimeOutOne(c: Config, i: nat) returns (actions: seq<Action>)
    requires i < |c.originals|
    ensures IsRun(c, OneStarted(c, i), actions, AllTimedOut(c, i + 1))
  {
    var s := OneStarted(c, i);
    var sent := Step(c, Step(c, s, Outer(i, TimeOut)), Outer(i, SendResult));
    TwoStepRun(c, s, Outer(i, TimeOut), Outer(i, SendResult));
    RunThen(c, s, [Outer(i, TimeOut), Outer(i, SendResult)], sent, Outer(i, ReleaseSlot));
    actions := [Outer(i, TimeOut), Outer(i, SendResult)] + [Outer(i, ReleaseSlot)];
    var t, u := Step(c, sent, Outer(i, ReleaseSlot)), AllTimedOut(c, i + 1);
    assert t.outers == u.outers;
    assert t.inners == u.inners;
    assert t.chan == u.chan;
  }

  /**
    The semaphore bounds the outer goroutines only: with a single slot and any number of stored
    records, all the inner checks can be running at once.
   */
  lemma {:induction false} ChecksOutliveSlots(c: Config, i: nat) returns (actions: seq<Action>)
    requires c.workers >= 1 && i <= |c.originals| && forall j :: 0 <= j < i ==> c.originals[j].id in c.stored
    ensures IsRun(c, Init(c), actions, AllTimedOut(c, i))
    ensures forall j :: 0 <= j < i ==> AllTimedOut(c, i).inners[j].Running?
    ensures SlotHolders(AllTimedOut(c, i).outers) == {}
  {
    if i == 0 {
      actions := [];
      assert Init(c) == AllTimedOut(c, 0);
    } else {
      var before := ChecksOutliveSlots(c, i - 1);
      var start := StartOne(c, i - 1);
      var end := TimeOutOne(c, i - 1);
      RunConcat(c, Init(c), before, AllTimedOut(c, i - 1), start, OneStarted(c, i - 1));
      RunConcat(c, Init(c), before + start, OneStarted(c, i - 1), end, AllTimedOut(c, i));
      actions := before + start + end;
    }
  }

  // ---------------------------------------------------------------- every slot can be taken

  /** The first i records have been started, and their goroutines all wait for their checks. */
  function AllWaiting(c: Config, i: nat): State
    requires i <= |c.originals|
  {
    var n := |c.originals|;
    Init(c).(main := Loop(i), wg := i, sem := i,
             outers := seq(n, j requires 0 <= j < n => if j < i then Waiting else NotSpawned),
             inners := seq(n, j requires 0 <= j < n => if j < i then Running else Off))
  }

  lemma StartNext(c: Config, i: nat) returns (actions: seq<Action>)
    requires i < |c.originals| && i < c.workers && i < 10 && c.originals[i].id in c.stored
    ensures IsRun(c, AllWaiting(c, i), actions, AllWaiting(c, i + 1))
  {
    var s := AllWaiting(c, i);
    var s1 := Step(c, s, Main(LookAtContext));
    var s2 := Step(c, s1, Main(AddToGroup));
    TwoStepRun(c, s, Main(LookAtContext), Main(AddToGroup));
    RunThen(c, s, [Main(LookAtContext), Main(AddToGroup)], s2, Main(Spawn));
    actions := [Main(LookAtContext), Main(AddToGroup)] + [Main(Spawn)];
    var t, u := Step(c, s2, Main(Spawn)), AllWaiting(c, i + 1);
    assert t.outers == u.outers;
    assert t.inners == u.inners;
  }

  /** The cap is no lower: as many goroutines as there are workers, up to 10, can be waiting at once. */
  lemma {:induction false} SlotsCanAllBeTaken(c: Config, i: nat) returns (actions: seq<Action>)
    requires i <= |c.originals| && i <= c.workers && i <= 10
    requires forall j :: 0 <= j < i ==> c.originals[j].id in c.stored
    ensures IsRun(c, Init(c), actions, AllWaiting(c, i))
    ensures forall j :: 0 <= j < i ==> AllWaiting(c, i).outers[j].Waiting? && HoldsSlot(AllWaiting(c, i).outers[j])
  {
    if i == 0 {
      actions := [];
      assert Init(c) == AllWaiting(c, 0);
    } else {
      var before := SlotsCanAllBeTaken(c, i - 1);
      var start := StartNext(c, i - 1);
      RunConcat(c, Init(c), before, AllWaiting(c, i - 1), start, AllWaiting(c, i));
      actions := before + start;
    }
  }

  // ---------------------------------------------------------------- a cancelled run can lose a result

  /** The collector has taken the result about the missing first record, and then the run is cancelled. */
  function TakenAndCancelled(c: Config, v: VerificationRecord): State {
    Init(c).(collector := Holding(v), cancelled := true, main := Loop(1))
  }

  lemma TakeAndCancel(c: Config) returns (actions: seq<Action>, v: VerificationRecord)
    requires |c.originals| >= 2 && c.originals[0].id !in c.stored
    ensures IsRun(c, Init(c), actions, TakenAndCancelled(c, v))
  {
    var s := Init(c);
    v := Failed(c.originals[0], NotFound);
    var t := s.(chan := [v], main := Loop(1));
    TwoStepRun(c, s, Main(LookAtContext), Main(SendMissing));
    assert Step(c, Step(c, s, Main(LookAtContext)), Main(SendMissing)) == t;
    TwoStepRun(c, t, Collect(Receive), Cancel);
    actions := [Main(LookAtContext), Main(SendMissing)] + [Collect(Receive), Cancel];
    assert Step(c, Step(c, t, Collect(Receive)), Cancel) == TakenAndCancelled(c, v);
    RunConcat(c, s, [Main(LookAtContext), Main(SendMissing)], t, [Collect(Receive), Cancel], TakenAndCancelled(c, v));
  }

  /** With two records, the first not stored, cancellation can return nothing although one result was sent. */
  lemma CancellationCanLoseOne(c: Config) returns (actions: seq<Action>, t: State)
    requires |c.originals| >= 2 && c.originals[0].id !in c.stored
    ensures IsRun(c, Init(c), actions, t) && t.main == CancelReturned(1) && t.returned == Some([])
  {
    var v;
    actions, v := TakeAndCancel(c);
    var s := TakenAndCancelled(c, v);
    var u := Step(c, Step(c, s, Main(LookAtContext)), Main(CloseAfterCancel));
    TwoStepRun(c, s, Main(LookAtContext), Main(CloseAfterCancel));
    t := Step(c, u, Main(ReturnCancelled));
    RunThen(c, s, [Main(LookAtContext), Main(CloseAfterCancel)], u, Main(ReturnCancelled));
    RunConcat(c, Init(c), actions, s, [Main(LookAtContext), Main(CloseAfterCancel)] + [Main(ReturnCancelled)], t);
    actions := actions + ([Main(LookAtContext), Main(CloseAfterCancel)] + [Main(ReturnCancelled)]);
  }
}
