/** The invariants of the verifier hold at the start and after every step. */
module VerifierSafety {
  import opened Verification
  import opened Verifier
  import opened VerifierEffects

  ghost predicate Inv(c: Config, s: State) {
    Ordered(c, s) && Sized(c, s) && ClosedQuietly(s) && Settled(c, s)
  }

  lemma InitInv(c: Config)
    ensures Inv(c, Init(c))
  {
    assert Owing(Init(c).outers) == {} && SlotHolders(Init(c).outers) == {} && Group(Init(c).outers) == {};
  }

  /** How the three groups of outer goroutines change when goroutine i does. */
  lemma GroupsUpdate(outers: seq<Outer>, i: nat, v: Outer)
    requires i < |outers|
    ensures Owing(outers[i := v]) == Owing(outers) - {i} + (if OwesResult(v) then {i} else {})
    ensures SlotHolders(outers[i := v]) == SlotHolders(outers) - {i} + (if HoldsSlot(v) then {i} else {})
    ensures Group(outers[i := v]) == Group(outers) - {i} + (if InGroup(v) then {i} else {})
  {
  }

  lemma SizesUpdate(outers: seq<Outer>, i: nat, v: Outer)
    requires i < |outers|
    ensures |Owing(outers[i := v])| + (if OwesResult(outers[i]) then 1 else 0)
            == |Owing(outers)| + (if OwesResult(v) then 1 else 0)
    ensures |SlotHolders(outers[i := v])| + (if HoldsSlot(outers[i]) then 1 else 0)
            == |SlotHolders(outers)| + (if HoldsSlot(v) then 1 else 0)
    ensures |Group(outers[i := v])| + (if InGroup(outers[i]) then 1 else 0)
            == |Group(outers)| + (if InGroup(v) then 1 else 0)
  {
    GroupsUpdate(outers, i, v);
    Toggle(Owing(outers), i);
    Toggle(SlotHolders(outers), i);
    Toggle(Group(outers), i);
  }

  lemma Toggle(s: set<nat>, i: nat)
    ensures |s - {i}| == |s| - if i in s then 1 else 0
    ensures |s - {i} + {i}| == |s - {i}| + 1
  {
    if i !in s {
      assert s - {i} == s;
    }
  }

  lemma OwingAreInGroup(outers: seq<Outer>)
    ensures |Owing(outers)| <= |SlotHolders(outers)| <= |Group(outers)|
    ensures |Group(outers)| == 0 ==> Owing(outers) == {}
  {
    SubsetSize(Owing(outers), SlotHolders(outers));
    SubsetSize(SlotHolders(outers), Group(outers));
  }

  /** Nobody ever waits for room in the results channel: it holds at most one result a record. */
  lemma SendNeverBlocks(c: Config, s: State)
    requires Ordered(c, s) && Sized(c, s)
    ensures |s.chan| <= |c.originals|
    ensures |c.originals| > 0 ==> |s.chan| < c.Capacity()
  {
  }

  /** A goroutine that gets on only ever stops owing its result, and leaves its group. */
  lemma GroupsShrink(outers: seq<Outer>, i: nat, v: Outer)
    requires i < |outers| && (OwesResult(v) ==> OwesResult(outers[i])) && (InGroup(v) ==> InGroup(outers[i]))
    ensures Owing(outers[i := v]) <= Owing(outers) && Group(outers[i := v]) <= Group(outers)
    ensures OwesResult(v) == OwesResult(outers[i]) ==> Owing(outers[i := v]) == Owing(outers)
  {
    GroupsUpdate(outers, i, v);
  }

  lemma OuterOnlyStopsOwing(c: Config, s: State, i: nat, o: OuterOp, t: State)
    requires OuterEnabled(c, s, i, o) && OuterEffect(c, s, i, o, t)
    ensures Owing(t.outers) <= Owing(s.outers) && Group(t.outers) <= Group(s.outers)
    ensures o.LeaveGroup? ==> i in Group(s.outers)
    ensures !o.SendResult? ==> Owing(t.outers) == Owing(s.outers)
  {
    if !o.SendResult? {
      GroupsShrink(s.outers, i, Moved(c, s, i, o));
    } else if s.closes == 0 {
      GroupsShrink(s.outers, i, Releasing);
    }
  }

  // Main.

  lemma MainOrdered(c: Config, s: State, m: MainOp, t: State)
    requires Ordered(c, s) && !s.panicked && MainEnabled(c, s, m) && MainEffect(c, s, m, t)
    ensures Ordered(c, t)
  {
    MainStaged(c, s, m, t);
  }

  lemma MainStaged(c: Config, s: State, m: MainOp, t: State)
    requires Staged(c, s) && !s.panicked && MainEnabled(c, s, m) && MainEffect(c, s, m, t)
    ensures Staged(c, t)
  {
  }

  lemma MainSized(c: Config, s: State, m: MainOp, t: State)
    requires Ordered(c, s) && Sized(c, s) && !s.panicked && MainEnabled(c, s, m) && MainEffect(c, s, m, t)
    ensures Sized(c, t)
  {
    if m.Spawn? {
      SizesUpdate(s.outers, s.main.i, Waiting);
    }
  }

  lemma MainSettled(c: Config, s: State, m: MainOp, t: State)
    requires Inv(c, s) && !s.panicked && MainEnabled(c, s, m) && MainEffect(c, s, m, t)
    ensures ClosedQuietly(t) && Settled(c, t)
  {
    if m.CloseAfterCancel? || m.ReturnCancelled? {
      OwingAreInGroup(s.outers);
    }
  }

  lemma MainKeeps(c: Config, s: State, m: MainOp, t: State)
    requires Inv(c, s) && !s.panicked && MainEnabled(c, s, m) && MainEffect(c, s, m, t)
    ensures Inv(c, t)
  {
    MainOrdered(c, s, m, t);
    MainSized(c, s, m, t);
    MainSettled(c, s, m, t);
  }

  // Outer and inner goroutines.

  lemma OuterOrdered(c: Config, s: State, i: nat, o: OuterOp, t: State)
    requires Inv(c, s) && !s.panicked && OuterEnabled(c, s, i, o) && OuterEffect(c, s, i, o, t)
    ensures Ordered(c, t)
  {
    if o.SendResult? && s.closes > 0 {
      assert i in Owing(s.outers);
      OwingAreInGroup(s.outers);
    }
  }

  lemma OuterSized(c: Config, s: State, i: nat, o: OuterOp, t: State)
    requires Sized(c, s) && OuterEnabled(c, s, i, o) && OuterEffect(c, s, i, o, t)
    ensures Sized(c, t)
  {
    if !t.panicked || s.panicked {
      SizesUpdate(s.outers, i, t.outers[i]);
    }
  }

  lemma OuterSettled(c: Config, s: State, i: nat, o: OuterOp, t: State)
    requires Inv(c, s) && !s.panicked && OuterEnabled(c, s, i, o) && OuterEffect(c, s, i, o, t)
    ensures ClosedQuietly(t) && Settled(c, t)
  {
    OuterOnlyStopsOwing(c, s, i, o, t);
    OwingAreInGroup(s.outers);
    if o.SendResult? {
      assert i in Owing(s.outers);
    }
  }

  lemma OuterKeeps(c: Config, s: State, i: nat, o: OuterOp, t: State)
    requires Inv(c, s) && !s.panicked && OuterEnabled(c, s, i, o) && OuterEffect(c, s, i, o, t)
    ensures Inv(c, t)
  {
    OuterOrdered(c, s, i, o, t);
    OuterSized(c, s, i, o, t);
    OuterSettled(c, s, i, o, t);
  }

  lemma InnerKeeps(c: Config, s: State, i: nat, p: bool, q: bool, t: State)
    requires Inv(c, s) && InnerEnabled(c, s, i) && InnerEffect(c, s, i, p, q, t)
    ensures Inv(c, t)
  {
  }

  // Collector and closer.

  lemma CollectorKeeps(c: Config, s: State, k: CollectorOp, t: State)
    requires Inv(c, s) && !s.panicked && CollectorEnabled(s, k) && CollectorEffect(c, s, k, t)
    ensures Inv(c, t)
  {
    CollectorSettled(c, s, k, t);
  }

  lemma CollectorSettled(c: Config, s: State, k: CollectorOp, t: State)
    requires Inv(c, s) && !s.panicked && CollectorEnabled(s, k) && CollectorEffect(c, s, k, t)
    ensures ClosedQuietly(t) && Settled(c, t)
  {
    SubsetSize({}, Owing(s.outers));
  }

  lemma CloserKeeps(c: Config, s: State, z: CloserOp, t: State)
    requires Inv(c, s) && !s.panicked && CloserEnabled(s, z) && CloserEffect(s, z, t)
    ensures Inv(c, t)
  {
    OwingAreInGroup(s.outers);
  }

  /** Every effect of an enabled action keeps the invariants. */
  lemma EffectKeeps(c: Config, s: State, a: Action, t: State)
    requires Inv(c, s) && Enabled(c, s, a) && Effect(c, s, a, t)
    ensures Inv(c, t)
  {
    match a
    case Cancel =>
    case Main(m) => MainKeeps(c, s, m, t);
    case Outer(i, o) => OuterKeeps(c, s, i, o, t);
    case Inner(i, p, q) => InnerKeeps(c, s, i, p, q, t);
    case Collect(k) => CollectorKeeps(c, s, k, t);
    case Close(z) => CloserKeeps(c, s, z, t);
  }

  lemma StepKeeps(c: Config, s: State, a: Action)
    requires Inv(c, s) && Enabled(c, s, a)
    ensures Inv(c, Step(c, s, a))
  {
    StepHasEffect(c, s, a);
    EffectKeeps(c, s, a, Step(c, s, a));
  }
}
