/**
  The steps of the verifier as a relation: what each action changes, field by field. The proofs about
  steps work from this, so that none of them has to look at whole states being rebuilt.
 */
module VerifierEffects {
  import opened Basics
  import opened Verification
  import opened Verifier

  // What a step leaves alone, by concern.

  predicate SameGoroutines(s: State, t: State) {
    t.outers == s.outers && t.inners == s.inners && t.sem == s.sem && t.wg == s.wg
  }

  predicate SameChannel(s: State, t: State) {
    t.chan == s.chan && t.closes == s.closes && t.panicked == s.panicked
  }

  predicate SameOutcome(s: State, t: State) {
    t.results == s.results && t.returned == s.returned
  }

  predicate SameCollector(s: State, t: State) {
    t.collector == s.collector && t.signalled == s.signalled && t.gaveUp == s.gaveUp
  }

  predicate SameCloser(s: State, t: State) {
    t.closer == s.closer && t.cutShort == s.cutShort
  }

  predicate SameMain(s: State, t: State) {
    t.main == s.main && t.cancelled == s.cancelled
  }

  /** A close call: the second one panics. */
  predicate Closes(s: State, t: State) {
    && t.chan == s.chan
    && (if s.closes > 0 then t.closes == s.closes && t.panicked
        else t.closes == s.closes + 1 && t.panicked == s.panicked)
  }

  // Main.

  predicate MainEffect(c: Config, s: State, m: MainOp, t: State)
    requires MainEnabled(c, s, m)
  {
    && t.cancelled == s.cancelled && SameCollector(s, t) && t.cutShort == s.cutShort
    && match m
       case LookAtContext => Looked(s, t)
       case SendMissing => MissingSent(c, s, t)
       case AddToGroup => Added(s, t)
       case Spawn => Spawned(s, t)
       case StartCloser => CloserStarted(s, t)
       case CloseAfterCancel => ClosedAfterCancel(s, t)
       case DrainTake => Drained(s, t)
       case DrainAppend => DrainAppended(s, t)
       case ReturnCancelled => ReturnedTo(s, CancelReturned(s.main.i), t)
       case ReturnComplete => ReturnedTo(s, Returned, t)
  }

  predicate Looked(s: State, t: State)
    requires s.main.Loop?
  {
    && SameGoroutines(s, t) && SameChannel(s, t) && SameOutcome(s, t) && t.closer == s.closer
    && t.main == if s.cancelled then CancelWait(s.main.i) else Dispatch(s.main.i)
  }

  predicate MissingSent(c: Config, s: State, t: State)
    requires s.main.Dispatch? && s.main.i < |c.originals|
  {
    && SameGoroutines(s, t) && SameOutcome(s, t) && t.closer == s.closer && t.closes == s.closes
    && (if s.closes > 0 then t.panicked && t.main == s.main && t.chan == s.chan
        else t.panicked == s.panicked && t.main == Loop(s.main.i + 1)
             && t.chan == s.chan + [Failed(c.originals[s.main.i], NotFound)])
  }

  predicate Added(s: State, t: State)
    requires s.main.Dispatch?
  {
    && t.outers == s.outers && t.inners == s.inners && t.sem == s.sem && t.wg == s.wg + 1
    && SameChannel(s, t) && SameOutcome(s, t) && t.closer == s.closer && t.main == Acquire(s.main.i)
  }

  predicate Spawned(s: State, t: State)
    requires s.main.Acquire? && s.main.i < |s.outers| && s.main.i < |s.inners|
  {
    && t.outers == s.outers[s.main.i := Waiting] && t.inners == s.inners[s.main.i := Running]
    && t.sem == s.sem + 1 && t.wg == s.wg
    && SameChannel(s, t) && SameOutcome(s, t) && t.closer == s.closer && t.main == Loop(s.main.i + 1)
  }

  predicate CloserStarted(s: State, t: State) {
    SameGoroutines(s, t) && SameChannel(s, t) && SameOutcome(s, t) && t.closer == Armed && t.main == Await
  }

  predicate ClosedAfterCancel(s: State, t: State)
    requires s.main.CancelWait?
  {
    SameGoroutines(s, t) && Closes(s, t) && SameOutcome(s, t) && t.closer == s.closer && t.main == Drain(s.main.i)
  }

  predicate Drained(s: State, t: State)
    requires s.main.Drain? && s.chan != []
  {
    && SameGoroutines(s, t) && SameOutcome(s, t) && t.closer == s.closer
    && t.chan == s.chan[1..] && t.closes == s.closes && t.panicked == s.panicked
    && t.main == DrainHold(s.main.i, s.chan[0])
  }

  predicate DrainAppended(s: State, t: State)
    requires s.main.DrainHold?
  {
    && SameGoroutines(s, t) && SameChannel(s, t) && t.closer == s.closer
    && t.results == s.results + [s.main.v] && t.returned == s.returned && t.main == Drain(s.main.i)
  }

  predicate ReturnedTo(s: State, m: MainPc, t: State) {
    && SameGoroutines(s, t) && SameChannel(s, t) && t.closer == s.closer
    && t.results == s.results && t.returned == Some(s.results) && t.main == m
  }

  // Outer goroutines.

  predicate OuterEffect(c: Config, s: State, i: nat, o: OuterOp, t: State)
    requires OuterEnabled(c, s, i, o)
  {
    && SameMain(s, t) && SameCollector(s, t) && SameCloser(s, t) && SameOutcome(s, t) && t.closes == s.closes
    && t.sem + (if o.ReleaseSlot? then 1 else 0) == s.sem
    && t.wg + (if o.LeaveGroup? then 1 else 0) == s.wg
    && t.inners == (if o.TakeReport? then s.inners[i := Delivered] else s.inners)
    && (if o.SendResult? then Sent(s, i, t)
        else t.chan == s.chan && t.panicked == s.panicked && t.outers == s.outers[i := Moved(c, s, i, o)])
  }

  predicate Sent(s: State, i: nat, t: State)
    requires i < |s.outers| && s.outers[i].Sending?
  {
    if s.closes > 0 then t.panicked && t.chan == s.chan && t.outers == s.outers
    else t.panicked == s.panicked && t.chan == s.chan + [s.outers[i].v] && t.outers == s.outers[i := Releasing]
  }

  function Moved(c: Config, s: State, i: nat, o: OuterOp): Outer
    requires OuterEnabled(c, s, i, o) && !o.SendResult?
  {
    match o
    case TakeReport => Sending(s.inners[i].v)
    case TimeOut => Sending(Failed(c.originals[i], TimedOut))
    case ReleaseSlot => Finishing
    case LeaveGroup => Finished
  }

  // The others.

  predicate InnerEffect(c: Config, s: State, i: nat, p: bool, q: bool, t: State)
    requires InnerEnabled(c, s, i)
  {
    && SameMain(s, t) && SameCollector(s, t) && SameCloser(s, t) && SameOutcome(s, t) && SameChannel(s, t)
    && t.outers == s.outers && t.sem == s.sem && t.wg == s.wg
    && var card := c.originals[i];
       t.inners == s.inners[i := Reported(VerifyRecord(c.key, card, c.stored[card.id], p, q))]
  }

  predicate CollectorEffect(c: Config, s: State, k: CollectorOp, t: State)
    requires CollectorEnabled(s, k)
  {
    && SameMain(s, t) && SameCloser(s, t) && SameGoroutines(s, t)
    && t.closes == s.closes && t.panicked == s.panicked && t.returned == s.returned
    && match k
       case Receive =>
         t.chan == s.chan[1..] && t.results == s.results && t.collector == Holding(s.chan[0])
         && t.signalled == s.signalled && t.gaveUp == s.gaveUp
       case Append => t.chan == s.chan && t.gaveUp == s.gaveUp && Appended(|c.originals|, s, t)
       case SeeClosed => SameChannel(s, t) && t.results == s.results && Stopped(s, t) && t.gaveUp == s.gaveUp
       case WaitTooLong => SameChannel(s, t) && t.results == s.results && Stopped(s, t) && t.gaveUp
  }

  predicate Appended(n: nat, s: State, t: State)
    requires s.collector.Holding?
  {
    && t.results == s.results + [s.collector.v]
    && (if |t.results| >= n then Stopped(s, t) else t.collector == Ready && t.signalled == s.signalled)
  }

  predicate Stopped(s: State, t: State) {
    t.collector == Done && t.signalled
  }

  ghost predicate CloserEffect(s: State, z: CloserOp, t: State) {
    && SameMain(s, t) && SameCollector(s, t) && SameOutcome(s, t) && SameGoroutines(s, t)
    && Closes(s, t) && t.closer == Closed
    && t.cutShort == (s.cutShort || (z.ForceClose? && Owing(s.outers) != {}))
  }

  ghost predicate Effect(c: Config, s: State, a: Action, t: State)
    requires Enabled(c, s, a)
  {
    match a
    case Cancel => CancelEffect(s, t)
    case Main(m) => MainEffect(c, s, m, t)
    case Outer(i, o) => OuterEffect(c, s, i, o, t)
    case Inner(i, p, q) => InnerEffect(c, s, i, p, q, t)
    case Collect(k) => CollectorEffect(c, s, k, t)
    case Close(z) => CloserEffect(s, z, t)
  }

  predicate CancelEffect(s: State, t: State) {
    && t.cancelled && t.main == s.main
    && SameGoroutines(s, t) && SameChannel(s, t) && SameOutcome(s, t) && SameCollector(s, t) && SameCloser(s, t)
  }

  // ---------------------------------------------------------------- the steps have these effects

  lemma SendMissingEffect(c: Config, s: State)
    requires MainEnabled(c, s, SendMissing)
    ensures MainEffect(c, s, SendMissing, MainStep(c, s, SendMissing))
  {
  }

  lemma SpawnEffect(c: Config, s: State)
    requires MainEnabled(c, s, Spawn)
    ensures MainEffect(c, s, Spawn, MainStep(c, s, Spawn))
  {
  }

  lemma LoopEffect(c: Config, s: State, m: MainOp)
    requires MainEnabled(c, s, m) && (m.LookAtContext? || m.AddToGroup? || m.StartCloser?)
    ensures MainEffect(c, s, m, MainStep(c, s, m))
  {
  }

  lemma CancelPathEffect(c: Config, s: State, m: MainOp)
    requires MainEnabled(c, s, m) && (m.CloseAfterCancel? || m.DrainTake? || m.DrainAppend?)
    ensures MainEffect(c, s, m, MainStep(c, s, m))
  {
  }

  lemma ReturnEffect(c: Config, s: State, m: MainOp)
    requires MainEnabled(c, s, m) && (m.ReturnCancelled? || m.ReturnComplete?)
    ensures MainEffect(c, s, m, MainStep(c, s, m))
  {
  }

  lemma MainHasEffect(c: Config, s: State, m: MainOp)
    requires MainEnabled(c, s, m)
    ensures MainEffect(c, s, m, MainStep(c, s, m))
  {
    match m
    case SendMissing => SendMissingEffect(c, s);
    case Spawn => SpawnEffect(c, s);
    case LookAtContext => LoopEffect(c, s, m);
    case AddToGroup => LoopEffect(c, s, m);
    case StartCloser => LoopEffect(c, s, m);
    case CloseAfterCancel => CancelPathEffect(c, s, m);
    case DrainTake => CancelPathEffect(c, s, m);
    case DrainAppend => CancelPathEffect(c, s, m);
    case ReturnCancelled => ReturnEffect(c, s, m);
    case ReturnComplete => ReturnEffect(c, s, m);
  }

  lemma SendEffect(c: Config, s: State, i: nat)
    requires OuterEnabled(c, s, i, SendResult)
    ensures OuterEffect(c, s, i, SendResult, OuterStep(c, s, i, SendResult))
  {
  }

  lemma AnswerEffect(c: Config, s: State, i: nat, o: OuterOp)
    requires OuterEnabled(c, s, i, o) && (o.TakeReport? || o.TimeOut?)
    ensures OuterEffect(c, s, i, o, OuterStep(c, s, i, o))
  {
  }

  lemma EndEffect(c: Config, s: State, i: nat, o: OuterOp)
    requires OuterEnabled(c, s, i, o) && (o.ReleaseSlot? || o.LeaveGroup?)
    ensures OuterEffect(c, s, i, o, OuterStep(c, s, i, o))
  {
  }

  lemma OuterHasEffect(c: Config, s: State, i: nat, o: OuterOp)
    requires OuterEnabled(c, s, i, o)
    ensures OuterEffect(c, s, i, o, OuterStep(c, s, i, o))
  {
    match o
    case TakeReport => AnswerEffect(c, s, i, o);
    case TimeOut => AnswerEffect(c, s, i, o);
    case SendResult => SendEffect(c, s, i);
    case ReleaseSlot => EndEffect(c, s, i, o);
    case LeaveGroup => EndEffect(c, s, i, o);
  }

  lemma InnerHasEffect(c: Config, s: State, i: nat, p: bool, q: bool)
    requires InnerEnabled(c, s, i)
    ensures InnerEffect(c, s, i, p, q, InnerStep(c, s, i, p, q))
  {
  }

  lemma AppendEffect(c: Config, s: State)
    requires CollectorEnabled(s, Append)
    ensures CollectorEffect(c, s, Append, CollectorStep(c, s, Append))
  {
  }

  lemma CollectorHasEffect(c: Config, s: State, k: CollectorOp)
    requires CollectorEnabled(s, k)
    ensures CollectorEffect(c, s, k, CollectorStep(c, s, k))
  {
    if k.Append? {
      AppendEffect(c, s);
    }
  }

  lemma CloserHasEffect(s: State, z: CloserOp)
    requires CloserEnabled(s, z)
    ensures CloserEffect(s, z, CloserStep(s, z))
  {
  }

  lemma StepHasEffect(c: Config, s: State, a: Action)
    requires Enabled(c, s, a)
    ensures Effect(c, s, a, Step(c, s, a))
  {
    match a
    case Cancel =>
    case Main(m) => MainHasEffect(c, s, m);
    case Outer(i, o) => OuterHasEffect(c, s, i, o);
    case Inner(i, p, q) => InnerHasEffect(c, s, i, p, q);
    case Collect(k) => CollectorHasEffect(c, s, k);
    case Close(z) => CloserHasEffect(s, z);
  }
}
