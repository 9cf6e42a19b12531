/**
  The worker pool of the batch endpoint as a labelled transition system: the handler queues the items,
  workers answer them in any order, a closer waits for the workers, and the handler collects. A run is
  any interleaving of their channel operations and Encrypt calls.
 */
module BatchPool {
  import opened Aead
  import opened Sequences

  const MAX_WORKERS := 50

  /** What the Encrypt call for one item comes back with. */
  datatype Outcome = Answer(sealed: Sealed) | Failure(message: string)

  /** What a worker puts on the reply channel: the item's position and its outcome. */
  datatype Reply = Reply(index: nat, outcome: Outcome)

  datatype Config = Config(outcomes: seq<Outcome>) {
    /** The number of items, and the capacity of both channels. */
    function Items(): nat { |outcomes| }

    function Workers(): nat { if Items() < MAX_WORKERS then Items() else MAX_WORKERS }
  }

  datatype Worker = Idle | Busy(index: nat) | Replying(reply: Reply) | Exited

  datatype MainPc = Queueing | Collecting | Responding

  /** workClosed and repliesClosed count the close calls. */
  datatype State = State(
    queued: nat, work: seq<nat>, workClosed: nat,
    workers: seq<Worker>,
    replies: seq<Reply>, repliesClosed: nat, closerDone: bool,
    main: MainPc, collected: seq<Reply>,
    panicked: bool)

  datatype WorkerOp = Take | Encrypt | Send | Exit

  datatype MainOp = Queue | CloseWork | Collect | Finish

  datatype Action = Main(m: MainOp) | Work(w: nat, op: WorkerOp) | CloseReplies

  function Init(c: Config): State {
    State(0, [], 0, seq(c.Workers(), _ => Idle), [], 0, false, Queueing, [], false)
  }

  ghost predicate AllExited(ws: seq<Worker>) {
    forall i :: 0 <= i < |ws| ==> ws[i].Exited?
  }

  predicate MainEnabled(c: Config, s: State, m: MainOp) {
    match m
    case Queue => s.main.Queueing? && s.queued < c.Items() && (s.workClosed > 0 || |s.work| < c.Items())
    case CloseWork => s.main.Queueing? && s.queued == c.Items()
    case Collect => s.main.Collecting? && s.replies != []
    case Finish => s.main.Collecting? && s.replies == [] && s.repliesClosed > 0
  }

  function MainStep(s: State, m: MainOp): State
    requires m.Collect? ==> s.replies != []
  {
    match m
    case Queue =>
      if s.workClosed > 0 then s.(panicked := true)
      else s.(queued := s.queued + 1, work := s.work + [s.queued])
    case CloseWork =>
      if s.workClosed > 0 then s.(panicked := true)
      else s.(main := Collecting, workClosed := s.workClosed + 1)
    case Collect => s.(replies := s.replies[1..], collected := s.collected + [s.replies[0]])
    case Finish => s.(main := Responding)
  }

  predicate WorkerEnabled(c: Config, s: State, w: nat, op: WorkerOp) {
    w < |s.workers| &&
    match op
    case Take => s.workers[w].Idle? && s.work != []
    case Encrypt => s.workers[w].Busy? && s.workers[w].index < c.Items()
    case Send => s.workers[w].Replying? && (s.repliesClosed > 0 || |s.replies| < c.Items())
    case Exit => s.workers[w].Idle? && s.work == [] && s.workClosed > 0
  }

  function WorkerStep(c: Config, s: State, w: nat, op: WorkerOp): State
    requires WorkerEnabled(c, s, w, op)
  {
    match op
    case Take => s.(workers := s.workers[w := Busy(s.work[0])], work := s.work[1..])
    case Encrypt =>
      var i := s.workers[w].index;
      s.(workers := s.workers[w := Replying(Reply(i, c.outcomes[i]))])
    case Send =>
      if s.repliesClosed > 0 then s.(panicked := true)
      else s.(workers := s.workers[w := Idle], replies := s.replies + [s.workers[w].reply])
    case Exit => s.(workers := s.workers[w := Exited])
  }

  /** The goroutine started after the work channel is closed: wg.Wait, then close. */
  ghost predicate CloserEnabled(s: State) {
    !s.main.Queueing? && !s.closerDone && AllExited(s.workers)
  }

  function CloserStep(s: State): State {
    if s.repliesClosed > 0 then s.(panicked := true)
    else s.(closerDone := true, repliesClosed := s.repliesClosed + 1)
  }

  ghost predicate Enabled(c: Config, s: State, a: Action) {
    && !s.panicked
    && match a
       case Main(m) => MainEnabled(c, s, m)
       case Work(w, op) => WorkerEnabled(c, s, w, op)
       case CloseReplies => CloserEnabled(s)
  }

  ghost function Step(c: Config, s: State, a: Action): State
    requires Enabled(c, s, a)
  {
    match a
    case Main(m) => MainStep(s, m)
    case Work(w, op) => WorkerStep(c, s, w, op)
    case CloseReplies => CloserStep(s)
  }

  ghost predicate IsRun(c: Config, s: State, actions: seq<Action>, t: State)
    decreases |actions|
  {
    if actions == [] then s == t
    else Enabled(c, s, actions[0]) && IsRun(c, Step(c, s, actions[0]), actions[1..], t)
  }

  // ---------------------------------------------------------------- where the items are

  predicate Has(w: Worker, x: nat) {
    match w
    case Idle => false
    case Busy(i) => i == x
    case Replying(r) => r.index == x
    case Exited => false
  }

  ghost function Holders(ws: seq<Worker>, x: nat): set<nat> {
    set i: nat | i < |ws| && Has(ws[i], x)
  }

  predicate Loaded(w: Worker) {
    w.Busy? || w.Replying?
  }

  ghost function InHand(ws: seq<Worker>): set<nat> {
    set i: nat | i < |ws| && Loaded(ws[i])
  }

  function ByItem(): nat -> nat {
    (i: nat) => i
  }

  function ByIndex(): Reply -> nat {
    (r: Reply) => r.index
  }

  /** How often item x is in the pool: queued, in a worker's hands, answered, or collected. */
  ghost function Count(s: State, x: nat): nat {
    Tally(ByItem(), s.work, x) + |Holders(s.workers, x)|
    + Tally(ByIndex(), s.replies, x) + Tally(ByIndex(), s.collected, x)
  }

  // ---------------------------------------------------------------- invariants

  /** The order of the shutdown: work closed, then the workers out, then replies closed, then the response. */
  ghost predicate Ordered(c: Config, s: State) {
    && !s.panicked
    && |s.workers| == c.Workers() && s.queued <= c.Items()
    && s.workClosed == (if s.main.Queueing? then 0 else 1)
    && (!s.main.Queueing? ==> s.queued == c.Items())
    && (forall i :: 0 <= i < |s.workers| && s.workers[i].Exited? ==> s.workClosed == 1 && s.work == [])
    && s.repliesClosed == (if s.closerDone then 1 else 0)
    && (s.closerDone ==> AllExited(s.workers) && !s.main.Queueing?)
    && (s.main.Responding? ==> s.closerDone && s.replies == [])
  }

  /** As many items are in the pool as have been queued. */
  ghost predicate Sized(s: State) {
    |s.work| + |InHand(s.workers)| + |s.replies| + |s.collected| == s.queued
  }

  predicate IsAnswer(c: Config, r: Reply) {
    r.index < c.Items() && r.outcome == c.outcomes[r.index]
  }

  predicate WorkerFaithful(c: Config, w: Worker) {
    match w
    case Idle => true
    case Busy(i) => i < c.Items()
    case Replying(r) => IsAnswer(c, r)
    case Exited => true
  }

  /** Every reply carries the outcome of the item whose position it names. */
  ghost predicate Faithful(c: Config, s: State) {
    && (forall i :: 0 <= i < |s.work| ==> s.work[i] < c.Items())
    && (forall i :: 0 <= i < |s.workers| ==> WorkerFaithful(c, s.workers[i]))
    && (forall i :: 0 <= i < |s.replies| ==> IsAnswer(c, s.replies[i]))
    && (forall i :: 0 <= i < |s.collected| ==> IsAnswer(c, s.collected[i]))
  }

  /** Every queued item is in the pool exactly once, the others not at all. */
  ghost predicate Conserved(s: State) {
    forall x: nat :: Count(s, x) == if x < s.queued then 1 else 0
  }

  ghost predicate Inv(c: Config, s: State) {
    Ordered(c, s) && Sized(s) && Faithful(c, s) && Conserved(s)
  }

  lemma InitInv(c: Config)
    ensures Inv(c, Init(c))
  {
    var s := Init(c);
    assert InHand(s.workers) == {};
    forall x: nat ensures Count(s, x) == 0 {
      assert Holders(s.workers, x) == {};
    }
  }

  // ---------------------------------------------------------------- preservation

  lemma SetsUpdate(ws: seq<Worker>, w: nat, v: Worker, x: nat)
    requires w < |ws|
    ensures |Holders(ws[w := v], x)| + (if Has(ws[w], x) then 1 else 0) ==
            |Holders(ws, x)| + (if Has(v, x) then 1 else 0)
    ensures |InHand(ws[w := v])| + (if Loaded(ws[w]) then 1 else 0) == |InHand(ws)| + (if Loaded(v) then 1 else 0)
  {
    HoldersUpdate(ws, w, v, x);
    InHandUpdate(ws, w, v);
  }

  lemma HoldersUpdate(ws: seq<Worker>, w: nat, v: Worker, x: nat)
    requires w < |ws|
    ensures |Holders(ws[w := v], x)| + (if Has(ws[w], x) then 1 else 0) ==
            |Holders(ws, x)| + (if Has(v, x) then 1 else 0)
  {
    var before, after := Holders(ws, x), Holders(ws[w := v], x);
    assert before - {w} == after - {w};
    WithoutOne(before, w);
    WithoutOne(after, w);
  }

  lemma InHandUpdate(ws: seq<Worker>, w: nat, v: Worker)
    requires w < |ws|
    ensures |InHand(ws[w := v])| + (if Loaded(ws[w]) then 1 else 0) == |InHand(ws)| + (if Loaded(v) then 1 else 0)
  {
    var before, after := InHand(ws), InHand(ws[w := v]);
    assert before - {w} == after - {w};
    WithoutOne(before, w);
    WithoutOne(after, w);
  }

  lemma OrderedStep(c: Config, s: State, a: Action)
    requires Ordered(c, s) && Enabled(c, s, a)
    ensures Ordered(c, Step(c, s, a))
  {
    if a.Work? {
      assert !s.workers[a.w].Exited?;
      assert !s.closerDone;
    }
  }

  lemma SizedStep(c: Config, s: State, a: Action)
    requires Ordered(c, s) && Sized(s) && Enabled(c, s, a)
    ensures Sized(Step(c, s, a))
  {
    if a.Work? {
      assert s.repliesClosed == 0 by { assert !s.workers[a.w].Exited?; }
      SetsUpdate(s.workers, a.w, WorkerStep(c, s, a.w, a.op).workers[a.w], 0);
    }
  }

  lemma FaithfulStep(c: Config, s: State, a: Action)
    requires Ordered(c, s) && Faithful(c, s) && Enabled(c, s, a)
    ensures Faithful(c, Step(c, s, a))
  {
    if a.Work? {
      assert WorkerFaithful(c, s.workers[a.w]);
    }
  }

  lemma ConservedStep(c: Config, s: State, a: Action)
    requires Ordered(c, s) && Conserved(s) && Enabled(c, s, a)
    ensures Conserved(Step(c, s, a))
  {
    var t := Step(c, s, a);
    forall x: nat ensures Count(t, x) == if x < t.queued then 1 else 0 {
      assert Count(s, x) == if x < s.queued then 1 else 0;
      match a
      case Main(m) => MainCounts(c, s, m, x);
      case Work(w, op) => WorkerCounts(c, s, w, op, x);
      case CloseReplies =>
    }
  }

  lemma MainCounts(c: Config, s: State, m: MainOp, x: nat)
    requires Ordered(c, s) && MainEnabled(c, s, m)
    ensures Count(MainStep(s, m), x) == Count(s, x) + if m.Queue? && x == s.queued then 1 else 0
  {
    if m.Queue? {
      TallyConcat(ByItem(), s.work, [s.queued], x);
      TallyOne(ByItem(), s.queued, x);
    } else if m.Collect? {
      TallyConcat(ByIndex(), s.collected, [s.replies[0]], x);
      TallyOne(ByIndex(), s.replies[0], x);
    }
  }

  lemma WorkerCounts(c: Config, s: State, w: nat, op: WorkerOp, x: nat)
    requires Ordered(c, s) && WorkerEnabled(c, s, w, op)
    ensures Count(WorkerStep(c, s, w, op), x) == Count(s, x)
  {
    assert s.repliesClosed == 0 by { assert !s.workers[w].Exited?; }
    SetsUpdate(s.workers, w, WorkerStep(c, s, w, op).workers[w], x);
    if op.Send? {
      TallyConcat(ByIndex(), s.replies, [s.workers[w].reply], x);
      TallyOne(ByIndex(), s.workers[w].reply, x);
    }
  }

  // ---------------------------------------------------------------- progress and exact length

  function WorkerLoad(w: Worker): nat {
    match w
    case Idle => 1
    case Busy(_) => 4
    case Replying(_) => 3
    case Exited => 0
  }

  function WorkerLoads(): Worker -> nat {
    w => WorkerLoad(w)
  }

  function StagesLeft(m: MainPc): nat {
    match m
    case Queueing => 2
    case Collecting => 1
    case Responding => 0
  }

  /** The number of steps still to be made. */
  function Left(c: Config, s: State): nat
    requires s.queued <= c.Items()
  {
    5 * (c.Items() - s.queued) + 4 * |s.work| + Sum(WorkerLoads(), s.workers) + |s.replies|
    + StagesLeft(s.main) + if s.closerDone then 0 else 1
  }

  lemma EachStepIsOneLess(c: Config, s: State, a: Action)
    requires Ordered(c, s) && Enabled(c, s, a)
    ensures Ordered(c, Step(c, s, a)) && Left(c, Step(c, s, a)) == Left(c, s) - 1
  {
    OrderedStep(c, s, a);
    if a.Work? {
      assert s.repliesClosed == 0 by { assert !s.workers[a.w].Exited?; }
      SumUpdate(WorkerLoads(), s.workers, a.w, WorkerStep(c, s, a.w, a.op).workers[a.w]);
    }
  }

  /** No send ever waits: both channels have room whenever somebody is about to send. */
  lemma SendsNeverBlock(c: Config, s: State)
    requires Ordered(c, s) && Sized(s)
    ensures s.main.Queueing? && s.queued < c.Items() ==> |s.work| < c.Items()
    ensures (exists w :: 0 <= w < |s.workers| && s.workers[w].Replying?) ==> |s.replies| < c.Items()
  {
    if w :| 0 <= w < |s.workers| && s.workers[w].Replying? {
      assert w in InHand(s.workers);
    }
  }

  /** No reachable state is stuck before the response: this step is enabled. */
  lemma Progress(c: Config, s: State) returns (a: Action)
    requires Ordered(c, s) && Sized(s) && Faithful(c, s) && !s.main.Responding?
    ensures Enabled(c, s, a)
  {
    SendsNeverBlock(c, s);
    if s.main.Queueing? {
      a := Main(if s.queued < c.Items() then Queue else CloseWork);
    } else if w :| 0 <= w < |s.workers| && !s.workers[w].Exited? {
      assert WorkerFaithful(c, s.workers[w]);
      match s.workers[w]
      case Idle => a := Work(w, if s.work != [] then Take else Exit);
      case Busy(_) => a := Work(w, Encrypt);
      case Replying(_) => a := Work(w, Send);
    } else if !s.closerDone {
      a := CloseReplies;
    } else {
      a := Main(if s.replies != [] then Collect else Finish);
    }
  }

  // ---------------------------------------------------------------- runs

  lemma {:induction false} RunKeeps(c: Config, s: State, actions: seq<Action>, t: State)
    requires Inv(c, s) && IsRun(c, s, actions, t)
    ensures Inv(c, t) && |actions| + Left(c, t) == Left(c, s)
    decreases |actions|
  {
    if actions != [] {
      EachStepIsOneLess(c, s, actions[0]);
      SizedStep(c, s, actions[0]);
      FaithfulStep(c, s, actions[0]);
      ConservedStep(c, s, actions[0]);
      RunKeeps(c, Step(c, s, actions[0]), actions[1..], t);
    }
  }

  /** Throughout every run: nothing panics, each channel is closed at most once, and no send waits. */
  lemma PoolIsSafe(c: Config, actions: seq<Action>, t: State)
    requires IsRun(c, Init(c), actions, t)
    ensures !t.panicked && t.workClosed <= 1 && t.repliesClosed <= 1
    ensures t.main.Queueing? && t.queued < |c.outcomes| ==> |t.work| < |c.outcomes|
    ensures (exists w :: 0 <= w < |t.workers| && t.workers[w].Replying?) ==> |t.replies| < |c.outcomes|
    ensures |t.workers| == (if |c.outcomes| < 50 then |c.outcomes| else 50)
    ensures |set w: nat | w < |t.workers| && (t.workers[w].Busy? || t.workers[w].Replying?)| <= 50
  {
    InitInv(c);
    RunKeeps(c, Init(c), actions, t);
    SendsNeverBlock(c, t);
    InHandBound(t.workers);
    assert InHand(t.workers) == set w: nat | w < |t.workers| && (t.workers[w].Busy? || t.workers[w].Replying?);
  }

  lemma {:induction false} InHandBound(ws: seq<Worker>)
    ensures |InHand(ws)| <= |ws|
  {
    if ws == [] {
      assert InHand(ws) == {};
    } else {
      var last := |ws| - 1;
      InHandBound(ws[..last]);
      assert InHand(ws) <= InHand(ws[..last]) + {last};
      assert InHand(ws) - {last} == InHand(ws[..last]);
    }
  }

  /**
    Whatever the interleaving, a run takes 5 steps an item, one a worker and 3 in all: none is longer,
    one that cannot go on has this length, and then the handler is responding.
   */
  lemma EveryRunEnds(c: Config, actions: seq<Action>, t: State)
    requires IsRun(c, Init(c), actions, t)
    ensures |actions| <= 5 * c.Items() + c.Workers() + 3
    ensures (forall a :: !Enabled(c, t, a)) <==> |actions| == 5 * c.Items() + c.Workers() + 3
    ensures (forall a :: !Enabled(c, t, a)) <==> t.main.Responding?
  {
    InitInv(c);
    RunKeeps(c, Init(c), actions, t);
    SumOfEqual(WorkerLoads(), Init(c).workers, 1);
    assert Left(c, Init(c)) == 5 * c.Items() + c.Workers() + 3;
    if a :| Enabled(c, t, a) {
      EachStepIsOneLess(c, t, a);
    }
    if t.main.Responding? {
      RespondingIsDone(c, t);
    } else {
      var a := Progress(c, t);
    }
  }

  lemma RespondingIsDone(c: Config, t: State)
    requires Inv(c, t) && t.main.Responding?
    ensures Left(c, t) == 0 && |t.collected| == c.Items()
  {
    SumOfEqual(WorkerLoads(), t.workers, 0);
    assert InHand(t.workers) == {};
    if t.workers == [] {
      assert c.Items() == 0;
    } else {
      assert t.workers[0].Exited?;
    }
  }

  /** Every reply is the outcome of the item it names, and every item is named by exactly one reply. */
  ghost predicate IsReordering(outcomes: seq<Outcome>, replies: seq<Reply>) {
    && (forall k :: 0 <= k < |replies| ==>
          replies[k].index < |outcomes| && replies[k].outcome == outcomes[replies[k].index])
    && (forall i: nat :: i < |outcomes| ==> Tally(ByIndex(), replies, i) == 1)
  }

  /** However the workers were scheduled, what the handler collects is a reordering of the items' outcomes. */
  lemma CollectedIsReordering(c: Config, actions: seq<Action>, t: State)
    requires IsRun(c, Init(c), actions, t) && t.main.Responding?
    ensures IsReordering(c.outcomes, t.collected) && |t.collected| == c.Items()
  {
    InitInv(c);
    RunKeeps(c, Init(c), actions, t);
    RespondingIsDone(c, t);
    forall k | 0 <= k < |t.collected|
      ensures t.collected[k].index < |c.outcomes| && t.collected[k].outcome == c.outcomes[t.collected[k].index]
    {
      assert IsAnswer(c, t.collected[k]);
    }
    forall i: nat | i < |c.outcomes| ensures Tally(ByIndex(), t.collected, i) == 1 {
      assert Count(t, i) == 1;
      assert Holders(t.workers, i) == {};
      assert t.work == [] by { if t.workers != [] { assert t.workers[0].Exited?; } }
    }
  }
}
