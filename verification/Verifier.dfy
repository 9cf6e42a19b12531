/**
  verifyAllDataWithContext as a labelled transition system, from the moment both tables have been
  read. Main walks the source records and starts one outer goroutine per stored record, at most
  `slots` at a time; each outer goroutine starts an inner one that does the checking and waits for it or
  for its deadline; a collector appends results; a closer closes the results channel. Two safety
  timers may fire: the collector's and the closer's.
 */
module Verifier {
  import opened Basics
  import opened Aead
  import opened Records
  import opened Verification

  /** originals are the scannable source rows, stored the destination rows by source id. */
  datatype Config = Config(originals: seq<Card>, stored: map<int, EncryptedRecord>, workers: nat, key: Cipher) {
    /** The verifier caps its worker count at 10. */
    function Slots(): nat {
      if workers > 10 then 10 else workers
    }

    function Capacity(): nat {
      2 * |originals|
    }
  }

  datatype MainPc =
    | Loop(i: nat)                              // top of the loop, about to look at the context
    | Dispatch(i: nat)                          // context was live
    | Acquire(i: nat)                           // wg.Add done, waiting for a slot
    | CancelWait(i: nat)                        // saw the cancellation, in wg.Wait
    | Drain(i: nat)                             // closed the channel, ranging over it
    | DrainHold(i: nat, v: VerificationRecord)  // received, not yet appended
    | CancelReturned(i: nat)
    | Await                                     // waiting for collectionDone
    | Returned

  datatype Outer = NotSpawned | Waiting | Sending(v: VerificationRecord) | Releasing | Finishing | Finished

  datatype Inner = Off | Running | Reported(v: VerificationRecord) | Delivered

  datatype Collector = Ready | Holding(v: VerificationRecord) | Done

  datatype Closer = Absent | Armed | Closed

  /**
    returned is the slice main handed back. gaveUp and cutShort are histories: the collector's timer
    fired; the closer's timer fired while some result was still to be sent.
   */
  datatype State = State(
    cancelled: bool, main: MainPc,
    outers: seq<Outer>, inners: seq<Inner>,
    chan: seq<VerificationRecord>, closes: nat,
    sem: nat, wg: nat,
    collector: Collector, signalled: bool,
    closer: Closer,
    results: seq<VerificationRecord>, returned: Option<seq<VerificationRecord>>,
    gaveUp: bool, cutShort: bool, panicked: bool)

  datatype MainOp =
    | LookAtContext | SendMissing | AddToGroup | Spawn | StartCloser
    | CloseAfterCancel | DrainTake | DrainAppend | ReturnCancelled | ReturnComplete

  datatype OuterOp = TakeReport | TimeOut | SendResult | ReleaseSlot | LeaveGroup

  datatype CollectorOp = Receive | Append | SeeClosed | WaitTooLong

  datatype CloserOp = CloseWhenDone | ForceClose

  datatype Action =
    | Cancel
    | Main(m: MainOp)
    | Outer(i: nat, o: OuterOp)
    | Inner(j: nat, panAnswered: bool, cvvAnswered: bool)
    | Collect(k: CollectorOp)
    | Close(z: CloserOp)

  function Init(c: Config): State {
    var n := |c.originals|;
    State(false, Loop(0), seq(n, _ => NotSpawned), seq(n, _ => Off), [], 0, 0, 0, Ready, false, Absent,
          [], None, false, false, false)
  }

  /** The source records main has disposed of: sent as missing or handed to a goroutine. */
  function Position(c: Config, m: MainPc): nat {
    match m
    case Loop(i) => i
    case Dispatch(i) => i
    case Acquire(i) => i
    case CancelWait(i) => i
    case Drain(i) => i
    case DrainHold(i, _) => i
    case CancelReturned(i) => i
    case Await => |c.originals|
    case Returned => |c.originals|
  }

  predicate OwesResult(o: Outer) { o.Waiting? || o.Sending? }

  predicate HoldsSlot(o: Outer) { OwesResult(o) || o.Releasing? }

  predicate InGroup(o: Outer) { HoldsSlot(o) || o.Finishing? }

  ghost function Owing(outers: seq<Outer>): set<nat> { set i: nat | i < |outers| && OwesResult(outers[i]) }

  ghost function SlotHolders(outers: seq<Outer>): set<nat> { set i: nat | i < |outers| && HoldsSlot(outers[i]) }

  ghost function Group(outers: seq<Outer>): set<nat> { set i: nat | i < |outers| && InGroup(outers[i]) }

  // Sending on the results channel: it blocks while full, and panics when closed.

  predicate CanSend(c: Config, s: State) {
    s.closes > 0 || |s.chan| < c.Capacity()
  }

  function CloseChannel(s: State): State {
    if s.closes > 0 then s.(panicked := true) else s.(closes := s.closes + 1)
  }

  // Main.

  predicate MainEnabled(c: Config, s: State, m: MainOp) {
    match m
    case LookAtContext => s.main.Loop? && s.main.i < |c.originals|
    case SendMissing =>
      s.main.Dispatch? && s.main.i < |c.originals| && c.originals[s.main.i].id !in c.stored && CanSend(c, s)
    case AddToGroup => s.main.Dispatch? && s.main.i < |c.originals| && c.originals[s.main.i].id in c.stored
    case Spawn =>
      s.main.Acquire? && s.main.i < |s.outers| && s.main.i < |s.inners| && s.sem < c.Slots()
    case StartCloser => s.main.Loop? && s.main.i >= |c.originals|
    case CloseAfterCancel => s.main.CancelWait? && s.wg == 0
    case DrainTake => s.main.Drain? && s.chan != []
    case DrainAppend => s.main.DrainHold?
    case ReturnCancelled => s.main.Drain? && s.chan == [] && s.closes > 0
    case ReturnComplete => s.main.Await? && s.signalled
  }

  function MainStep(c: Config, s: State, m: MainOp): State
    requires MainEnabled(c, s, m)
  {
    match m
    case LookAtContext => s.(main := if s.cancelled then CancelWait(s.main.i) else Dispatch(s.main.i))
    case SendMissing =>
      if s.closes > 0 then s.(panicked := true)
      else s.(chan := s.chan + [Failed(c.originals[s.main.i], NotFound)], main := Loop(s.main.i + 1))
    case AddToGroup => s.(wg := s.wg + 1, main := Acquire(s.main.i))
    case Spawn =>
      var i := s.main.i;
      s.(sem := s.sem + 1, outers := s.outers[i := Waiting], inners := s.inners[i := Running], main := Loop(i + 1))
    case StartCloser => s.(closer := Armed, main := Await)
    case CloseAfterCancel => CloseChannel(s).(main := Drain(s.main.i))
    case DrainTake => s.(chan := s.chan[1..], main := DrainHold(s.main.i, s.chan[0]))
    case DrainAppend => s.(results := s.results + [s.main.v], main := Drain(s.main.i))
    case ReturnCancelled => s.(main := CancelReturned(s.main.i), returned := Some(s.results))
    case ReturnComplete => s.(main := Returned, returned := Some(s.results))
  }

  // Outer goroutines, one per record; their deferred calls run in the order slot, wait group.

  predicate OuterEnabled(c: Config, s: State, i: nat, o: OuterOp) {
    i < |s.outers| && i < |s.inners| && i < |c.originals| &&
    match o
    case TakeReport => s.outers[i].Waiting? && s.inners[i].Reported?
    case TimeOut => s.outers[i].Waiting?
    case SendResult => s.outers[i].Sending? && CanSend(c, s)
    case ReleaseSlot => s.outers[i].Releasing? && s.sem > 0
    case LeaveGroup => s.outers[i].Finishing? && s.wg > 0
  }

  function OuterStep(c: Config, s: State, i: nat, o: OuterOp): State
    requires OuterEnabled(c, s, i, o)
  {
    match o
    case TakeReport => s.(outers := s.outers[i := Sending(s.inners[i].v)], inners := s.inners[i := Delivered])
    case TimeOut => s.(outers := s.outers[i := Sending(Failed(c.originals[i], TimedOut))])
    case SendResult =>
      if s.closes > 0 then s.(panicked := true)
      else s.(chan := s.chan + [s.outers[i].v], outers := s.outers[i := Releasing])
    case ReleaseSlot => s.(sem := s.sem - 1, outers := s.outers[i := Finishing])
    case LeaveGroup => s.(wg := s.wg - 1, outers := s.outers[i := Finished])
  }

  // Inner goroutines. Their report goes into a channel of their own with room for it.

  predicate InnerEnabled(c: Config, s: State, i: nat) {
    i < |s.inners| && i < |c.originals| && s.inners[i].Running? && c.originals[i].id in c.stored
  }

  function InnerStep(c: Config, s: State, i: nat, panAnswered: bool, cvvAnswered: bool): State
    requires InnerEnabled(c, s, i)
  {
    var card := c.originals[i];
    s.(inners := s.inners[i := Reported(VerifyRecord(c.key, card, c.stored[card.id], panAnswered, cvvAnswered))])
  }

  // Collector.

  predicate CollectorEnabled(s: State, k: CollectorOp) {
    match k
    case Receive => s.collector.Ready? && s.chan != []
    case Append => s.collector.Holding?
    case SeeClosed => s.collector.Ready? && s.chan == [] && s.closes > 0
    case WaitTooLong => s.collector.Ready?
  }

  function CollectorStep(c: Config, s: State, k: CollectorOp): State
    requires CollectorEnabled(s, k)
  {
    match k
    case Receive => s.(collector := Holding(s.chan[0]), chan := s.chan[1..])
    case Append =>
      var t := s.(results := s.results + [s.collector.v]);
      if |t.results| >= |c.originals| then t.(collector := Done, signalled := true) else t.(collector := Ready)
    case SeeClosed => s.(collector := Done, signalled := true)
    case WaitTooLong => s.(collector := Done, signalled := true, gaveUp := true)
  }

  // Closer.

  predicate CloserEnabled(s: State, z: CloserOp) {
    match z
    case CloseWhenDone => s.closer.Armed? && s.wg == 0
    case ForceClose => s.closer.Armed?
  }

  ghost function CloserStep(s: State, z: CloserOp): State
    requires CloserEnabled(s, z)
  {
    match z
    case CloseWhenDone => CloseChannel(s).(closer := Closed)
    case ForceClose => CloseChannel(s).(closer := Closed, cutShort := s.cutShort || Owing(s.outers) != {})
  }

  ghost predicate Enabled(c: Config, s: State, a: Action) {
    && !s.panicked
    && match a
       case Cancel => !s.cancelled
       case Main(m) => MainEnabled(c, s, m)
       case Outer(i, o) => OuterEnabled(c, s, i, o)
       case Inner(i, _, _) => InnerEnabled(c, s, i)
       case Collect(k) => CollectorEnabled(s, k)
       case Close(z) => CloserEnabled(s, z)
  }

  ghost function Step(c: Config, s: State, a: Action): State
    requires Enabled(c, s, a)
  {
    match a
    case Cancel => s.(cancelled := true)
    case Main(m) => MainStep(c, s, m)
    case Outer(i, o) => OuterStep(c, s, i, o)
    case Inner(i, p, q) => InnerStep(c, s, i, p, q)
    case Collect(k) => CollectorStep(c, s, k)
    case Close(z) => CloserStep(s, z)
  }

  ghost predicate IsRun(c: Config, s: State, actions: seq<Action>, t: State)
    decreases |actions|
  {
    if actions == [] then s == t
    else Enabled(c, s, actions[0]) && IsRun(c, Step(c, s, actions[0]), actions[1..], t)
  }

  // ---------------------------------------------------------------- invariants

  predicate OnCancelPath(m: MainPc) {
    m.CancelWait? || AfterCancelClose(m)
  }

  predicate AfterCancelClose(m: MainPc) {
    m.Drain? || m.DrainHold? || m.CancelReturned?
  }

  predicate PastLoop(m: MainPc) {
    m.Await? || m.Returned?
  }

  /** Goroutines exist exactly for records main has passed, and only for records that are stored. */
  ghost predicate Roster(c: Config, position: nat, outers: seq<Outer>, inners: seq<Inner>) {
    && |outers| == |inners| == |c.originals|
    && (forall i :: position <= i < |outers| ==> outers[i].NotSpawned?)
    && (forall i :: 0 <= i < |outers| && outers[i].NotSpawned? ==> inners[i].Off?)
    && (forall i :: 0 <= i < |outers| && !outers[i].NotSpawned? ==> c.originals[i].id in c.stored)
    && (forall i :: 0 <= i < |outers| && outers[i].Waiting? ==> inners[i].Running? || inners[i].Reported?)
  }

  /** Who may still start, who closes the channel, and when main may have returned. */
  ghost predicate Ordered(c: Config, s: State) {
    Staged(c, s) && Roster(c, Position(c, s.main), s.outers, s.inners)
  }

  ghost predicate Staged(c: Config, s: State) {
    && Position(c, s.main) <= |c.originals|
    && (!s.main.Loop? && !PastLoop(s.main) ==> s.main.i < |c.originals|)
    && (s.main.Acquire? ==> c.originals[s.main.i].id in c.stored)
    && (PastLoop(s.main) <==> !s.closer.Absent?)
    && s.closes == (if AfterCancelClose(s.main) || s.closer.Closed? then 1 else 0)
    && (s.signalled <==> s.collector.Done?)
    && (s.returned.Some? <==> s.main.CancelReturned? || s.main.Returned?)
    && (s.panicked ==> s.cutShort)
    && (s.cutShort ==> s.closer.Closed?)
    && (s.main.Returned? ==> s.signalled)
  }

  function Hand(k: Collector): nat { if k.Holding? then 1 else 0 }

  function DrainHand(m: MainPc): nat { if m.DrainHold? then 1 else 0 }

  /** Every disposed record has exactly one result in the making, in the channel, in a hand or appended. */
  ghost predicate Sized(c: Config, s: State) {
    SlotsCounted(c, s) && GroupCounted(s) && ResultsCounted(c, s)
  }

  ghost predicate SlotsCounted(c: Config, s: State) {
    s.sem == |SlotHolders(s.outers)| && s.sem <= c.Slots()
  }

  ghost predicate GroupCounted(s: State) {
    s.wg == |Group(s.outers)| + (if s.main.Acquire? then 1 else 0)
  }

  ghost predicate ResultsCounted(c: Config, s: State) {
    |Owing(s.outers)| + |s.chan| + Hand(s.collector) + DrainHand(s.main) + |s.results| == Position(c, s.main)
  }

  /** The channel is only closed when nobody will send, unless the closer was forced too early. */
  ghost predicate ClosedQuietly(s: State) {
    && (AfterCancelClose(s.main) ==> s.wg == 0)
    && (s.closer.Closed? && !s.cutShort ==> Owing(s.outers) == {})
  }

  /** What has been signalled or returned so far. */
  ghost predicate Settled(c: Config, s: State) {
    && (s.collector.Done? && !s.gaveUp && !s.cutShort && !OnCancelPath(s.main) ==> |s.results| == |c.originals|)
    && (s.main.Returned? && !s.gaveUp && !s.cutShort ==> s.returned == Some(s.results))
    && (s.main.CancelReturned? ==> ReturnedAllButOne(s, s.main.i))
  }

  /** After a cancelled return: at most the result then in the collector's hand is missing. */
  ghost predicate ReturnedAllButOne(s: State, i: nat) {
    && s.returned.Some? && s.chan == []
    && s.returned.value <= s.results
    && i <= |s.returned.value| + 1
    && (s.collector.Holding? ==> s.returned.value == s.results)
  }
}
