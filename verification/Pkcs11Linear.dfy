/**
  Interleaved calls are answered as if they had been made one after another: in the order in which they
  release the provider, each finds the session as its predecessor left it, and its answer and effect are
  those of one undisturbed Encrypt or Decrypt.
 */
module Pkcs11Linear {
  import opened Basics
  import opened Aead
  import opened Pkcs11Provider
  import opened Pkcs11Locks

  /** What the provider's method ensures of a call made on its own. */
  predicate CallOutcome(
      call: Call, before: Operation, after: Operation, device: Device, random: Option<Nonce>, answer: Answer)
  {
    match call.kind
    case Encryption => answer.Encrypted? && EncryptOutcome(before, after, call.input, random, device, answer.e)
    case Decryption => answer.Decrypted? && DecryptOutcome(before, after, call.input, call.nonce, device, answer.d)
  }

  /** The session as the calls in the log leave it. */
  function Last(log: seq<Entry>): Operation {
    if log == [] then Unused else log[|log| - 1].after
  }

  /** The log is a sequential history, starting with an unused session. */
  ghost predicate Sequential(calls: seq<Call>, log: seq<Entry>) {
    forall k :: 0 <= k < |log| ==>
      && log[k].i < |calls| && log[k].before == Last(log[..k])
      && CallOutcome(calls[log[k].i], log[k].before, log[k].after, log[k].device, log[k].random, log[k].answer)
  }

  function AnswerOf(caller: Caller): Option<Answer> {
    match caller
    case Leaving(a) => Some(a)
    case Done(a) => Some(a)
    case _ => None
  }

  /** The answered calls are those in the log, each once and with the answer it has there. */
  ghost predicate Complete(callers: seq<Caller>, log: seq<Entry>) {
    && (forall k :: 0 <= k < |log| ==> log[k].i < |callers| && AnswerOf(callers[log[k].i]) == Some(log[k].answer))
    && (forall k, l :: 0 <= k < l < |log| ==> log[k].i != log[l].i)
    && (forall j :: 0 <= j < |callers| && AnswerOf(callers[j]).Some? ==> exists k :: 0 <= k < |log| && log[k].i == j)
  }

  /** How far the lock holder's call has got, and what it has done to the session. */
  ghost predicate Halfway(call: Call, caller: Caller, entered: Operation, active: Operation) {
    match caller
    case Locked => active == entered
    case Searching => entered.Unused? && active == Search
    case Searched(_) => entered.Unused? && active == Search
    case Ready(keys, ended) => entered.Unused? && keys != [] && active == AfterEnd(Search, ended)
    case Operating(keys, nonce) =>
      && entered.Unused? && keys != [] && active == Crypto(call.kind)
      && (if call.kind.Encryption? then |nonce| == NONCE_SIZE else nonce == call.nonce)
    case Unlocking(device, random, answer) => CallOutcome(call, entered, active, device, random, answer)
    case _ => true
  }

  ghost predicate Accounted(calls: seq<Call>, s: State)
    requires |s.callers| == |calls|
  {
    match s.inner
    case None => s.active == Last(s.log)
    case Some(i) => s.entered == Last(s.log) && i < |calls| && Halfway(calls[i], s.callers[i], s.entered, s.active)
  }

  ghost predicate Inv(calls: seq<Call>, s: State) {
    Exclusive(calls, s) && Accounted(calls, s) && Sequential(calls, s.log) && Complete(s.callers, s.log)
  }

  /** The steps between taking and releasing the provider. */
  predicate Inside(op: Op) {
    !op.LockManager? && !op.LockProvider? && !op.UnlockProvider? && !op.UnlockManager?
  }

  lemma HalfwayStep(calls: seq<Call>, s: State, a: Action)
    requires Enabled(calls, s, a) && Inside(a.op) && Halfway(calls[a.i], s.callers[a.i], s.entered, s.active)
    ensures var t := Step(calls, s, a);
            a.i < |t.callers| && Halfway(calls[a.i], t.callers[a.i], t.entered, t.active)
  {
  }

  lemma InsideLeavesLog(calls: seq<Call>, s: State, a: Action)
    requires Enabled(calls, s, a) && Inside(a.op)
    ensures var t := Step(calls, s, a);
            && t.log == s.log && t.entered == s.entered && t.inner == s.inner && |t.callers| == |s.callers|
            && t.callers == s.callers[a.i := t.callers[a.i]]
            && AnswerOf(t.callers[a.i]).None? && AnswerOf(s.callers[a.i]).None?
  {
  }

  /** A call whose answer is not yet out can change what it is doing. */
  lemma MoveIsComplete(callers: seq<Caller>, log: seq<Entry>, i: nat, caller: Caller)
    requires Complete(callers, log) && i < |callers|
    requires AnswerOf(caller) == AnswerOf(callers[i])
    ensures Complete(callers[i := caller], log)
  {
    var after := callers[i := caller];
    forall j | 0 <= j < |after| && AnswerOf(after[j]).Some?
      ensures exists k :: 0 <= k < |log| && log[k].i == j
    {
      assert AnswerOf(callers[j]).Some?;
    }
  }

  lemma ReleaseIsComplete(callers: seq<Caller>, log: seq<Entry>, caller: Caller, e: Entry)
    requires Complete(callers, log) && e.i < |callers|
    requires AnswerOf(callers[e.i]).None? && AnswerOf(caller) == Some(e.answer)
    ensures Complete(callers[e.i := caller], log + [e])
  {
    var after, more := callers[e.i := caller], log + [e];
    forall k | 0 <= k < |log| ensures log[k].i != e.i {
      assert AnswerOf(callers[log[k].i]).Some?;
    }
    forall j | 0 <= j < |after| && AnswerOf(after[j]).Some? ensures exists k :: 0 <= k < |more| && more[k].i == j {
      if j == e.i {
        assert more[|log|].i == j;
      } else {
        var k :| 0 <= k < |log| && log[k].i == j;
        assert more[k].i == j;
      }
    }
  }

  lemma OneMoreEntry(calls: seq<Call>, log: seq<Entry>, e: Entry)
    requires Sequential(calls, log) && e.i < |calls| && e.before == Last(log)
    requires CallOutcome(calls[e.i], e.before, e.after, e.device, e.random, e.answer)
    ensures Sequential(calls, log + [e])
  {
    var more := log + [e];
    forall k | 0 <= k < |more|
      ensures more[k].i < |calls| && more[k].before == Last(more[..k])
      ensures CallOutcome(calls[more[k].i], more[k].before, more[k].after, more[k].device, more[k].random,
                          more[k].answer)
    {
      assert more[..k] == log[..k];
      assert log[..|log|] == log;
    }
  }

  lemma InitInv(calls: seq<Call>)
    ensures Inv(calls, Init(calls))
  {
    InitExclusive(calls);
  }

  lemma StepKeeps(calls: seq<Call>, s: State, a: Action)
    requires Inv(calls, s) && Enabled(calls, s, a)
    ensures Inv(calls, Step(calls, s, a))
  {
    ExclusiveStep(calls, s, a);
    if Inside(a.op) {
      InsideKeeps(calls, s, a);
    } else {
      match a.op
      case LockManager => LockManagerKeeps(calls, s, a);
      case LockProvider => LockProviderKeeps(calls, s, a);
      case UnlockProvider => ReleaseKeeps(calls, s, a);
      case UnlockManager => LeaveKeeps(calls, s, a);
    }
  }

  lemma InsideKeeps(calls: seq<Call>, s: State, a: Action)
    requires Inv(calls, s) && Enabled(calls, s, a) && Inside(a.op) && Exclusive(calls, Step(calls, s, a))
    ensures Inv(calls, Step(calls, s, a))
  {
    assert HasProvider(s.callers[a.i]);
    HalfwayStep(calls, s, a);
    InsideLeavesLog(calls, s, a);
    MoveIsComplete(s.callers, s.log, a.i, Step(calls, s, a).callers[a.i]);
  }

  lemma LockManagerKeeps(calls: seq<Call>, s: State, a: Action)
    requires Inv(calls, s) && Enabled(calls, s, a) && a.op == LockManager && Exclusive(calls, Step(calls, s, a))
    ensures Inv(calls, Step(calls, s, a))
  {
    MoveIsComplete(s.callers, s.log, a.i, Managed);
    assert s.inner != Some(a.i);
  }

  lemma LockProviderKeeps(calls: seq<Call>, s: State, a: Action)
    requires Inv(calls, s) && Enabled(calls, s, a) && a.op == LockProvider && Exclusive(calls, Step(calls, s, a))
    ensures Inv(calls, Step(calls, s, a))
  {
    MoveIsComplete(s.callers, s.log, a.i, Locked);
  }

  lemma LeaveKeeps(calls: seq<Call>, s: State, a: Action)
    requires Inv(calls, s) && Enabled(calls, s, a) && a.op == UnlockManager && Exclusive(calls, Step(calls, s, a))
    ensures Inv(calls, Step(calls, s, a))
  {
    MoveIsComplete(s.callers, s.log, a.i, Done(s.callers[a.i].answer));
    assert s.inner != Some(a.i);
  }

  lemma ReleaseKeeps(calls: seq<Call>, s: State, a: Action)
    requires Inv(calls, s) && Enabled(calls, s, a) && a.op == UnlockProvider && Exclusive(calls, Step(calls, s, a))
    ensures Inv(calls, Step(calls, s, a))
  {
    var caller := s.callers[a.i];
    assert HasProvider(caller);
    var e := Entry(a.i, s.entered, s.active, caller.device, caller.random, caller.result);
    ReleaseIsComplete(s.callers, s.log, Step(calls, s, a).callers[a.i], e);
    OneMoreEntry(calls, s.log, e);
  }

  lemma {:induction false} RunKeepsInv(calls: seq<Call>, s: State, actions: seq<Action>, t: State)
    requires Inv(calls, s) && IsRun(calls, s, actions, t)
    ensures Inv(calls, t)
    decreases |actions|
  {
    if actions != [] {
      StepKeeps(calls, s, actions[0]);
      RunKeepsInv(calls, Step(calls, s, actions[0]), actions[1..], t);
    }
  }

  /**
    At every moment of every run the answered calls form a sequential history: each was answered, and
    changed the session, as the provider's method does on its own, from where the one before it left the
    session; and while nobody holds the provider the session is as the last one left it.
   */
  lemma Linearised(calls: seq<Call>, actions: seq<Action>, t: State)
    requires IsRun(calls, Pkcs11Locks.Init(calls), actions, t)
    ensures Sequential(calls, t.log) && Complete(t.callers, t.log)
    ensures t.inner.None? ==> t.active == Last(t.log)
  {
    InitInv(calls);
    RunKeepsInv(calls, Pkcs11Locks.Init(calls), actions, t);
  }

  // ---------------------------------------------------------------- every single call has its run

  /** Caller i, holding the provider, has become `caller`; nothing else but the session has changed. */
  ghost predicate Alone(s: State, i: nat, caller: Caller, active: Operation, t: State) {
    && i < |s.callers| && t.callers == s.callers[i := caller] && t.active == active
    && t.log == s.log && t.entered == s.entered && t.inner == s.inner && t.outer == s.outer
  }

  /** The call of caller i with this device and nonce has come to its end, as the provider's method ensures. */
  ghost predicate Realised(
      calls: seq<Call>, s: State, i: nat, before: Operation, device: Device, random: Option<Nonce>, t: State)
  {
    && i < |calls| && i < |t.callers| && t.callers[i].Unlocking?
    && CallOutcome(calls[i], before, t.active, device, random, t.callers[i].result)
    && Alone(s, i, t.callers[i], t.active, t)
  }

  lemma Prepend(calls: seq<Call>, s: State, a: Action, actions: seq<Action>, t: State)
    requires Enabled(calls, s, a) && IsRun(calls, Step(calls, s, a), actions, t)
    ensures IsRun(calls, s, [a] + actions, t)
  {
    assert ([a] + actions)[1..] == actions;
  }

  lemma RealiseOperating(calls: seq<Call>, s: State, i: nat, device: Device, random: Option<Nonce>)
      returns (actions: seq<Action>, t: State)
    requires i < |s.callers| && i < |calls| && s.callers[i].Operating? && s.active == Crypto(calls[i].kind)
    requires device.FindsKey() && device.searchEnds && device.mechanismAccepted
    requires calls[i].kind.Encryption? ==> random.Some?
    requires s.callers[i].nonce == if calls[i].kind.Encryption? then random.value else calls[i].nonce
    ensures IsRun(calls, s, actions, t) && Realised(calls, s, i, Unused, device, random, t)
  {
    var output := device.compute(calls[i].kind, device.found.value[0], s.callers[i].nonce, calls[i].input);
    var a := Act(i, Execute(output, device.operationEnds));
    t := Step(calls, s, a);
    Prepend(calls, s, a, [], t);
    actions := [a] + [];
  }

  lemma RealiseReady(calls: seq<Call>, s: State, i: nat, device: Device, random: Option<Nonce>)
      returns (actions: seq<Action>, t: State)
    requires i < |s.callers| && i < |calls| && s.callers[i].Ready? && s.active == AfterEnd(Search, device.searchEnds)
    requires device.FindsKey()
    ensures IsRun(calls, s, actions, t) && Realised(calls, s, i, Unused, device, random, t)
  {
    if calls[i].kind.Encryption? && random.None? {
      t := Step(calls, s, Act(i, LackNonce));
      Prepend(calls, s, Act(i, LackNonce), [], t);
      actions := [Act(i, LackNonce)] + [];
    } else {
      var n: Nonce := if random.Some? then random.value else seq(NONCE_SIZE, _ => 0);
      var a := Act(i, CryptoInit(n, device.mechanismAccepted));
      t := Step(calls, s, a);
      actions := [];
      if t.callers[i].Operating? {
        actions, t := RealiseOperating(calls, t, i, device, random);
      }
      Prepend(calls, s, a, actions, t);
      actions := [a] + actions;
    }
  }

  lemma RealiseSearching(calls: seq<Call>, s: State, i: nat, device: Device, random: Option<Nonce>)
      returns (actions: seq<Action>, t: State)
    requires i < |s.callers| && i < |calls| && s.callers[i].Searching? && s.active == Search && device.searchStarts
    ensures IsRun(calls, s, actions, t) && Realised(calls, s, i, Unused, device, random, t)
  {
    var a, b := Act(i, FindObjects(device.found)), Act(i, FindObjectsFinal(device.searchEnds));
    var u := Step(calls, s, a);
    t := Step(calls, u, b);
    actions := [];
    if t.callers[i].Ready? {
      actions, t := RealiseReady(calls, t, i, device, random);
    }
    Prepend(calls, u, b, actions, t);
    Prepend(calls, s, a, [b] + actions, t);
    actions := [a] + ([b] + actions);
  }

  /**
    The other direction: whatever the device decides and whether or not there is a nonce, a call that has
    taken the provider can come to the end the provider's method ensures for these decisions.
   */
  lemma EveryCallIsRealised(calls: seq<Call>, s: State, i: nat, device: Device, random: Option<Nonce>)
      returns (actions: seq<Action>, t: State)
    requires i < |s.callers| && i < |calls| && s.callers[i].Locked?
    ensures IsRun(calls, s, actions, t) && i < |t.callers| && t.callers[i].Unlocking?
    ensures CallOutcome(calls[i], s.active, t.active, device, random, t.callers[i].result)
    ensures t.callers == s.callers[i := t.callers[i]] && t.log == s.log && t.inner == s.inner
  {
    var a := Act(i, FindObjectsInit(device.searchStarts));
    t := Step(calls, s, a);
    actions := [];
    if t.callers[i].Searching? {
      actions, t := RealiseSearching(calls, t, i, device, random);
    }
    Prepend(calls, s, a, actions, t);
    actions := [a] + actions;
  }
}
