/**
  Any number of concurrent Encrypt and Decrypt calls over one PKCS#11 session, as a labelled transition
  system. Calls through the HSM manager take its lock and then the provider's; the health check calls
  the provider directly and takes the provider's lock only.
 */
module Pkcs11Locks {
  import opened Basics
  import opened Aead
  import opened Sequences
  import opened Pkcs11Provider

  /** One call: input is the plaintext or the ciphertext; nonce matters for decryption only. */
  datatype Call = Call(kind: Kind, direct: bool, input: Bytes, nonce: Bytes)

  datatype Answer = Encrypted(e: Result<Sealed, HsmError>) | Decrypted(d: Result<Bytes, HsmError>)

  /** Where a call stands, and what it knows there. Ready is a found key, not yet used. */
  datatype Caller =
    | Outside
    | Managed
    | Locked
    | Searching
    | Searched(found: Option<seq<Handle>>)
    | Ready(keys: seq<Handle>, searchEnded: bool)
    | Operating(key: seq<Handle>, nonce: Bytes)
    | Unlocking(device: Device, random: Option<Nonce>, result: Answer)
    | Leaving(answer: Answer)
    | Done(answered: Answer)

  /** A call that has released the provider: the session before and after it, and how it was answered. */
  datatype Entry = Entry(
    i: nat, before: Operation, after: Operation, device: Device, random: Option<Nonce>, answer: Answer)

  /**
    outer and inner name the call that holds the manager's and the provider's lock; refusals counts the
    Init calls that met an active operation. entered (the session as the holder found it) and log (the
    calls in the order in which they released the provider) are histories.
   */
  datatype State = State(
    callers: seq<Caller>, outer: Option<nat>, inner: Option<nat>, active: Operation, refusals: nat,
    entered: Operation, log: seq<Entry>)

  datatype Op =
    | LockManager
    | LockProvider
    | FindObjectsInit(willing: bool)
    | FindObjects(found: Option<seq<Handle>>)
    | FindObjectsFinal(ends: bool)
    | LackNonce
    | CryptoInit(random: Nonce, willing: bool)
    | Execute(output: Option<Bytes>, ends: bool)
    | UnlockProvider
    | UnlockManager

  datatype Action = Act(i: nat, op: Op)

  function Init(calls: seq<Call>): State {
    State(seq(|calls|, _ => Outside), None, None, Unused, 0, Unused, [])
  }

  predicate Enabled(calls: seq<Call>, s: State, a: Action) {
    a.i < |s.callers| && a.i < |calls| &&
    var call, caller := calls[a.i], s.callers[a.i];
    match a.op
    case LockManager => caller.Outside? && !call.direct && s.outer.None?
    case LockProvider => (if call.direct then caller.Outside? else caller.Managed?) && s.inner.None?
    case FindObjectsInit(_) => caller.Locked?
    case FindObjects(_) => caller.Searching?
    case FindObjectsFinal(_) => caller.Searched?
    case LackNonce => caller.Ready? && call.kind.Encryption?
    case CryptoInit(_, _) => caller.Ready?
    case Execute(_, _) => caller.Operating?
    case UnlockProvider => caller.Unlocking?
    case UnlockManager => caller.Leaving?
  }

  function Step(calls: seq<Call>, s: State, a: Action): State
    requires Enabled(calls, s, a)
  {
    var i, call, caller := a.i, calls[a.i], s.callers[a.i];
    match a.op
    case LockManager => Move(s, i, Managed).(outer := Some(i))
    case LockProvider => Move(s, i, Locked).(inner := Some(i), entered := s.active)
    case FindObjectsInit(willing) =>
      TryInit(s, i, Search, willing, Searching, GiveUp(call, NoSearch(willing), None, SearchNotStarted))
    case FindObjects(found) => Move(s, i, Searched(found))
    case FindObjectsFinal(ends) =>
      Move(s, i, AfterSearch(call, caller.found, ends))
      .(active := if s.active.Search? then AfterEnd(s.active, ends) else s.active)
    case LackNonce =>
      Move(s, i, GiveUp(call, NoCrypto(caller.keys, caller.searchEnded, true), None, HsmError.NoRandomness))
    case CryptoInit(random, willing) =>
      TryInit(s, i, Crypto(call.kind), willing, Operating(caller.keys, NonceOf(call, random)),
              GiveUp(call, NoCrypto(caller.keys, caller.searchEnded, willing), Some(random), InitFailed))
    case Execute(output, ends) =>
      Move(s, i, Computed(call, caller.key, caller.nonce, output, ends)).(active := AfterEnd(s.active, ends))
    case UnlockProvider =>
      Move(s, i, if call.direct then Done(caller.result) else Leaving(caller.result))
      .(inner := None, log := s.log + [Entry(i, s.entered, s.active, caller.device, caller.random, caller.result)])
    case UnlockManager => Move(s, i, Done(caller.answer)).(outer := None)
  }

  function Move(s: State, i: nat, caller: Caller): State
    requires i < |s.callers|
  {
    s.(callers := s.callers[i := caller])
  }

  /** An Init call: on to `next` when it succeeds, otherwise on the way out. */
  function TryInit(s: State, i: nat, wanted: Operation, willing: bool, next: Caller, otherwise: Caller): State
    requires i < |s.callers|
  {
    Move(s, i, if s.active.Unused? && willing then next else otherwise)
    .(active := AfterInit(s.active, wanted, willing), refusals := s.refusals + if s.active.Unused? then 0 else 1)
  }

  /** Encryption draws a nonce, decryption is given one. */
  function NonceOf(call: Call, random: Nonce): Bytes {
    if call.kind.Encryption? then random else call.nonce
  }

  function AnswerError(call: Call, e: HsmError): Answer {
    if call.kind.Encryption? then Encrypted(Err(e)) else Decrypted(Err(e))
  }

  function GiveUp(call: Call, device: Device, random: Option<Nonce>, e: HsmError): Caller {
    Unlocking(device, random, AnswerError(call, e))
  }

  function AfterSearch(call: Call, found: Option<seq<Handle>>, ends: bool): Caller {
    if found.Some? && found.value != [] then Ready(found.value, ends)
    else GiveUp(call, Device(true, found, ends, true, Always(None), true), None,
                if found.None? then SearchFailed else KeyNotFound)
  }

  function Computed(call: Call, keys: seq<Handle>, nonce: Bytes, output: Option<Bytes>, ends: bool): Caller {
    var device := Device(true, Some(keys), true, true, Always(output), ends);
    var random := if |nonce| == NONCE_SIZE then Some(nonce) else None;
    if output.None? then GiveUp(call, device, random, ExecutionFailed)
    else Unlocking(device, random,
                   if call.kind.Encryption? then Encrypted(Ok(Sealed(output.value, nonce)))
                   else Decrypted(Ok(output.value)))
  }

  // The device as a call has come to know it. What was not asked of it does not matter.

  function Always(output: Option<Bytes>): (Kind, Handle, Bytes, Bytes) -> Option<Bytes> {
    (_, _, _, _) => output
  }

  function NoSearch(willing: bool): Device {
    Device(willing, None, true, true, Always(None), true)
  }

  function NoCrypto(keys: seq<Handle>, searchEnded: bool, willing: bool): Device {
    Device(true, Some(keys), searchEnded, willing, Always(None), true)
  }

  ghost predicate IsRun(calls: seq<Call>, s: State, actions: seq<Action>, t: State)
    decreases |actions|
  {
    if actions == [] then s == t
    else Enabled(calls, s, actions[0]) && IsRun(calls, Step(calls, s, actions[0]), actions[1..], t)
  }

  /** FindObjectsFinal succeeds, and Encrypt or Decrypt ends its operation. */
  predicate Ends(a: Action) {
    match a.op
    case FindObjectsFinal(ends) => ends
    case Execute(_, ends) => ends
    case _ => true
  }

  // ---------------------------------------------------------------- mutual exclusion

  predicate HasProvider(caller: Caller) {
    !caller.Outside? && !caller.Managed? && !caller.Leaving? && !caller.Done?
  }

  predicate HasManager(call: Call, caller: Caller) {
    !call.direct && !caller.Outside? && !caller.Done?
  }

  /** Each lock is held by exactly the call it names, if any. */
  ghost predicate Exclusive(calls: seq<Call>, s: State) {
    && |s.callers| == |calls|
    && (forall i :: 0 <= i < |calls| ==> (s.inner == Some(i) <==> HasProvider(s.callers[i])))
    && (forall i :: 0 <= i < |calls| ==> (s.outer == Some(i) <==> HasManager(calls[i], s.callers[i])))
    && (forall i :: 0 <= i < |calls| && calls[i].direct ==> !s.callers[i].Managed? && !s.callers[i].Leaving?)
    && (s.inner.Some? ==> s.inner.value < |calls|)
    && (s.outer.Some? ==> s.outer.value < |calls|)
  }

  /** What the session is doing when everything has been ended, as told by the lock holder's position. */
  ghost predicate InStep(calls: seq<Call>, s: State)
    requires Exclusive(calls, s)
  {
    && s.refusals == 0
    && s.active == match s.inner
                   case None => Unused
                   case Some(i) => ActiveIn(calls[i], s.callers[i])
  }

  function ActiveIn(call: Call, caller: Caller): Operation {
    match caller
    case Searching => Search
    case Searched(_) => Search
    case Operating(_, _) => Crypto(call.kind)
    case _ => Unused
  }

  /** An operation nobody will end: it is active although no call is searching or operating. */
  ghost predicate Jammed(s: State) {
    && !s.active.Unused?
    && forall i :: 0 <= i < |s.callers| ==>
         !s.callers[i].Searching? && !s.callers[i].Searched? && !s.callers[i].Operating?
  }

  lemma InitExclusive(calls: seq<Call>)
    ensures Exclusive(calls, Init(calls)) && InStep(calls, Init(calls))
  {
  }

  /** What a step means for the locks: how the caller moves, and who holds them afterwards. */
  ghost predicate LocksAfter(calls: seq<Call>, s: State, a: Action, t: State) {
    && a.i < |s.callers| == |t.callers| == |calls| && t.callers == s.callers[a.i := t.callers[a.i]]
    && Passes(calls[a.i], s.callers[a.i], a.op, t.callers[a.i])
    && t.outer == (if a.op.LockManager? then Some(a.i) else if a.op.UnlockManager? then None else s.outer)
    && t.inner == (if a.op.LockProvider? then Some(a.i) else if a.op.UnlockProvider? then None else s.inner)
  }

  predicate Passes(call: Call, before: Caller, op: Op, after: Caller) {
    match op
    case LockManager => before.Outside? && !call.direct && after.Managed?
    case LockProvider => (if call.direct then before.Outside? else before.Managed?) && after.Locked?
    case UnlockProvider => before.Unlocking? && (if call.direct then after.Done? else after.Leaving?)
    case UnlockManager => before.Leaving? && after.Done?
    case _ => HasProvider(before) && HasProvider(after)
  }

  lemma StepPasses(calls: seq<Call>, s: State, a: Action)
    requires |s.callers| == |calls| && Enabled(calls, s, a)
    ensures LocksAfter(calls, s, a, Step(calls, s, a))
  {
  }

  lemma ExclusiveStep(calls: seq<Call>, s: State, a: Action)
    requires Exclusive(calls, s) && Enabled(calls, s, a)
    ensures Exclusive(calls, Step(calls, s, a))
  {
    StepPasses(calls, s, a);
    StaysExclusive(calls, s, a, Step(calls, s, a));
  }

  lemma StaysExclusive(calls: seq<Call>, s: State, a: Action, t: State)
    requires Exclusive(calls, s) && LocksAfter(calls, s, a, t)
    requires a.op.LockManager? ==> s.outer.None?
    requires a.op.LockProvider? ==> s.inner.None?
    ensures Exclusive(calls, t)
  {
  }

  lemma InStepStep(calls: seq<Call>, s: State, a: Action)
    requires Exclusive(calls, s) && InStep(calls, s) && Enabled(calls, s, a)
    requires Exclusive(calls, Step(calls, s, a))
    ensures Ends(a) ==> InStep(calls, Step(calls, s, a))
    ensures !Ends(a) ==> Jammed(Step(calls, s, a))
  {
    if Ends(a) {
      EndedStaysInStep(calls, s, a);
    } else {
      UnendedJams(calls, s, a);
    }
  }

  lemma EndedStaysInStep(calls: seq<Call>, s: State, a: Action)
    requires Exclusive(calls, s) && InStep(calls, s) && Enabled(calls, s, a) && Ends(a)
    requires Exclusive(calls, Step(calls, s, a))
    ensures InStep(calls, Step(calls, s, a))
  {
    assert HasProvider(s.callers[a.i]) ==> s.inner == Some(a.i);
  }

  lemma UnendedJams(calls: seq<Call>, s: State, a: Action)
    requires Exclusive(calls, s) && InStep(calls, s) && Enabled(calls, s, a) && !Ends(a)
    ensures Jammed(Step(calls, s, a))
  {
    assert s.inner == Some(a.i);
  }

  lemma JammedStep(calls: seq<Call>, s: State, a: Action)
    requires Jammed(s) && Enabled(calls, s, a)
    ensures Jammed(Step(calls, s, a)) && Step(calls, s, a).active == s.active
  {
  }

  // ---------------------------------------------------------------- runs

  lemma {:induction false} StaysJammed(calls: seq<Call>, s: State, actions: seq<Action>, t: State)
    requires Jammed(s) && IsRun(calls, s, actions, t)
    ensures Jammed(t) && t.active == s.active
    decreases |actions|
  {
    if actions != [] {
      JammedStep(calls, s, actions[0]);
      StaysJammed(calls, Step(calls, s, actions[0]), actions[1..], t);
    }
  }

  lemma {:induction false} RunKeeps(calls: seq<Call>, s: State, actions: seq<Action>, t: State)
    requires Exclusive(calls, s) && IsRun(calls, s, actions, t)
    ensures Exclusive(calls, t)
    ensures InStep(calls, s) ==>
              if forall a :: a in actions ==> Ends(a) then InStep(calls, t) else Jammed(t)
    decreases |actions|
  {
    if actions != [] {
      var first, rest := actions[0], actions[1..];
      var u := Step(calls, s, first);
      ExclusiveStep(calls, s, first);
      RunKeeps(calls, u, rest, t);
      if InStep(calls, s) {
        InStepStep(calls, s, first);
        if Ends(first) {
          assert (forall a :: a in actions ==> Ends(a)) <==> forall a :: a in rest ==> Ends(a);
        } else {
          StaysJammed(calls, u, rest, t);
        }
      }
    }
  }

  /** At most one call is between taking and releasing the provider's lock, and one the manager's. */
  lemma MutualExclusion(calls: seq<Call>, actions: seq<Action>, t: State, i: nat, j: nat)
    requires IsRun(calls, Init(calls), actions, t) && i < |calls| && j < |calls|
    ensures |t.callers| == |calls|
    ensures HasProvider(t.callers[i]) && HasProvider(t.callers[j]) ==> i == j
    ensures HasManager(calls[i], t.callers[i]) && HasManager(calls[j], t.callers[j]) ==> i == j
  {
    InitExclusive(calls);
    RunKeeps(calls, Init(calls), actions, t);
  }

  /** While every search and operation is ended, no Init call ever meets an active operation, and the
    session is unused whenever the provider's lock is free, whatever errors the calls ran into. */
  lemma NeverRefused(calls: seq<Call>, actions: seq<Action>, t: State)
    requires IsRun(calls, Init(calls), actions, t) && forall a :: a in actions ==> Ends(a)
    ensures t.refusals == 0 && (t.inner.None? ==> t.active.Unused?)
  {
    InitExclusive(calls);
    RunKeeps(calls, Init(calls), actions, t);
  }

  /** The condition is exact: with the lock free, the session is unused just when all of them ended. */
  lemma UnusedIffAllEnded(calls: seq<Call>, actions: seq<Action>, t: State)
    requires IsRun(calls, Init(calls), actions, t) && t.inner.None?
    ensures t.active.Unused? <==> forall a :: a in actions ==> Ends(a)
  {
    InitExclusive(calls);
    RunKeeps(calls, Init(calls), actions, t);
  }

  /** A single unfinished operation, its error being ignored, makes every later call fail. */
  lemma OneUnendedIsForever(
      calls: seq<Call>, before: seq<Action>, s: State, after: seq<Action>, t: State, i: nat)
    requires IsRun(calls, Init(calls), before, s) && IsRun(calls, s, after, t)
    requires exists a :: a in before && !Ends(a)
    ensures !t.active.Unused?
    ensures i < |t.callers| ==> !t.callers[i].Searching? && !t.callers[i].Operating?
  {
    InitExclusive(calls);
    RunKeeps(calls, Init(calls), before, s);
    StaysJammed(calls, s, after, t);
  }

  /** From then on every Init call meets the unfinished operation, and its call is answered with that error. */
  lemma EveryInitIsRefused(
      calls: seq<Call>, before: seq<Action>, s: State, after: seq<Action>, t: State, i: nat, willing: bool)
    requires IsRun(calls, Init(calls), before, s) && IsRun(calls, s, after, t)
    requires exists a :: a in before && !Ends(a)
    requires Enabled(calls, t, Act(i, FindObjectsInit(willing)))
    ensures var u := Step(calls, t, Act(i, FindObjectsInit(willing)));
            && u.refusals == t.refusals + 1 && u.active == t.active && u.callers[i].Unlocking?
            && u.callers[i].result ==
               if calls[i].kind.Encryption? then Encrypted(Err(SearchNotStarted)) else Decrypted(Err(SearchNotStarted))
  {
    OneUnendedIsForever(calls, before, s, after, t, i);
  }

  /** What the device decides is never ruled out. */
  lemma DeviceIsFree(calls: seq<Call>, s: State, i: nat, n: Nonce, found: Option<seq<Handle>>, output: Option<Bytes>)
    ensures Enabled(calls, s, Act(i, FindObjectsInit(true))) <==> Enabled(calls, s, Act(i, FindObjectsInit(false)))
    ensures Enabled(calls, s, Act(i, FindObjects(found))) <==> Enabled(calls, s, Act(i, FindObjects(None)))
    ensures Enabled(calls, s, Act(i, FindObjectsFinal(true))) <==> Enabled(calls, s, Act(i, FindObjectsFinal(false)))
    ensures Enabled(calls, s, Act(i, CryptoInit(n, true))) <==> Enabled(calls, s, Act(i, CryptoInit(n, false)))
    ensures Enabled(calls, s, Act(i, LackNonce)) <==>
            Enabled(calls, s, Act(i, CryptoInit(n, true))) && calls[i].kind == Encryption
    ensures Enabled(calls, s, Act(i, Execute(output, true))) <==> Enabled(calls, s, Act(i, Execute(None, false)))
  {
  }

  // ---------------------------------------------------------------- progress

  function StepsLeft(caller: Caller): nat {
    match caller
    case Outside => 9
    case Managed => 8
    case Locked => 7
    case Searching => 6
    case Searched(_) => 5
    case Ready(_, _) => 4
    case Operating(_, _) => 3
    case Unlocking(_, _, _) => 2
    case Leaving(_) => 1
    case Done(_) => 0
  }

  function Lefts(): Caller -> nat {
    (caller: Caller) => StepsLeft(caller)
  }

  lemma StepsDecrease(calls: seq<Call>, s: State, a: Action)
    requires Enabled(calls, s, a)
    ensures Sum(Lefts(), Step(calls, s, a).callers) < Sum(Lefts(), s.callers)
  {
    SumUpdate(Lefts(), s.callers, a.i, Step(calls, s, a).callers[a.i]);
  }

  lemma {:induction false} RunShortens(calls: seq<Call>, s: State, actions: seq<Action>, t: State)
    requires IsRun(calls, s, actions, t)
    ensures |actions| + Sum(Lefts(), t.callers) <= Sum(Lefts(), s.callers)
    decreases |actions|
  {
    if actions != [] {
      StepsDecrease(calls, s, actions[0]);
      RunShortens(calls, Step(calls, s, actions[0]), actions[1..], t);
    }
  }

  /** Some call can always go on: with the two locks taken in one order there is no deadlock. */
  lemma Progress(calls: seq<Call>, s: State) returns (a: Action)
    requires Exclusive(calls, s) && exists i :: 0 <= i < |calls| && !s.callers[i].Done?
    ensures Enabled(calls, s, a)
  {
    if s.inner.Some? {
      var i := s.inner.value;
      match s.callers[i]
      case Locked => a := Act(i, FindObjectsInit(true));
      case Searching => a := Act(i, FindObjects(None));
      case Searched(_) => a := Act(i, FindObjectsFinal(true));
      case Ready(_, _) => a := Act(i, CryptoInit(seq(NONCE_SIZE, _ => 0), true));
      case Operating(_, _) => a := Act(i, Execute(None, true));
      case Unlocking(_, _, _) => a := Act(i, UnlockProvider);
    } else if s.outer.Some? {
      var i := s.outer.value;
      assert !HasProvider(s.callers[i]);
      a := Act(i, if s.callers[i].Managed? then LockProvider else UnlockManager);
    } else {
      var i :| 0 <= i < |calls| && !s.callers[i].Done?;
      assert !HasProvider(s.callers[i]) && !HasManager(calls[i], s.callers[i]);
      a := Act(i, if calls[i].direct then LockProvider else LockManager);
    }
  }

  lemma AllDoneIsStuck(calls: seq<Call>, t: State, a: Action)
    requires Exclusive(calls, t) && forall i :: 0 <= i < |calls| ==> t.callers[i].Done?
    ensures !Enabled(calls, t, a)
  {
  }

  /** Every run has at most 9 steps a call, and one that cannot go on has completed every call. */
  lemma AllCallsComplete(calls: seq<Call>, actions: seq<Action>, t: State)
    requires IsRun(calls, Init(calls), actions, t)
    ensures |actions| <= 9 * |calls| && |t.callers| == |calls|
    ensures (forall a :: !Enabled(calls, t, a)) <==> forall i :: 0 <= i < |calls| ==> t.callers[i].Done?
  {
    InitExclusive(calls);
    RunKeeps(calls, Init(calls), actions, t);
    RunLength(calls, actions, t);
    if i :| 0 <= i < |calls| && !t.callers[i].Done? {
      var a := Progress(calls, t);
    } else {
      forall a ensures !Enabled(calls, t, a) {
        AllDoneIsStuck(calls, t, a);
      }
    }
  }

  lemma RunLength(calls: seq<Call>, actions: seq<Action>, t: State)
    requires IsRun(calls, Init(calls), actions, t)
    ensures |actions| <= 9 * |calls|
  {
    RunShortens(calls, Init(calls), actions, t);
    SumOfEqual(Lefts(), Init(calls).callers, 9);
  }
}
