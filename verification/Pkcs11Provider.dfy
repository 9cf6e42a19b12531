/**
  The PKCS#11 provider over one session. The session allows one active operation (PKCS #11 Base
  Specification v2.40: an Init call is answered CKR_OPERATION_ACTIVE while another operation is active).
  What the device decides in a call is a parameter.
 */
module Pkcs11Provider {
  import opened Basics
  import opened Aead

  datatype Kind = Encryption | Decryption

  datatype Operation = Unused | Search | Crypto(kind: Kind)

  type Handle = nat

  /**
    The device's part in one call of Encrypt or Decrypt: whether FindObjectsInit succeeds, what
    FindObjects finds (None: an error), whether FindObjectsFinal succeeds, whether the mechanism is
    accepted, what the operation computes (None: an error), and whether it then ends.
   */
  datatype Device = Device(
    searchStarts: bool, found: Option<seq<Handle>>, searchEnds: bool,
    mechanismAccepted: bool, compute: (Kind, Handle, Bytes, Bytes) -> Option<Bytes>, operationEnds: bool)
  {
    predicate FindsKey() {
      searchStarts && found.Some? && found.value != []
    }
  }

  datatype HsmError = SearchNotStarted | SearchFailed | KeyNotFound | NoRandomness | InitFailed | ExecutionFailed

  /** An Init call: refused while an operation is active. */
  function AfterInit(active: Operation, wanted: Operation, willing: bool): Operation {
    if active.Unused? && willing then wanted else active
  }

  function AfterEnd(active: Operation, ends: bool): Operation {
    if ends then Unused else active
  }

  class Session {
    var active: Operation
    var key: Handle
    var nonce: Bytes

    constructor ()
      ensures active == Unused
    {
      active, key, nonce := Unused, 0, [];
    }

    method FindObjectsInit(willing: bool) returns (ok: bool)
      modifies this`active
      ensures ok == (old(active).Unused? && willing)
      ensures active == AfterInit(old(active), Search, willing)
    {
      ok := active.Unused? && willing;
      if ok {
        active := Search;
      }
    }

    /** At most max of the objects found; without an active search there is only an error. */
    method FindObjects(found: Option<seq<Handle>>, max: nat) returns (objects: Option<seq<Handle>>)
      ensures objects.Some? <==> active.Search? && found.Some?
      ensures objects.Some? ==> objects.value <= found.value
      ensures objects.Some? ==> |objects.value| == if |found.value| < max then |found.value| else max
    {
      if !active.Search? || found.None? {
        return None;
      }
      return Some(if |found.value| < max then found.value else found.value[..max]);
    }

    method FindObjectsFinal(willing: bool)
      modifies this`active
      ensures active == if old(active).Search? then AfterEnd(old(active), willing) else old(active)
    {
      if active.Search? && willing {
        active := Unused;
      }
    }

    method CryptoInit(kind: Kind, key: Handle, nonce: Bytes, willing: bool) returns (ok: bool)
      modifies this
      ensures ok == (old(active).Unused? && willing)
      ensures active == AfterInit(old(active), Crypto(kind), willing)
      ensures ok ==> this.key == key && this.nonce == nonce
    {
      ok := active.Unused? && willing;
      if ok {
        active, this.key, this.nonce := Crypto(kind), key, nonce;
      }
    }

    method Execute(kind: Kind, input: Bytes, device: Device) returns (output: Option<Bytes>)
      modifies this`active
      ensures old(active) == Crypto(kind) ==>
                output == device.compute(kind, key, nonce, input)
                && active == AfterEnd(old(active), device.operationEnds)
      ensures old(active) != Crypto(kind) ==> output.None? && active == old(active)
    {
      if active != Crypto(kind) {
        return None;
      }
      output := device.compute(kind, key, nonce, input);
      if device.operationEnds {
        active := Unused;
      }
    }
  }

  /** Its methods run under the provider's mutex; Pkcs11Locks is about the interleavings. */
  class Provider {
    const session: Session

    constructor (session: Session)
      ensures this.session == session
    {
      this.session := session;
    }

    method FindKeyHandle(device: Device) returns (r: Result<Handle, HsmError>)
      modifies session`active
      ensures r.Ok? <==> old(session.active).Unused? && device.FindsKey()
      ensures r.Ok? ==> r.value == device.found.value[0]
      ensures r.Err? ==> r.error == NoKeyBecause(old(session.active), device)
      ensures session.active ==
              if old(session.active).Unused? && device.searchStarts then AfterEnd(Search, device.searchEnds)
              else old(session.active)
    {
      var ok := session.FindObjectsInit(device.searchStarts);
      if !ok {
        return Err(SearchNotStarted);
      }
      var objects := session.FindObjects(device.found, 1);
      session.FindObjectsFinal(device.searchEnds);
      match objects {
        case None => return Err(SearchFailed);
        case Some(handles) =>
          if |handles| == 0 {
            return Err(KeyNotFound);
          }
          return Ok(handles[0]);
      }
    }

    method Encrypt(plaintext: Bytes, random: Option<Nonce>, device: Device) returns (r: Result<Sealed, HsmError>)
      modifies session
      ensures EncryptOutcome(old(session.active), session.active, plaintext, random, device, r)
      ensures !old(session.active).Unused? || !device.searchStarts ==> r == Err(SearchNotStarted)
      ensures old(session.active).Unused? && device.searchStarts ==>
                match device.found
                case None => r == Err(SearchFailed)
                case Some(keys) =>
                  if keys == [] then r == Err(KeyNotFound)
                  else if random.None? then r == Err(HsmError.NoRandomness)
                  else if !device.searchEnds || !device.mechanismAccepted then r == Err(InitFailed)
                  else match device.compute(Encryption, keys[0], random.value, plaintext)
                    case None => r == Err(ExecutionFailed)
                    case Some(ciphertext) => r == Ok(Sealed(ciphertext, random.value))
      ensures session.active.Unused? <==>
              && old(session.active).Unused? && (device.searchStarts ==> device.searchEnds)
              && ((device.searchStarts && device.found.Some? && device.found.value != [] && random.Some?
                   && device.mechanismAccepted) ==> device.operationEnds)
    {
      var handle := FindKeyHandle(device);
      if handle.Err? {
        return Err(handle.error);
      }
      if random.None? {
        return Err(HsmError.NoRandomness);
      }
      var ok := session.CryptoInit(Encryption, handle.value, random.value, device.mechanismAccepted);
      if !ok {
        return Err(InitFailed);
      }
      var ciphertext := session.Execute(Encryption, plaintext, device);
      if ciphertext.None? {
        return Err(ExecutionFailed);
      }
      return Ok(Sealed(ciphertext.value, random.value));
    }

    method Decrypt(ciphertext: Bytes, nonce: Bytes, device: Device) returns (r: Result<Bytes, HsmError>)
      modifies session
      ensures DecryptOutcome(old(session.active), session.active, ciphertext, nonce, device, r)
      ensures !old(session.active).Unused? || !device.searchStarts ==> r == Err(SearchNotStarted)
      ensures old(session.active).Unused? && device.searchStarts ==>
                match device.found
                case None => r == Err(SearchFailed)
                case Some(keys) =>
                  if keys == [] then r == Err(KeyNotFound)
                  else if !device.searchEnds || !device.mechanismAccepted then r == Err(InitFailed)
                  else match device.compute(Decryption, keys[0], nonce, ciphertext)
                    case None => r == Err(ExecutionFailed)
                    case Some(plaintext) => r == Ok(plaintext)
      ensures session.active.Unused? <==>
              && old(session.active).Unused? && (device.searchStarts ==> device.searchEnds)
              && (device.searchStarts && device.found.Some? && device.found.value != [] && device.mechanismAccepted
                  ==> device.operationEnds)
    {
      var handle := FindKeyHandle(device);
      if handle.Err? {
        return Err(handle.error);
      }
      var ok := session.CryptoInit(Decryption, handle.value, nonce, device.mechanismAccepted);
      if !ok {
        return Err(InitFailed);
      }
      var plaintext := session.Execute(Decryption, ciphertext, device);
      if plaintext.None? {
        return Err(ExecutionFailed);
      }
      return Ok(plaintext.value);
    }
  }

  function NoKeyBecause(active: Operation, device: Device): HsmError {
    if !active.Unused? || !device.searchStarts then SearchNotStarted
    else if device.found.None? then SearchFailed
    else KeyNotFound
  }

  /** With the key found, the operation runs to an answer: the search has really ended, and nothing fails. */
  predicate Computes(device: Device, kind: Kind, nonce: Bytes, input: Bytes) {
    && device.FindsKey() && device.searchEnds && device.mechanismAccepted
    && device.compute(kind, device.found.value[0], nonce, input).Some?
  }

  /**
    Exactly when a call that finds the session unused leaves it so, on whichever path it returns: every
    search and every operation it started came to an end.
   */
  predicate LeavesUnused(device: Device, hasNonce: bool) {
    && (device.searchStarts ==> device.searchEnds)
    && (device.FindsKey() && hasNonce && device.mechanismAccepted ==> device.operationEnds)
  }

  /** The error of a call that does not succeed: that of the first step to fail. */
  function FailureOf(active: Operation, device: Device, hasNonce: bool): HsmError {
    if !active.Unused? || !device.FindsKey() then NoKeyBecause(active, device)
    else if !hasNonce then HsmError.NoRandomness
    else if !device.searchEnds || !device.mechanismAccepted then InitFailed
    else ExecutionFailed
  }

  /** What one Encrypt call does to the session (from before to after) and answers. */
  predicate EncryptOutcome(before: Operation, after: Operation, plaintext: Bytes, random: Option<Nonce>, device: Device,
                           r: Result<Sealed, HsmError>)
  {
    && (r.Ok? <==> before.Unused? && random.Some? && Computes(device, Encryption, random.value, plaintext))
    && (r.Ok? ==> r.value.nonce == random.value
                  && Some(r.value.ciphertext)
                     == device.compute(Encryption, device.found.value[0], random.value, plaintext))
    && (r.Err? ==> r.error == FailureOf(before, device, random.Some?))
    && (after.Unused? <==> before.Unused? && LeavesUnused(device, random.Some?))
    && (!before.Unused? ==> after == before)
  }

  predicate DecryptOutcome(before: Operation, after: Operation, ciphertext: Bytes, nonce: Bytes, device: Device,
                           r: Result<Bytes, HsmError>)
  {
    && (r.Ok? <==> before.Unused? && Computes(device, Decryption, nonce, ciphertext))
    && (r.Ok? ==> Some(r.value) == device.compute(Decryption, device.found.value[0], nonce, ciphertext))
    && (r.Err? ==> r.error == FailureOf(before, device, true))
    && (after.Unused? <==> before.Unused? && LeavesUnused(device, true))
    && (!before.Unused? ==> after == before)
  }

  /** The manager delegates; it exists only for a provider that has passed its self-test. */
  class HsmManager {
    const provider: Provider

    constructor (provider: Provider)
      ensures this.provider == provider
    {
      this.provider := provider;
    }

    method Encrypt(plaintext: Bytes, random: Option<Nonce>, device: Device) returns (r: Result<Sealed, HsmError>)
      modifies provider.session
      ensures EncryptOutcome(old(provider.session.active), provider.session.active, plaintext, random, device, r)
    {
      r := provider.Encrypt(plaintext, random, device);
    }

    method Decrypt(ciphertext: Bytes, nonce: Bytes, device: Device) returns (r: Result<Bytes, HsmError>)
      modifies provider.session
      ensures DecryptOutcome(old(provider.session.active), provider.session.active, ciphertext, nonce, device, r)
    {
      r := provider.Decrypt(ciphertext, nonce, device);
    }
  }

  const PING: Bytes := [112, 105, 110, 103]

  /** NewHSMManager: None for a missing provider or one that cannot encrypt "ping". */
  method NewHsmManager(provider: Provider?, random: Option<Nonce>, device: Device) returns (m: Option<HsmManager>)
    modifies if provider == null then {} else {provider.session}
    ensures m.Some? ==> provider != null && m.value.provider == provider
    ensures provider != null ==>
              (m.Some? <==> old(provider.session.active).Unused? && random.Some?
                            && Computes(device, Encryption, random.value, [112, 105, 110, 103]))
    ensures provider != null ==>
              (provider.session.active.Unused? <==>
               old(provider.session.active).Unused? && LeavesUnused(device, random.Some?))
  {
    if provider == null {
      return None;
    }
    var pong := provider.Encrypt(PING, random, device);
    if pong.Err? {
      return None;
    }
    var manager := new HsmManager(provider);
    return Some(manager);
  }

  /**
    Decrypt undoes Encrypt: with the same key found and a device whose decryption inverts its encryption,
    a successful Encrypt is answered by the plaintext, unless a step of the Decrypt call fails.
   */
  lemma DecryptUndoesEncrypt(
      plaintext: Bytes, random: Option<Nonce>, d1: Device, r1: Result<Sealed, HsmError>, s0: Operation, s1: Operation,
      d2: Device, r2: Result<Bytes, HsmError>, s2: Operation)
    requires EncryptOutcome(s0, s1, plaintext, random, d1, r1) && r1.Ok?
    requires DecryptOutcome(s1, s2, r1.value.ciphertext, r1.value.nonce, d2, r2)
    requires d2.FindsKey() && d2.found.value[0] == d1.found.value[0]
    requires forall k: Handle, n: Bytes, p: Bytes {:trigger d1.compute(Encryption, k, n, p)} ::
               d1.compute(Encryption, k, n, p).Some? ==>
               d2.compute(Decryption, k, n, d1.compute(Encryption, k, n, p).value) == Some(p)
    ensures r2.Ok? <==> d1.operationEnds && d2.searchEnds && d2.mechanismAccepted
    ensures r2.Ok? ==> r2.value == plaintext
  {
    assert d1.compute(Encryption, d1.found.value[0], random.value, plaintext).Some?;
  }
}
