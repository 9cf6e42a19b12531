/**
  An authenticated cipher in the sense of section 5.2 of RFC 5116, seen from outside: AES-GCM itself
  is not modelled, only the interface the key manager relies on (12-octet nonce, 16-octet tag,
  opening what was sealed gives the plaintext back).
 */
module Aead {
  import opened Basics

  const NONCE_SIZE := 12
  const TAG_SIZE := 16

  type Nonce = n: Bytes | |n| == NONCE_SIZE witness seq(NONCE_SIZE, _ => 0)

  datatype Cipher = Cipher(seal: (Nonce, Bytes) -> Bytes, open: (Nonce, Bytes) -> Option<Bytes>) {
    ghost predicate Lawful() {
      forall n: Nonce, p: Bytes {:trigger seal(n, p)} ::
        |seal(n, p)| == |p| + TAG_SIZE && open(n, seal(n, p)) == Some(p)
    }
  }

  /** What the Encrypt call answers: the ciphertext and the nonce it was made with. */
  datatype Sealed = Sealed(ciphertext: Bytes, nonce: Bytes)

  datatype CryptError = NotInitialized | NoRandomness | AuthenticationFailed | WrongNonceLengthPanic

  /**
    The file-based key manager. Its cipher is absent until a key has been loaded. The random source
    is a parameter: None stands for a failed read. Go's GCM panics on a nonce of another length, which
    is the last error value here.
   */
  class FileManager {
    const aead: Option<Cipher>

    constructor (aead: Option<Cipher>)
      ensures this.aead == aead
    {
      this.aead := aead;
    }

    method Encrypt(plaintext: Bytes, random: Option<Nonce>) returns (r: Result<Sealed, CryptError>)
      requires aead.Some? ==> aead.value.Lawful()
      ensures aead.None? ==> r == Err(NotInitialized)
      ensures aead.Some? && random.None? ==> r == Err(NoRandomness)
      ensures r.Ok? <==> aead.Some? && random.Some?
      ensures r.Ok? ==> r.value.nonce == random.value && |r.value.nonce| == 12
      ensures r.Ok? ==> r.value.ciphertext == aead.value.seal(random.value, plaintext)
      ensures r.Ok? ==> |r.value.ciphertext| == |plaintext| + 16
      ensures r.Ok? ==> Opened(aead, r.value.ciphertext, r.value.nonce) == Ok(plaintext)
    {
      if aead.None? {
        return Err(NotInitialized);
      }
      if random.None? {
        return Err(NoRandomness);
      }
      var nonce := random.value;
      var ciphertext := aead.value.seal(nonce, plaintext);
      return Ok(Sealed(ciphertext, nonce));
    }

    method Decrypt(ciphertext: Bytes, nonce: Bytes) returns (r: Result<Bytes, CryptError>)
      ensures r == Opened(aead, ciphertext, nonce)
      ensures r.Ok? ==> aead.Some? && |nonce| == 12 && aead.value.open(nonce, ciphertext) == Some(r.value)
      ensures r == Err(NotInitialized) <==> aead.None?
      ensures r == Err(WrongNonceLengthPanic) <==> aead.Some? && |nonce| != 12
      ensures r == Err(AuthenticationFailed) <==>
              aead.Some? && |nonce| == 12 && aead.value.open(nonce, ciphertext).None?
      ensures aead.Some? && aead.value.Lawful() ==>
                forall n: Nonce, p: Bytes {:trigger aead.value.seal(n, p)} ::
                  nonce == n && ciphertext == aead.value.seal(n, p) ==> r == Ok(p)
    {
      if aead.None? {
        return Err(NotInitialized);
      }
      if |nonce| != NONCE_SIZE {
        return Err(WrongNonceLengthPanic);
      }
      var answer := aead.value.open(nonce, ciphertext);
      match answer {
        case None => return Err(AuthenticationFailed);
        case Some(plaintext) => return Ok(plaintext);
      }
    }
  }

  /** What decrypting means: the error order of the manager, then the cipher's own verdict. */
  function Opened(aead: Option<Cipher>, ciphertext: Bytes, nonce: Bytes): Result<Bytes, CryptError> {
    if aead.None? then Err(NotInitialized)
    else if |nonce| != NONCE_SIZE then Err(WrongNonceLengthPanic)
    else match aead.value.open(nonce, ciphertext)
      case None => Err(AuthenticationFailed)
      case Some(plaintext) => Ok(plaintext)
  }
}
